/**
 * The boundary to the JSON-RPC endpoints (src/solana_rpc.rs): the commitment
 * level a slot query is made under, a bound client, and the classified outcome
 * of one `getSlot` call. The call itself is network I/O and is not modelled;
 * its outcome is an input of the polling round.
 */
module Rpc {

  import opened Wrappers

  /** Slot values are `u64` gauges (src/prom_u64.rs). */
  type u64 = x: int | 0 <= x < 0x1_0000_0000_0000_0000

  /** The only commitment level the program declares; the others are commented out. */
  datatype Commitment = Finalized

  datatype CommitmentConfig = CommitmentConfig(commitment: Commitment)

  /** `CommitmentConfig::finalized()`. */
  function FinalizedConfig(): (c: Option<CommitmentConfig>)
    ensures c.Some? && c.value.commitment == Finalized
  {
    Some(CommitmentConfig(Finalized))
  }

  /** A client bound once at startup: the endpoint URL and its request timeout (nanoseconds). */
  datatype Client = Client(url: string, timeout: nat)

  /** One query issued in a round: the id it is tagged with, its client and commitment. */
  datatype Request = Request(id: string, client: Client, commitment: Option<CommitmentConfig>)

  /**
   * The way a `getSlot` call failed. The first seven are the error predicates
   * the poller tests (`is_redirect`, `is_status`, `is_timeout`, `is_request`,
   * `is_connect`, `is_body`, `is_decode`); `Other` is any other failure.
   */
  datatype ErrorKind = Redirect | Status | Timeout | RequestError | Connect | Body | Decode | Other

  /** The outcome of one `getSlot` call. */
  datatype FetchResult = Slot(slot: u64) | Failed(kind: ErrorKind)

  /** Errors after which the endpoint simply did not answer this round. */
  predicate IsTransient(k: ErrorKind) {
    k == Redirect || k == Status || k == Timeout || k == RequestError
    || k == Connect || k == Body || k == Decode
  }

  /** A failure that aborts the whole round. */
  predicate IsFatal(f: FetchResult) {
    f.Failed? && !IsTransient(f.kind)
  }
}
