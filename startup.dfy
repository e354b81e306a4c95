/**
 * Startup (src/main.rs): validate the parsed command line and derive what the
 * poller is given: whether the upstream gauge exists, the request timeout,
 * the upstream client, the downstream clients by id and the commitment.
 */
module Startup {

  import opened Wrappers
  import opened Rpc
  import opened IdUrl
  import opened Maps

  /** The parsed command-line fields startup reads. Durations are in nanoseconds. */
  datatype Cli = Cli(upstreamRpc: Uri, disableUpstream: bool, downstreamRpc: seq<IdUrlPair>, pollInterval: nat)

  /** What startup hands to the registry and the poller. */
  datatype Setup = Setup(
    upstreamGauge: bool,
    requestTimeout: nat,
    upstreamClient: Option<Client>,
    downstreamClients: map<string, Client>,
    commitment: Option<CommitmentConfig>)

  /** The exit status of a rejected configuration. */
  const RejectedExitCode: int := 1

  /** Half the poll interval, truncated to whole nanoseconds as `Duration / 2` does. */
  function RequestTimeout(pollInterval: nat): (t: nat)
    ensures 2 * t <= pollInterval < 2 * t + 2
  {
    pollInterval / 2
  }

  /** The ids of the downstream pairs, duplicates and "upstream" included. */
  function Ids(pairs: seq<IdUrlPair>): (ids: set<string>) {
    set i | 0 <= i < |pairs| :: pairs[i].id
  }

  /** No pair after the `i`-th among the first `n` has its id. */
  predicate LastWithId(pairs: seq<IdUrlPair>, n: nat, i: nat)
    requires i < n <= |pairs|
  {
    forall j :: i < j < n ==> pairs[j].id != pairs[i].id
  }

  /** The client each pair asks for, under its id. */
  function ClientEntries(pairs: seq<IdUrlPair>, timeout: nat): (entries: seq<(string, Client)>)
    ensures |entries| == |pairs|
  {
    seq(|pairs|, i requires 0 <= i < |pairs| => (pairs[i].id, Client(pairs[i].uri.text, timeout)))
  }

  /**
   * The client map loop: insert one client per pair in list order, so that a
   * later pair with the same id replaces an earlier one.
   */
  method BuildDownstreamClients(pairs: seq<IdUrlPair>, timeout: nat) returns (clients: map<string, Client>)
    ensures clients == Collect(ClientEntries(pairs, timeout))
    ensures clients.Keys == Ids(pairs)
    ensures |clients| <= |pairs|
    ensures forall i :: 0 <= i < |pairs| && LastWithId(pairs, |pairs|, i) ==>
      clients[pairs[i].id] == Client(pairs[i].uri.text, timeout)
  {
    clients := map[];
    var n := 0;
    while n < |pairs|
      invariant n <= |pairs|
      invariant clients == Collect(ClientEntries(pairs[..n], timeout))
    {
      clients := clients[pairs[n].id := Client(pairs[n].uri.text, timeout)];
      assert ClientEntries(pairs[..n + 1], timeout)[..n] == ClientEntries(pairs[..n], timeout);
      n := n + 1;
    }
    assert pairs[..n] == pairs;
    DownstreamClientMap(pairs, timeout);
  }

  /**
   * The client map has one key per distinct id of the list, so no more
   * entries than pairs, and each id maps to the client of its last pair.
   */
  lemma DownstreamClientMap(pairs: seq<IdUrlPair>, timeout: nat)
    ensures var clients := Collect(ClientEntries(pairs, timeout));
      clients.Keys == Ids(pairs)
      && |clients| <= |pairs|
      && forall i :: 0 <= i < |pairs| && LastWithId(pairs, |pairs|, i) ==>
           clients[pairs[i].id] == Client(pairs[i].uri.text, timeout)
  {
    var entries := ClientEntries(pairs, timeout);
    var clients := Collect(entries);
    CollectSize(entries);
    forall id | id in clients
      ensures id in Ids(pairs)
    {
      var i :| 0 <= i < |entries| && entries[i].0 == id;
      assert pairs[i].id == id;
    }
    forall i | 0 <= i < |pairs|
      ensures pairs[i].id in clients
      ensures LastWithId(pairs, |pairs|, i) ==> clients[pairs[i].id] == Client(pairs[i].uri.text, timeout)
    {
      assert entries[i].0 == pairs[i].id;
      if LastWithId(pairs, |pairs|, i) {
        CollectLastWins(entries, i);
      }
    }
  }

  /**
   * Startup: reject (exit status 1) exactly when upstream tracking is disabled
   * and no downstream endpoint is given; otherwise build the clients. No other
   * check runs: duplicate ids and a downstream id "upstream" are accepted.
   */
  method Prepare(cli: Cli) returns (r: Result<Setup, int>)
    ensures r.Err? <==> cli.disableUpstream && |cli.downstreamRpc| == 0
    ensures r.Err? ==> r.error == RejectedExitCode
    ensures r.Ok? ==> r.value.upstreamGauge == !cli.disableUpstream
    ensures r.Ok? ==> r.value.upstreamClient.Some? == r.value.upstreamGauge
    ensures r.Ok? ==> r.value.requestTimeout == RequestTimeout(cli.pollInterval)
    ensures r.Ok? && r.value.upstreamClient.Some? ==>
      r.value.upstreamClient.value == Client(cli.upstreamRpc.text, r.value.requestTimeout)
    ensures r.Ok? ==> r.value.downstreamClients.Keys == Ids(cli.downstreamRpc)
    ensures r.Ok? ==> |r.value.downstreamClients| <= |cli.downstreamRpc|
    ensures r.Ok? ==> forall i :: 0 <= i < |cli.downstreamRpc| && LastWithId(cli.downstreamRpc, |cli.downstreamRpc|, i) ==>
      r.value.downstreamClients[cli.downstreamRpc[i].id] == Client(cli.downstreamRpc[i].uri.text, r.value.requestTimeout)
    ensures r.Ok? ==> r.value.commitment == Some(CommitmentConfig(Finalized))
    ensures r.Ok? ==> r.value.upstreamClient.Some? || |r.value.downstreamClients| > 0
  {
    if cli.disableUpstream && |cli.downstreamRpc| == 0 {
      return Err(RejectedExitCode);
    }
    var upstreamGauge := !cli.disableUpstream;
    var timeout := RequestTimeout(cli.pollInterval);
    var upstreamClient := if !cli.disableUpstream then Some(Client(cli.upstreamRpc.text, timeout)) else None;
    var downstreamClients := BuildDownstreamClients(cli.downstreamRpc, timeout);
    if upstreamClient.None? {
      assert cli.downstreamRpc[0].id in downstreamClients;
    }
    r := Ok(Setup(upstreamGauge, timeout, upstreamClient, downstreamClients, FinalizedConfig()));
  }
}
