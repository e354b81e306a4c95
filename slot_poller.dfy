/**
 * The slot poller (src/task/slot_poller.rs): one round queries every
 * configured endpoint, classifies each failure as transient or fatal, joins
 * the answers into an upstream slot and a per-id downstream map, and applies
 * them to the registry; the poller runs a round per tick until cancelled.
 *
 * The network is not modelled: the outcome of the upstream fetch and of each
 * downstream client's fetch are inputs of a round. The unspecified iteration
 * order of Rust's `HashMap` is modelled by choosing the next key arbitrarily
 * (`:|`), so every contract below holds for every iteration order.
 */
module SlotPoller {

  import opened Wrappers
  import opened Rpc
  import opened Metrics
  import opened Maps

  /** The id the upstream endpoint's fetch is tagged with. */
  const UpstreamId: string := "upstream"

  /** `SlotError`: the id whose fetch failed fatally and how it failed. */
  datatype SlotError = SlotError(id: string, source: ErrorKind)

  /** What a fetch that did not fail fatally tells about the slot: `None` means "no answer this round". */
  function Observation(f: FetchResult): (o: Option<u64>) {
    if f.Slot? then Some(f.slot) else None
  }

  /** `get_node_slot`: classify the outcome of one fetch. */
  function GetNodeSlot(id: string, fetched: FetchResult): (r: Result<(string, Option<u64>), SlotError>)
    ensures r.Err? <==> IsFatal(fetched)
    ensures r.Err? ==> r.error == SlotError(id, fetched.kind)
    ensures r.Ok? ==> r.value == (id, Observation(fetched))
    ensures fetched.Slot? ==> r == Ok((id, Some(fetched.slot)))
    ensures fetched.Failed? && IsTransient(fetched.kind) ==> r == Ok((id, None))
  {
    match fetched
    case Slot(slot) => Ok((id, Some(slot)))
    case Failed(kind) =>
      if kind.Redirect? || kind.Status? || kind.Timeout? || kind.RequestError?
         || kind.Connect? || kind.Body? || kind.Decode?
      then Ok((id, None))
      else Err(SlotError(id, kind))
  }

  /**
   * `try_join_all`, run one future after the other: every value in order when
   * all succeed, otherwise one of the errors.
   */
  function TryJoinAll<T, E>(rs: seq<Result<T, E>>): (r: Result<seq<T>, E>)
    ensures r.Ok? <==> forall i :: 0 <= i < |rs| ==> rs[i].Ok?
    ensures r.Ok? ==> |r.value| == |rs| && forall i :: 0 <= i < |rs| ==> r.value[i] == rs[i].value
    ensures r.Err? ==> exists i :: 0 <= i < |rs| && rs[i] == Err(r.error)
  {
    if rs == [] then Ok([])
    else
      match rs[0]
      case Err(e) => Err(e)
      case Ok(v) =>
        match TryJoinAll(rs[1..])
        case Err(e) => Err(e)
        case Ok(vs) => Ok([v] + vs)
  }

  /** A round fails when a fetch it issues fails fatally. */
  predicate RoundFails(upstreamConfigured: bool, upOut: FetchResult, downOut: map<string, FetchResult>) {
    (upstreamConfigured && IsFatal(upOut)) || exists id :: id in downOut && IsFatal(downOut[id])
  }

  /** `e` is the error of a fetch of the round that failed fatally, with its id and error kind. */
  predicate ErrorOfRound(upstreamConfigured: bool, upOut: FetchResult, downOut: map<string, FetchResult>, e: SlotError) {
    (upstreamConfigured && IsFatal(upOut) && e == SlotError(UpstreamId, upOut.kind))
    || (e.id in downOut && IsFatal(downOut[e.id]) && e.source == downOut[e.id].kind)
  }

  /**
   * The upstream slot of a successful round: the answer stored under
   * "upstream". A downstream node with that id is pushed after the upstream
   * fetch and so replaces its answer.
   */
  function RoundUpstream(upstreamConfigured: bool, upOut: FetchResult, downOut: map<string, FetchResult>): (slot: Option<u64>) {
    if UpstreamId in downOut then Observation(downOut[UpstreamId])
    else if upstreamConfigured then Observation(upOut)
    else None
  }

  /** The downstream answers of a successful round: every id except "upstream". */
  function RoundDownstream(downOut: map<string, FetchResult>): (slots: map<string, Option<u64>>) {
    map id | id in downOut && id != UpstreamId :: Observation(downOut[id])
  }

  /**
   * The requests of a round: the upstream one first when an upstream client
   * exists, then exactly one per downstream client, each tagged with its id
   * and the round's commitment.
   */
  ghost predicate IssuedFor(upstream: Option<Client>, nodes: map<string, Client>,
                            commitment: Option<CommitmentConfig>, issued: seq<Request>)
  {
    var off := if upstream.Some? then 1 else 0;
    |issued| == off + |nodes|
    && (upstream.Some? ==> issued[0] == Request(UpstreamId, upstream.value, commitment))
    && (forall i :: off <= i < |issued| ==>
          issued[i].id in nodes && issued[i] == Request(issued[i].id, nodes[issued[i].id], commitment))
    && (forall i, j :: off <= i < j < |issued| ==> issued[i].id != issued[j].id)
    && (forall id :: id in nodes ==> exists i :: off <= i < |issued| && issued[i].id == id)
  }

  /**
   * Awaiting the issued requests: each goes through `get_node_slot` with the
   * outcome of its endpoint's fetch (the upstream one for the first request
   * when an upstream client exists).
   */
  function Resolve(upstream: Option<Client>, upOut: FetchResult, downOut: map<string, FetchResult>,
                   issued: seq<Request>): (pending: seq<Result<(string, Option<u64>), SlotError>>)
    requires forall i :: (if upstream.Some? then 1 else 0) <= i < |issued| ==> issued[i].id in downOut
    ensures |pending| == |issued|
  {
    var off := if upstream.Some? then 1 else 0;
    seq(|issued|, i requires 0 <= i < |issued| =>
      GetNodeSlot(issued[i].id, if i < off then upOut else downOut[issued[i].id]))
  }

  /**
   * The request loop of `get_node_slots`: push the upstream request, if any,
   * then one per downstream client in the map's iteration order.
   */
  method IssueRequests(upstream: Option<Client>, nodes: map<string, Client>, commitment: Option<CommitmentConfig>)
    returns (issued: seq<Request>)
    ensures IssuedFor(upstream, nodes, commitment, issued)
  {
    var off := if upstream.Some? then 1 else 0;
    issued := [];
    if upstream.Some? {
      issued := [Request(UpstreamId, upstream.value, commitment)];
    }
    var todo := nodes.Keys;
    while todo != {}
      invariant todo <= nodes.Keys
      invariant |issued| == off + |nodes| - |todo| && off <= |issued|
      invariant upstream.Some? ==> issued[0] == Request(UpstreamId, upstream.value, commitment)
      invariant forall i :: off <= i < |issued| ==>
        issued[i].id in nodes && issued[i].id !in todo
        && issued[i] == Request(issued[i].id, nodes[issued[i].id], commitment)
      invariant forall i, j :: off <= i < j < |issued| ==> issued[i].id != issued[j].id
      invariant forall id :: id in nodes && id !in todo ==> exists i :: off <= i < |issued| && issued[i].id == id
      decreases todo
    {
      var id :| id in todo;
      ghost var before := issued;
      issued := issued + [Request(id, nodes[id], commitment)];
      todo := todo - {id};
      forall other | other in nodes && other !in todo
        ensures exists i :: off <= i < |issued| && issued[i].id == other
      {
        if other == id {
          assert issued[|issued| - 1].id == id;
        } else {
          var i :| off <= i < |before| && before[i].id == other;
          assert issued[i].id == other;
        }
      }
    }
  }

  /** A failed join carries the error of a request whose fetch failed fatally. */
  lemma JoinErrorIsFatal(
    upstream: Option<Client>, nodes: map<string, Client>, commitment: Option<CommitmentConfig>,
    upOut: FetchResult, downOut: map<string, FetchResult>, issued: seq<Request>)
    requires downOut.Keys == nodes.Keys
    requires IssuedFor(upstream, nodes, commitment, issued)
    requires TryJoinAll(Resolve(upstream, upOut, downOut, issued)).Err?
    ensures ErrorOfRound(upstream.Some?, upOut, downOut, TryJoinAll(Resolve(upstream, upOut, downOut, issued)).error)
  {
    var pending := Resolve(upstream, upOut, downOut, issued);
    var k :| 0 <= k < |pending| && pending[k] == Err(TryJoinAll(pending).error);
    assert k >= (if upstream.Some? then 1 else 0) ==> issued[k].id in downOut;
  }

  /** The join succeeds when no fetch of the round failed fatally. */
  lemma JoinSucceedsUnlessFatal(
    upstream: Option<Client>, nodes: map<string, Client>, commitment: Option<CommitmentConfig>,
    upOut: FetchResult, downOut: map<string, FetchResult>, issued: seq<Request>)
    requires downOut.Keys == nodes.Keys
    requires IssuedFor(upstream, nodes, commitment, issued)
    requires TryJoinAll(Resolve(upstream, upOut, downOut, issued)).Ok?
    ensures !RoundFails(upstream.Some?, upOut, downOut)
  {
    var off := if upstream.Some? then 1 else 0;
    var pending := Resolve(upstream, upOut, downOut, issued);
    forall id | id in downOut
      ensures !IsFatal(downOut[id])
    {
      var i :| off <= i < |issued| && issued[i].id == id;
      assert pending[i].Ok?;
    }
    assert upstream.Some? ==> pending[0].Ok?;
  }

  /**
   * The answers of a successful join: the upstream pair first when an upstream
   * client exists, then one pair per downstream id, each with its observation.
   */
  ghost predicate AnswersFor(upstreamConfigured: bool, upOut: FetchResult, downOut: map<string, FetchResult>,
                             pairs: seq<(string, Option<u64>)>)
  {
    var off := if upstreamConfigured then 1 else 0;
    off <= |pairs|
    && (upstreamConfigured ==> pairs[0] == (UpstreamId, Observation(upOut)))
    && (forall i :: off <= i < |pairs| ==> pairs[i].0 in downOut && pairs[i].1 == Observation(downOut[pairs[i].0]))
    && (forall i, j :: off <= i < j < |pairs| ==> pairs[i].0 != pairs[j].0)
    && (forall id :: id in downOut ==> exists i :: off <= i < |pairs| && pairs[i].0 == id)
  }

  /** The `i`-th answer of a successful join is the `i`-th request's id with its observation. */
  lemma JoinedAnswerAt(upstream: Option<Client>, upOut: FetchResult, downOut: map<string, FetchResult>,
                       issued: seq<Request>, i: nat)
    requires forall j :: (if upstream.Some? then 1 else 0) <= j < |issued| ==> issued[j].id in downOut
    requires TryJoinAll(Resolve(upstream, upOut, downOut, issued)).Ok?
    requires i < |issued|
    ensures var pairs := TryJoinAll(Resolve(upstream, upOut, downOut, issued)).value;
      |pairs| == |issued|
      && pairs[i] == (issued[i].id, Observation(if i < (if upstream.Some? then 1 else 0) then upOut else downOut[issued[i].id]))
  {
  }

  /** Answers that pair each request's id with its observation are the round's answers. */
  lemma AnswersOfRequests(
    upstream: Option<Client>, nodes: map<string, Client>, commitment: Option<CommitmentConfig>,
    upOut: FetchResult, downOut: map<string, FetchResult>, issued: seq<Request>, pairs: seq<(string, Option<u64>)>)
    requires downOut.Keys == nodes.Keys
    requires IssuedFor(upstream, nodes, commitment, issued)
    requires |pairs| == |issued|
    requires forall i :: 0 <= i < |pairs| ==>
      pairs[i] == (issued[i].id, Observation(if i < (if upstream.Some? then 1 else 0) then upOut else downOut[issued[i].id]))
    ensures AnswersFor(upstream.Some?, upOut, downOut, pairs)
  {
  }

  /** A successful join of the round's requests yields the round's answers. */
  lemma JoinedAnswers(
    upstream: Option<Client>, nodes: map<string, Client>, commitment: Option<CommitmentConfig>,
    upOut: FetchResult, downOut: map<string, FetchResult>, issued: seq<Request>)
    requires downOut.Keys == nodes.Keys
    requires IssuedFor(upstream, nodes, commitment, issued)
    requires TryJoinAll(Resolve(upstream, upOut, downOut, issued)).Ok?
    ensures AnswersFor(upstream.Some?, upOut, downOut, TryJoinAll(Resolve(upstream, upOut, downOut, issued)).value)
  {
    var off := if upstream.Some? then 1 else 0;
    var pairs := TryJoinAll(Resolve(upstream, upOut, downOut, issued)).value;
    forall i | 0 <= i < |pairs|
      ensures pairs[i] == (issued[i].id, Observation(if i < off then upOut else downOut[issued[i].id]))
    {
      JoinedAnswerAt(upstream, upOut, downOut, issued, i);
    }
    AnswersOfRequests(upstream, nodes, commitment, upOut, downOut, issued, pairs);
  }

  /** Each downstream id is carried by exactly one answer, so it keeps that answer's observation. */
  lemma CollectedDownstreamEntry(upstreamConfigured: bool, upOut: FetchResult, downOut: map<string, FetchResult>,
                                 pairs: seq<(string, Option<u64>)>, id: string)
    requires AnswersFor(upstreamConfigured, upOut, downOut, pairs)
    requires id in downOut
    ensures id in Collect(pairs) && Collect(pairs)[id] == Observation(downOut[id])
  {
    var off := if upstreamConfigured then 1 else 0;
    var i :| off <= i < |pairs| && pairs[i].0 == id;
    CollectLastWins(pairs, i);
  }

  /** Collecting the answers and taking "upstream" out gives the round's downstream map. */
  lemma CollectedDownstream(upstreamConfigured: bool, upOut: FetchResult, downOut: map<string, FetchResult>,
                            pairs: seq<(string, Option<u64>)>)
    requires AnswersFor(upstreamConfigured, upOut, downOut, pairs)
    ensures Collect(pairs) - {UpstreamId} == RoundDownstream(downOut)
  {
    var m := Collect(pairs);
    var rest, d := m - {UpstreamId}, RoundDownstream(downOut);
    forall id | id in d
      ensures id in rest && rest[id] == d[id]
    {
      CollectedDownstreamEntry(upstreamConfigured, upOut, downOut, pairs, id);
    }
    forall id | id in rest
      ensures id in d
    {
      var i :| 0 <= i < |pairs| && pairs[i].0 == id;
    }
    assert rest.Keys == d.Keys;
  }

  /**
   * The "upstream" entry of the collected answers is the round's upstream
   * slot; without such an entry there is none.
   */
  lemma CollectedUpstream(upstreamConfigured: bool, upOut: FetchResult, downOut: map<string, FetchResult>,
                          pairs: seq<(string, Option<u64>)>)
    requires AnswersFor(upstreamConfigured, upOut, downOut, pairs)
    ensures var m := Collect(pairs);
      (if UpstreamId in m then m[UpstreamId] else None) == RoundUpstream(upstreamConfigured, upOut, downOut)
  {
    if UpstreamId in downOut {
      CollectedDownstreamEntry(upstreamConfigured, upOut, downOut, pairs, UpstreamId);
    } else if upstreamConfigured {
      CollectLastWins(pairs, 0);
    }
  }

  /**
   * `get_node_slots`: issue one request for the upstream client, if any, and
   * one per downstream client; join them; collect the answers by id and take
   * the "upstream" entry out.
   */
  method GetNodeSlots(
    upstream: Option<Client>, nodes: map<string, Client>, commitment: Option<CommitmentConfig>,
    upOut: FetchResult, downOut: map<string, FetchResult>)
    returns (issued: seq<Request>, r: Result<(Option<u64>, map<string, Option<u64>>), SlotError>)
    requires downOut.Keys == nodes.Keys
    ensures |issued| == (if upstream.Some? then 1 else 0) + |nodes|
    ensures upstream.Some? ==> issued[0] == Request(UpstreamId, upstream.value, commitment)
    ensures forall i :: (if upstream.Some? then 1 else 0) <= i < |issued| ==>
      issued[i].id in nodes && issued[i] == Request(issued[i].id, nodes[issued[i].id], commitment)
    ensures forall i, j :: (if upstream.Some? then 1 else 0) <= i < j < |issued| ==> issued[i].id != issued[j].id
    ensures r.Err? <==> RoundFails(upstream.Some?, upOut, downOut)
    ensures r.Err? ==> ErrorOfRound(upstream.Some?, upOut, downOut, r.error)
    ensures r.Ok? ==> r.value == (RoundUpstream(upstream.Some?, upOut, downOut), RoundDownstream(downOut))
  {
    issued := IssueRequests(upstream, nodes, commitment);
    var joined := TryJoinAll(Resolve(upstream, upOut, downOut, issued));
    if joined.Err? {
      JoinErrorIsFatal(upstream, nodes, commitment, upOut, downOut, issued);
      return issued, Err(joined.error);
    }
    JoinSucceedsUnlessFatal(upstream, nodes, commitment, upOut, downOut, issued);
    JoinedAnswers(upstream, nodes, commitment, upOut, downOut, issued);
    CollectedDownstream(upstream.Some?, upOut, downOut, joined.value);
    CollectedUpstream(upstream.Some?, upOut, downOut, joined.value);
    var results := Collect(joined.value);
    var removed := if UpstreamId in results then Some(results[UpstreamId]) else None;
    results := results - {UpstreamId};
    var upstreamSlot := removed.UnwrapOr(None);
    r := Ok((upstreamSlot, results));
  }

  /** One more observed id changes the applied map only at that id. */
  lemma ApplyDownstreamExtend(before: map<string, u64>, observed: map<string, Option<u64>>, id: string, v: Option<u64>)
    ensures ApplyDownstream(before, observed[id := v]) ==
      match v
      case Some(slot) => ApplyDownstream(before, observed)[id := slot]
      case None => ApplyDownstream(before, observed) - {id}
  {
  }

  /**
   * The registry after one round (`update_slot_metrics`): unchanged when the
   * round fails; otherwise the upstream gauge takes the round's upstream slot
   * if both exist, and every downstream id of the round is set or removed.
   */
  function Step(g: Gauges, upstreamConfigured: bool, upOut: FetchResult, downOut: map<string, FetchResult>): (g': Gauges)
    ensures RoundFails(upstreamConfigured, upOut, downOut) ==> g' == g
    ensures g'.upstream.Some? == g.upstream.Some?
    ensures !RoundFails(upstreamConfigured, upOut, downOut) && g.upstream.Some?
            && RoundUpstream(upstreamConfigured, upOut, downOut).Some?
            ==> g'.upstream == RoundUpstream(upstreamConfigured, upOut, downOut)
    ensures RoundUpstream(upstreamConfigured, upOut, downOut).None? ==> g'.upstream == g.upstream
    ensures !RoundFails(upstreamConfigured, upOut, downOut) ==>
      forall id :: id in downOut && id != UpstreamId ==>
        (id in g'.downstream <==> downOut[id].Slot?)
        && (id in g'.downstream ==> g'.downstream[id] == downOut[id].slot)
    ensures forall id :: (id !in downOut || id == UpstreamId) ==>
      (id in g'.downstream <==> id in g.downstream)
      && (id in g'.downstream ==> g'.downstream[id] == g.downstream[id])
  {
    if RoundFails(upstreamConfigured, upOut, downOut) then g
    else
      Gauges(ApplyUpstream(g.upstream, RoundUpstream(upstreamConfigured, upOut, downOut)),
             ApplyDownstream(g.downstream, RoundDownstream(downOut)))
  }

  /**
   * `update_slot_metrics`: run a round and, unless it fails, write its
   * answers to the registry, the downstream ids in the map's iteration order.
   */
  method UpdateSlotMetrics(
    metrics: Registry, upstream: Option<Client>, nodes: map<string, Client>, commitment: Option<CommitmentConfig>,
    upOut: FetchResult, downOut: map<string, FetchResult>)
    returns (r: Result<(), SlotError>)
    requires downOut.Keys == nodes.Keys
    modifies metrics
    ensures r.Err? <==> RoundFails(upstream.Some?, upOut, downOut)
    ensures r.Err? ==> ErrorOfRound(upstream.Some?, upOut, downOut, r.error)
    ensures metrics.State() == Step(old(metrics.State()), upstream.Some?, upOut, downOut)
  {
    var issued, round := GetNodeSlots(upstream, nodes, commitment, upOut, downOut);
    if round.Err? {
      return Err(round.error);
    }
    ApplyRound(metrics, round.value.0, round.value.1);
    r := Ok(());
  }

  /**
   * The writes of `update_slot_metrics` after a successful round: the
   * upstream gauge, then each downstream id in the map's iteration order.
   */
  method ApplyRound(metrics: Registry, upstreamSlot: Option<u64>, downstreamSlots: map<string, Option<u64>>)
    modifies metrics
    ensures metrics.upstream == ApplyUpstream(old(metrics.upstream), upstreamSlot)
    ensures metrics.downstream == ApplyDownstream(old(metrics.downstream), downstreamSlots)
  {
    if upstreamSlot.Some? && metrics.upstream.Some? {
      metrics.SetUpstream(upstreamSlot.value);
    }
    ghost var before := metrics.downstream;
    var todo := downstreamSlots.Keys;
    while todo != {}
      invariant todo <= downstreamSlots.Keys
      invariant metrics.upstream == ApplyUpstream(old(metrics.upstream), upstreamSlot)
      invariant metrics.downstream == ApplyDownstream(before, downstreamSlots - todo)
      decreases todo
    {
      var id :| id in todo;
      ApplyDownstreamExtend(before, downstreamSlots - todo, id, downstreamSlots[id]);
      assert downstreamSlots - (todo - {id}) == (downstreamSlots - todo)[id := downstreamSlots[id]];
      match downstreamSlots[id] {
        case Some(slot) =>
          metrics.SetDownstream(id, slot);
        case None =>
          var _ := metrics.RemoveDownstream(id);
      }
      todo := todo - {id};
    }
    assert downstreamSlots - todo == downstreamSlots;
  }

  /** What the poller's loop reacts to: an interval tick with the round's fetch outcomes, or cancellation. */
  datatype Event = Tick(upOut: FetchResult, downOut: map<string, FetchResult>) | Cancel

  /** The registry after the poller has handled `events`: a round per tick, stopping at the first cancellation. */
  function Run(g: Gauges, upstreamConfigured: bool, events: seq<Event>): (g': Gauges)
    decreases |events|
  {
    if events == [] then g
    else
      match events[0]
      case Cancel => g
      case Tick(upOut, downOut) => Run(Step(g, upstreamConfigured, upOut, downOut), upstreamConfigured, events[1..])
  }

  /** The ticks whose round fails, in order, up to the first cancellation: each one logs an error. */
  function FailedTicks(upstreamConfigured: bool, events: seq<Event>): (failed: seq<Event>)
    ensures forall k :: 0 <= k < |failed| ==>
      failed[k].Tick? && RoundFails(upstreamConfigured, failed[k].upOut, failed[k].downOut)
    decreases |events|
  {
    if events == [] then []
    else
      match events[0]
      case Cancel => []
      case Tick(upOut, downOut) =>
        (if RoundFails(upstreamConfigured, upOut, downOut) then [events[0]] else [])
        + FailedTicks(upstreamConfigured, events[1..])
  }


  /** Every tick brings an outcome for each downstream client. */
  predicate TicksFor(nodes: map<string, Client>, events: seq<Event>) {
    forall i :: 0 <= i < |events| && events[i].Tick? ==> events[i].downOut.Keys == nodes.Keys
  }

  /** `logged` holds one error per round of `failed`, in order, each from a fetch of its round that failed fatally. */
  predicate LoggedFor(upstreamConfigured: bool, failed: seq<Event>, logged: seq<SlotError>)
    decreases |failed|
  {
    |logged| == |failed|
    && (failed != [] ==>
          failed[0].Tick? && ErrorOfRound(upstreamConfigured, failed[0].upOut, failed[0].downOut, logged[0])
          && LoggedFor(upstreamConfigured, failed[1..], logged[1..]))
  }

  /** `LoggedFor` read position by position: the k-th error comes from the k-th failed round. */
  lemma {:induction false} LoggedForAt(upstreamConfigured: bool, failed: seq<Event>, logged: seq<SlotError>, k: nat)
    requires LoggedFor(upstreamConfigured, failed, logged)
    requires k < |failed|
    ensures |logged| == |failed|
    ensures failed[k].Tick? && ErrorOfRound(upstreamConfigured, failed[k].upOut, failed[k].downOut, logged[k])
    decreases k
  {
    if k > 0 {
      LoggedForAt(upstreamConfigured, failed[1..], logged[1..], k - 1);
    }
  }

  /** Logging the error of one more failed round keeps the log in step with the failed rounds. */
  lemma {:induction false} LoggedForAppend(
    upstreamConfigured: bool, failed: seq<Event>, logged: seq<SlotError>, t: Event, e: SlotError)
    requires LoggedFor(upstreamConfigured, failed, logged)
    requires t.Tick? && ErrorOfRound(upstreamConfigured, t.upOut, t.downOut, e)
    ensures LoggedFor(upstreamConfigured, failed + [t], logged + [e])
    decreases |failed|
  {
    if failed != [] {
      assert (failed + [t])[1..] == failed[1..] + [t];
      assert (logged + [e])[1..] == logged[1..] + [e];
      LoggedForAppend(upstreamConfigured, failed[1..], logged[1..], t, e);
    }
  }

  /** What one event contributes to `Run`. */
  lemma RunAt(g: Gauges, upstreamConfigured: bool, events: seq<Event>, i: nat)
    requires i < |events|
    ensures events[i].Cancel? ==> Run(g, upstreamConfigured, events[i..]) == g
    ensures events[i].Tick? ==>
      Run(g, upstreamConfigured, events[i..])
        == Run(Step(g, upstreamConfigured, events[i].upOut, events[i].downOut), upstreamConfigured, events[i + 1..])
  {
    assert events[i..][1..] == events[i + 1..];
  }

  /** `failed` are the failing ticks before event `i`, and the rest come after it. */
  ghost predicate FailedBefore(upstreamConfigured: bool, events: seq<Event>, failed: seq<Event>, i: nat)
    requires i <= |events|
  {
    FailedTicks(upstreamConfigured, events) == failed + FailedTicks(upstreamConfigured, events[i..])
  }

  /** Event `i` extends the failing ticks before it when it is a failing tick, and ends them when it is a cancellation. */
  lemma FailedTicksAt(upstreamConfigured: bool, events: seq<Event>, failed: seq<Event>, i: nat)
    requires i < |events|
    requires FailedBefore(upstreamConfigured, events, failed, i)
    ensures events[i].Cancel? ==> FailedTicks(upstreamConfigured, events) == failed
    ensures events[i].Tick? ==>
      FailedBefore(upstreamConfigured, events,
        if RoundFails(upstreamConfigured, events[i].upOut, events[i].downOut) then failed + [events[i]] else failed,
        i + 1)
  {
    var rest := FailedTicks(upstreamConfigured, events[i + 1..]);
    assert events[i..][1..] == events[i + 1..];
    match events[i]
    case Cancel =>
      assert FailedTicks(upstreamConfigured, events) == failed by {
        assert failed + [] == failed;
      }
    case Tick(upOut, downOut) =>
      if RoundFails(upstreamConfigured, upOut, downOut) {
        assert FailedBefore(upstreamConfigured, events, failed + [events[i]], i + 1) by {
          assert FailedTicks(upstreamConfigured, events[i..]) == [events[i]] + rest;
          assert failed + ([events[i]] + rest) == (failed + [events[i]]) + rest;
        }
      } else {
        assert FailedBefore(upstreamConfigured, events, failed, i + 1) by {
          assert FailedTicks(upstreamConfigured, events[i..]) == [] + rest;
          assert [] + rest == rest;
        }
      }
  }

  /**
   * The poller's progress after the events before `i`: the registry `g` is on
   * its way to `Run`, `failed` are the failing ticks so far and `logged`
   * their errors.
   */
  ghost predicate Polled(
    g0: Gauges, g: Gauges, upstreamConfigured: bool, events: seq<Event>, i: nat,
    failed: seq<Event>, logged: seq<SlotError>)
    requires i <= |events|
  {
    Run(g0, upstreamConfigured, events) == Run(g, upstreamConfigured, events[i..])
    && FailedBefore(upstreamConfigured, events, failed, i)
    && LoggedFor(upstreamConfigured, failed, logged)
  }

  /**
   * One tick handled: the registry moves by `Step`, and a failing round adds
   * its tick to the failed ones and its error to the log.
   */
  lemma PollAdvance(
    g0: Gauges, g: Gauges, upstreamConfigured: bool, events: seq<Event>, i: nat,
    failed: seq<Event>, logged: seq<SlotError>, err: Option<SlotError>)
    requires i < |events| && events[i].Tick?
    requires Polled(g0, g, upstreamConfigured, events, i, failed, logged)
    requires err.Some? <==> RoundFails(upstreamConfigured, events[i].upOut, events[i].downOut)
    requires err.Some? ==> ErrorOfRound(upstreamConfigured, events[i].upOut, events[i].downOut, err.value)
    ensures var g' := Step(g, upstreamConfigured, events[i].upOut, events[i].downOut);
      if err.Some? then Polled(g0, g', upstreamConfigured, events, i + 1, failed + [events[i]], logged + [err.value])
      else Polled(g0, g', upstreamConfigured, events, i + 1, failed, logged)
  {
    RunAt(g, upstreamConfigured, events, i);
    FailedTicksAt(upstreamConfigured, events, failed, i);
    if err.Some? {
      LoggedForAppend(upstreamConfigured, failed, logged, events[i], err.value);
    }
  }

  /** Where the poller stops, it has handled all its events. */
  lemma PollDone(
    g0: Gauges, g: Gauges, upstreamConfigured: bool, events: seq<Event>, i: nat,
    failed: seq<Event>, logged: seq<SlotError>)
    requires i <= |events| && (i < |events| ==> events[i].Cancel?)
    requires Polled(g0, g, upstreamConfigured, events, i, failed, logged)
    ensures g == Run(g0, upstreamConfigured, events)
    ensures LoggedFor(upstreamConfigured, FailedTicks(upstreamConfigured, events), logged)
  {
    if i < |events| {
      RunAt(g, upstreamConfigured, events, i);
      FailedTicksAt(upstreamConfigured, events, failed, i);
    } else {
      assert events[i..] == [];
      assert failed + [] == failed;
    }
  }

  /** The body of the poller's loop for a tick: run the round and log its error. */
  method HandleTick(
    metrics: Registry, upstream: Option<Client>, nodes: map<string, Client>, commitment: Option<CommitmentConfig>,
    events: seq<Event>, i: nat, ghost g0: Gauges, ghost failed: seq<Event>, logged: seq<SlotError>)
    returns (logged': seq<SlotError>, ghost failed': seq<Event>)
    requires i < |events| && events[i].Tick? && events[i].downOut.Keys == nodes.Keys
    requires Polled(g0, metrics.State(), upstream.Some?, events, i, failed, logged)
    modifies metrics
    ensures Polled(g0, metrics.State(), upstream.Some?, events, i + 1, failed', logged')
    ensures metrics.State() == Step(old(metrics.State()), upstream.Some?, events[i].upOut, events[i].downOut)
    ensures RoundFails(upstream.Some?, events[i].upOut, events[i].downOut) ==>
      |logged'| == |logged| + 1 && logged'[..|logged|] == logged
      && ErrorOfRound(upstream.Some?, events[i].upOut, events[i].downOut, logged'[|logged|])
    ensures !RoundFails(upstream.Some?, events[i].upOut, events[i].downOut) ==> logged' == logged
  {
    ghost var g := metrics.State();
    var r := UpdateSlotMetrics(metrics, upstream, nodes, commitment, events[i].upOut, events[i].downOut);
    PollAdvance(g0, g, upstream.Some?, events, i, failed, logged, if r.Err? then Some(r.error) else None);
    if r.Err? {
      logged', failed' := logged + [r.error], failed + [events[i]];
    } else {
      logged', failed' := logged, failed;
    }
  }

  /**
   * `slot_poller`: on every tick run `update_slot_metrics`, log its error and
   * carry on; leave the loop on cancellation.
   */
  method Poll(
    metrics: Registry, upstream: Option<Client>, nodes: map<string, Client>, commitment: Option<CommitmentConfig>,
    events: seq<Event>)
    returns (logged: seq<SlotError>)
    requires TicksFor(nodes, events)
    modifies metrics
    ensures metrics.State() == Run(old(metrics.State()), upstream.Some?, events)
    ensures LoggedFor(upstream.Some?, FailedTicks(upstream.Some?, events), logged)
  {
    ghost var g0 := metrics.State();
    logged := [];
    ghost var failed: seq<Event> := [];
    var i := 0;
    while i < |events| && events[i].Tick?
      invariant 0 <= i <= |events|
      invariant Polled(g0, metrics.State(), upstream.Some?, events, i, failed, logged)
      decreases |events| - i
    {
      logged, failed := HandleTick(metrics, upstream, nodes, commitment, events, i, g0, failed, logged);
      i := i + 1;
    }
    PollDone(g0, metrics.State(), upstream.Some?, events, i, failed, logged);
  }

  /** The upstream gauge is never created or removed by the poller. */
  lemma {:induction false} RunKeepsUpstreamGauge(g: Gauges, upstreamConfigured: bool, events: seq<Event>)
    ensures Run(g, upstreamConfigured, events).upstream.Some? == g.upstream.Some?
    decreases |events|
  {
    if events != [] && events[0].Tick? {
      RunKeepsUpstreamGauge(Step(g, upstreamConfigured, events[0].upOut, events[0].downOut),
                            upstreamConfigured, events[1..]);
    }
  }

  /** Nothing after a cancellation reaches the registry. */
  lemma {:induction false} RunStopsAtCancel(g: Gauges, upstreamConfigured: bool, before: seq<Event>, after: seq<Event>)
    ensures Run(g, upstreamConfigured, before + [Cancel] + after) == Run(g, upstreamConfigured, before)
    decreases |before|
  {
    if before == [] {
      assert (before + [Cancel] + after)[0] == Cancel;
    } else {
      assert (before + [Cancel] + after)[1..] == before[1..] + [Cancel] + after;
      if before[0].Tick? {
        RunStopsAtCancel(Step(g, upstreamConfigured, before[0].upOut, before[0].downOut),
                         upstreamConfigured, before[1..], after);
      }
    }
  }

  /** Rounds run one after the other: handling `a + b` is handling `a`, then `b`. */
  lemma {:induction false} RunAppend(g: Gauges, upstreamConfigured: bool, a: seq<Event>, b: seq<Event>)
    requires forall i :: 0 <= i < |a| ==> a[i].Tick?
    ensures Run(g, upstreamConfigured, a + b) == Run(Run(g, upstreamConfigured, a), upstreamConfigured, b)
    decreases |a|
  {
    if a == [] {
      assert a + b == b;
    } else {
      assert (a + b)[0] == a[0] && (a + b)[1..] == a[1..] + b;
      RunAppend(Step(g, upstreamConfigured, a[0].upOut, a[0].downOut), upstreamConfigured, a[1..], b);
    }
  }

  /** Rounds that fail leave the registry as it was. */
  lemma {:induction false} FailedRoundsChangeNothing(g: Gauges, upstreamConfigured: bool, events: seq<Event>)
    requires forall i :: 0 <= i < |events| ==>
      events[i].Tick? && RoundFails(upstreamConfigured, events[i].upOut, events[i].downOut)
    ensures Run(g, upstreamConfigured, events) == g
    decreases |events|
  {
    if events != [] {
      FailedRoundsChangeNothing(g, upstreamConfigured, events[1..]);
    }
  }

  /** Handling ticks up to and including a successful round `k`, then only failing rounds. */
  lemma LastSuccessfulRound(g: Gauges, upstreamConfigured: bool, events: seq<Event>, k: nat)
    requires k < |events|
    requires forall i :: 0 <= i < |events| ==> events[i].Tick?
    requires forall i :: k < i < |events| ==> RoundFails(upstreamConfigured, events[i].upOut, events[i].downOut)
    ensures Run(g, upstreamConfigured, events) ==
      Step(Run(g, upstreamConfigured, events[..k]), upstreamConfigured, events[k].upOut, events[k].downOut)
  {
    assert events == events[..k] + events[k..];
    RunAppend(g, upstreamConfigured, events[..k], events[k..]);
    var mid := Step(Run(g, upstreamConfigured, events[..k]), upstreamConfigured, events[k].upOut, events[k].downOut);
    FailedRoundsChangeNothing(mid, upstreamConfigured, events[k + 1..]);
  }

  /**
   * A downstream node has a gauge exactly when its answer in the latest
   * successful round was a slot, and then the gauge holds that slot: a node
   * that stops answering is retracted rather than frozen.
   */
  lemma LatestRoundDecidesDownstream(g: Gauges, upstreamConfigured: bool, events: seq<Event>, k: nat, id: string)
    requires k < |events|
    requires forall i :: 0 <= i < |events| ==> events[i].Tick?
    requires !RoundFails(upstreamConfigured, events[k].upOut, events[k].downOut)
    requires forall i :: k < i < |events| ==> RoundFails(upstreamConfigured, events[i].upOut, events[i].downOut)
    requires id in events[k].downOut && id != UpstreamId
    ensures var after := Run(g, upstreamConfigured, events).downstream;
      (id in after <==> events[k].downOut[id].Slot?)
      && (id in after ==> after[id] == events[k].downOut[id].slot)
  {
    LastSuccessfulRound(g, upstreamConfigured, events, k);
  }

  /**
   * The upstream gauge holds the upstream slot of the latest successful round
   * that had one: rounds without an upstream slot leave it stale.
   */
  lemma {:induction false} LatestUpstreamSlotStays(g: Gauges, upstreamConfigured: bool, events: seq<Event>, k: nat)
    requires g.upstream.Some?
    requires k < |events|
    requires forall i :: 0 <= i < |events| ==> events[i].Tick?
    requires !RoundFails(upstreamConfigured, events[k].upOut, events[k].downOut)
    requires RoundUpstream(upstreamConfigured, events[k].upOut, events[k].downOut).Some?
    requires forall i :: k < i < |events| ==>
      RoundFails(upstreamConfigured, events[i].upOut, events[i].downOut)
      || RoundUpstream(upstreamConfigured, events[i].upOut, events[i].downOut).None?
    ensures Run(g, upstreamConfigured, events).upstream == RoundUpstream(upstreamConfigured, events[k].upOut, events[k].downOut)
    decreases |events|
  {
    var n := |events| - 1;
    var e := events[n];
    assert events == events[..n] + [e];
    RunAppend(g, upstreamConfigured, events[..n], [e]);
    var mid := Run(g, upstreamConfigured, events[..n]);
    RunKeepsUpstreamGauge(g, upstreamConfigured, events[..n]);
    assert Run(g, upstreamConfigured, events) == Step(mid, upstreamConfigured, e.upOut, e.downOut);
    if k < n {
      LatestUpstreamSlotStays(g, upstreamConfigured, events[..n], k);
    }
  }

  /**
   * A downstream node whose id is "upstream" is absorbed into the upstream
   * slot: it never gets a downstream gauge of its own.
   */
  lemma {:induction false} UpstreamIdNeverDownstream(g: Gauges, upstreamConfigured: bool, events: seq<Event>)
    requires UpstreamId !in g.downstream
    ensures UpstreamId !in Run(g, upstreamConfigured, events).downstream
    decreases |events|
  {
    if events != [] && events[0].Tick? {
      UpstreamIdNeverDownstream(Step(g, upstreamConfigured, events[0].upOut, events[0].downOut),
                                upstreamConfigured, events[1..]);
    }
  }
}
