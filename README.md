# solana-monitor slot poller, modelled in Dafny

solana-monitor polls the current slot (block height) of one upstream Solana
RPC node and any number of downstream nodes. It exposes the latest values as
Prometheus gauges. This project models the part that decides what those
gauges hold:

- **Startup** (`Startup`): validates the parsed command line. It derives the
  request timeout, the optional upstream client and the downstream client map.
- **`id=url` pairs** (`IdUrl`): how a downstream argument is split into an id
  and a URI, and how it is rendered back.
- **The round engine** (`SlotPoller`):
  - each fetch outcome is classified as a slot, a transient "no answer" or a
    fatal error;
  - all requests are joined, all-or-error;
  - the answers are collected by id and the `"upstream"` entry is taken out;
  - the result is applied to the registry (`Metrics.Registry`);
  - the poller loop runs a round per tick until cancelled.
- **`HashMap` construction** (`Maps`): building a map from pairs, later pairs
  winning. Both `collect()` in the poller and the insert loop at startup work
  this way.

The network is not modelled. A round takes the outcome of the upstream fetch
and of each downstream client's fetch as inputs. The poller takes a sequence
of `Tick(outcomes)` / `Cancel` events. Rust's `HashMap` iterates in an
unspecified order. The methods model this by picking the next key
arbitrarily (`:|`), so their contracts hold for every iteration order.

Properties proved include:

- a downstream node has a gauge exactly when its answer in the latest
  successful round was a slot;
- a round with a fatal error changes nothing;
- the upstream gauge is never created or removed, and keeps a stale value
  when a round has no upstream slot;
- a downstream node whose id is `"upstream"` is absorbed into the upstream
  slot and never gets a downstream gauge;
- a round issues one request per downstream client, plus one for the
  upstream client when it exists;
- parsing an `id=url` pair splits at the first `=`, the `"missing id"` error
  cannot occur, and parse and render are inverse on well-formed pairs;
- startup rejects a configuration exactly when upstream tracking is disabled
  and no downstream node is given.

Two consequences of the code are worth stating, because they are easy to
miss:

- Nothing rejects a downstream id `"upstream"` (`src/main.rs:77-81`). A
  downstream node with that id replaces the upstream answer
  (`src/task/slot_poller.rs:116-118`) and never gets a downstream gauge. This
  is proved as `SlotPoller.CollectedUpstream` and
  `SlotPoller.UpstreamIdNeverDownstream`.
- Nothing rejects duplicate downstream ids (`src/main.rs:94-99`). The last
  pair with an id decides its client (`Startup.DownstreamClientMap`).

The code is also inconsistent with itself in one place. `src/metrics.rs`
defines global `f64` gauges and no `Metrics` type, while the poller and
`main` use a `Metrics` value with an optional upstream gauge and a `u64`
gauge vector (`src/task/slot_poller.rs:132-146`, `src/main.rs:83`,
`src/prom_u64.rs:3-4`). The registry is modelled from that use, with `u64`
values.

## Model

| member | source | states |
|---|---|---|
| `Rpc.FinalizedConfig` | src/solana_rpc.rs:34-36 | The commitment passed to every request is `Some` with level `Finalized`. |
| `IdUrl.FirstIndex` | src/id_url.rs:14 | Finds the first `=`: none exactly when the text has no `=`; otherwise an index holding `=` with no `=` before it. |
| `IdUrl.SplitN2` | src/id_url.rs:14 | `splitn(2, '=')` always yields a first piece. A second piece exists exactly when `=` occurs. The first piece has no `=`, and `first + "=" + second` is the input. |
| `IdUrl.FromStr` | src/id_url.rs:13-20 | Never fails with "missing id". Fails with "missing uri" exactly when there is no `=`. On success the id is the `=`-free text before the first `=`, and the URI is the parse of the text after it. |
| `IdUrl.FirstIndexAfterPrefix` | src/id_url.rs:14 | In `id + "=" + t` with an `=`-free id, the first `=` is at position `|id|`. |
| `IdUrl.SplitAtFirstEquals` | src/id_url.rs:14-19 | `id + "=" + t` with an `=`-free id parses to that id and the parse of `t`, even when `t` contains `=`. It fails with "invalid uri" when `t` does not parse. |
| `IdUrl.EmptyIdAccepted` | src/id_url.rs:14-16 | `"=" + t` parses with the empty id. |
| `IdUrl.Render` | src/id_url.rs:23-26 | The rendering is the id, one `=`, then the URI's display text. When the id has no `=`, that `=` is the first one of the rendering. |
| `IdUrl.RenderAfterParse` | src/id_url.rs:14-26 | Rendering a parsed pair returns the input when the URI displays its text unchanged. |
| `IdUrl.ParseAfterRender` | src/id_url.rs:14-26 | Parsing the rendering `id=uri` of a pair with an `=`-free id returns the pair. |
| `Maps.Collect` | src/task/slot_poller.rs:116-117 | A key is in the collected map exactly when some pair carries it. |
| `Maps.CollectLastWins` | src/task/slot_poller.rs:116-117 | A key maps to the value of the last pair that carries it. |
| `Maps.CollectSize` | src/main.rs:94-99 | The map has no more entries than there are pairs. |
| `Metrics.ApplyDownstream` | src/task/slot_poller.rs:142-148 | After a round, an id answered with a slot holds it, an id answered with `None` is absent, and ids outside the round keep their value. |
| `Metrics.ApplyUpstream` | src/task/slot_poller.rs:138-140 | The upstream gauge is overwritten only when it exists and the slot is `Some`. Otherwise it keeps its value. It is never created or removed. |
| `Metrics.Registry.constructor` | src/main.rs:83 | The upstream gauge exists (at 0) exactly when upstream tracking is enabled. No downstream series exist. |
| `Metrics.Registry.SetUpstream` | src/task/slot_poller.rs:139 | Sets the upstream gauge. Nothing else changes. |
| `Metrics.Registry.SetDownstream` | src/task/slot_poller.rs:144 | Sets (or creates) the series for `id`. Nothing else changes. |
| `Metrics.Registry.RemoveDownstream` | src/task/slot_poller.rs:146 | Removes the series for `id` if present. It reports whether one was removed; removing an absent series changes nothing. |
| `SlotPoller.GetNodeSlot` | src/task/slot_poller.rs:71-95 | A slot yields `Ok((id, Some(slot)))`. The seven transient failures yield `Ok((id, None))` and never an error. Any other failure yields `Err(SlotError)` with the same id. |
| `SlotPoller.TryJoinAll` | src/task/slot_poller.rs:116-117 | The join succeeds exactly when every request succeeded, and then holds every value in order. Otherwise it returns one of the requests' errors. |
| `SlotPoller.IssueRequests` | src/task/slot_poller.rs:102-114 | Exactly one request per downstream client, with distinct ids, plus the upstream request first when an upstream client exists. All carry the round's commitment. |
| `SlotPoller.JoinErrorIsFatal` | src/task/slot_poller.rs:93 | A failed join carries the id and kind of a fetch that failed fatally. |
| `SlotPoller.JoinSucceedsUnlessFatal` | src/task/slot_poller.rs:116-117 | A successful join means no fetch of the round failed fatally. |
| `SlotPoller.JoinedAnswers` | src/task/slot_poller.rs:112-117 | A successful join pairs each request's id with its observation: the upstream pair first, then one pair per downstream id. |
| `SlotPoller.CollectedDownstream` | src/task/slot_poller.rs:116-120 | The collected map without `"upstream"` is exactly the downstream answers of every id except `"upstream"`. |
| `SlotPoller.CollectedUpstream` | src/task/slot_poller.rs:116-118 | The `"upstream"` entry is the downstream node `"upstream"`'s answer when that node exists, else the upstream fetch's answer when configured, else `None`. |
| `SlotPoller.GetNodeSlots` | src/task/slot_poller.rs:97-121 | Issues `(1 if upstream else 0) + |nodes|` requests. Fails exactly when some issued fetch fails fatally. Otherwise returns the round's upstream slot and downstream map, for every iteration order. |
| `SlotPoller.ApplyDownstreamExtend` | src/task/slot_poller.rs:142-148 | Applying one more downstream answer changes the result only at that id, so the order of the writes does not matter. |
| `SlotPoller.Step` | src/task/slot_poller.rs:123-151 | A failing round leaves the registry unchanged. A successful one sets or removes each downstream id of the round exactly by its answer, and touches no other id. The upstream gauge changes only to a `Some` slot and is never removed. |
| `SlotPoller.ApplyRound` | src/task/slot_poller.rs:138-148 | The writes after a successful round leave the upstream gauge as `ApplyUpstream` and the downstream series as `ApplyDownstream` say, in any iteration order. |
| `SlotPoller.UpdateSlotMetrics` | src/task/slot_poller.rs:123-151 | Returns an error exactly when the round fails, and that error is the id and kind of a fetch that failed fatally. The new registry state is `Step` of the old one. |
| `SlotPoller.HandleTick` | src/task/slot_poller.rs:55-63 | The new registry state is `Step` of the old one for the tick's round. A failing round appends exactly one entry to the log, the id and kind of a fetch that failed fatally, and keeps the earlier entries. A successful round leaves the log as it was. The poller's progress towards `Run` and the failed rounds is kept. |
| `SlotPoller.LoggedForAt` | src/task/slot_poller.rs:56-63 | In a log kept in step with the failed rounds, the k-th error is the id and kind of a fetch that failed fatally in the k-th failed round. |
| `SlotPoller.Poll` | src/task/slot_poller.rs:41-69 | The registry ends as `Run` of the events: a round per tick, stopping at the first cancellation. One error is logged per failed round, in order: the k-th logged error is the id and kind of a fetch that failed fatally in the k-th failed round. The loop carries on after a failed round. |
| `SlotPoller.RunKeepsUpstreamGauge` | src/task/slot_poller.rs:138-140 | No sequence of rounds creates or removes the upstream gauge. |
| `SlotPoller.RunStopsAtCancel` | src/task/slot_poller.rs:52-54 | Events after a cancellation do not reach the registry. |
| `SlotPoller.RunAppend` | src/task/slot_poller.rs:52-66 | Rounds are applied one after another. |
| `SlotPoller.FailedRoundsChangeNothing` | src/task/slot_poller.rs:56-63 | Any number of failed rounds leave the registry as it was. |
| `SlotPoller.LastSuccessfulRound` | src/task/slot_poller.rs:52-66 | The final registry is the latest successful round applied to the state before it. |
| `SlotPoller.LatestRoundDecidesDownstream` | src/task/slot_poller.rs:142-148 | A downstream id other than `"upstream"` has a gauge exactly when its answer in the latest successful round was a slot, and the gauge holds that slot. |
| `SlotPoller.LatestUpstreamSlotStays` | src/task/slot_poller.rs:138-140 | The upstream gauge holds the upstream slot of the latest successful round that had one. Later rounds without an upstream slot leave it stale. |
| `SlotPoller.UpstreamIdNeverDownstream` | src/task/slot_poller.rs:116-118 | The id `"upstream"` never gets a downstream gauge. |
| `Startup.RequestTimeout` | src/main.rs:87 | The request timeout is half the poll interval, truncated. |
| `Startup.BuildDownstreamClients` | src/main.rs:94-99 | The insert loop builds the map that collecting the pairs gives. Its keys are the listed ids; it has at most one entry per pair; each id maps to the client of its last pair. |
| `Startup.DownstreamClientMap` | src/main.rs:94-99 | The collected client map has exactly the listed ids as keys and at most as many entries as pairs. Each id maps to the URL of its last pair with the derived timeout. |
| `Startup.Prepare` | src/main.rs:77-105 | Rejects with exit status 1 exactly when upstream is disabled and no downstream node is given. Otherwise the upstream gauge and the upstream client both exist exactly when upstream is enabled. The timeout is derived, the downstream client map is built last-wins, and the commitment is `Finalized`. At least one endpoint is configured. |

## Left out

- The metrics HTTP server (`src/task/metrics_server.rs`), `serve_metrics` and the Prometheus text encoding: network I/O and a library encoder. Only the registry's state is modelled.
- The JSON-RPC client (`src/solana_rpc.rs`): it is network I/O. Each fetch's classified outcome is an input of the round.
- Tokio timing and concurrency: the interval and its skip-missed-ticks policy, `select!`, the cancellation token, `JoinSet`, `ctrl_c`, and the parallel, early-aborting `try_join_all`. Rounds are a sequential sequence of events, and the join is a sequential all-or-error fold.
- Logging and tracing, and `SlotError`'s `Display` text. The only logging modelled is the error logged for each failed round, as the output of `Poll`.
- Command-line parsing (clap and environment), the listen address, the network-id label and the user agent. The parsed fields startup reads are the inputs of `Startup.Prepare`. Durations are whole nanoseconds.
- URI syntax: parsing is a parameter of `IdUrl.FromStr`, and a `Uri` is represented by its display text.
- `Metrics::new` is not defined in `src/metrics.rs`. The constructor assumes the upstream gauge starts at 0, as a new Prometheus gauge does.
- Error predicates: a client error for which several of `is_redirect` … `is_decode` hold is represented by one of them. Any one of them makes the error transient.
- `SlotPoller.GetNodeSlots`: when several fetches fail fatally, the model does not say which error is returned. The program returns whichever fails first in time, which depends on timing.
- What happens after the poller is spawned in `main` (`src/main.rs:106-133`): spawning the tasks, waiting for the interrupt signal and joining the tasks are concurrency and I/O.
