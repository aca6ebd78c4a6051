/**
 * One export run of the helper, modelled sequentially: the block fetchers run
 * one after the other, then the text streamers, then the handler callers, as
 * one interleaving of the original worker threads, which the program can run
 * only while no queue fills up. The remote
 * service and the consumer's handler are parameters; the handler's calls
 * are recorded in an event log.
 */
module ExportRun {
  import opened Wrappers
  import opened Records

  /** Capacities of the standard, stream and open-stream queues (blocking on them is not modelled). */
  const StandardQueueCapacity: nat := 2000
  const StreamQueueCapacity: nat := 2000
  const OpenStreamQueueCapacity: nat := 10

  const ProxyFailedMessage: string := "GetKeplerServiceFactory().CreateProxy failed"
  const InitFailedMessage: string := "InitializeExportAsync failed"
  const UnexpectedMessage: string := "Unexpected exception"
  const FetchFailedMessage: string := "RetrieveNextResultsBlockFromExportAsync failed"
  const StreamFailedMessage: string := "StreamLongTextAsync failed"
  const ItemThrewMessage: string := "Exception during IExportApiHandler's Item method"

  /** What the service returns when the export is initialised. */
  datatype InitResults = InitResults(runId: int, recordCount: int, fieldTypes: seq<FieldType>)

  /** The answer to one "retrieve next results block" call: a block (possibly empty), null, or a failure. */
  datatype FetchResult = Block(records: seq<Record>) | NoBlock | FetchFailed

  /**
   * The remote service: whether creating the proxy fails, what initialisation
   * returns (None when it throws), the answers to the successive block calls
   * (calls past the end answer null), and which (artifact, field index) stream
   * openings fail.
   */
  datatype Service = Service(
    proxyFails: bool,
    init: Option<InitResults>,
    blocks: seq<FetchResult>,
    streamFails: (int, nat) -> bool)

  /** What the handler's Item method does: return true, return false, or throw. */
  datatype ItemOutcome = Continue | Stop | Throws

  /** The consumer's handler: whether Before throws, whether it is thread safe, and its Item behaviour. */
  datatype Handler = Handler(beforeThrows: bool, threadSafe: bool, item: Record -> ItemOutcome)

  /** A call the run makes on the consumer's handler. */
  datatype Event =
    | BeforeCalled(results: InitResults)
    | ItemCalled(record: Record)
    | ErrorCalled(message: string)
    | AfterCalled(complete: bool)

  /** The orchestration steps of a run, in the order the run performs them. */
  datatype Phase =
    | WorkersStarted(fetchers: nat, streamers: nat, handlerCallers: nat)
    | FetchersJoined
    | InputQueuesCompleted
    | StreamersJoined
    | OpenStreamQueueCompleted
    | HandlerCallersJoined

  /**
   * The steps that follow the start of the workers, whether or not any were
   * started: the fetchers are joined and the queues they feed completed, the
   * streamers are joined and the queue they feed completed, the handler
   * callers are joined.
   */
  const FetchSteps: seq<Phase> := [FetchersJoined, InputQueuesCompleted]
  const StreamSteps: seq<Phase> := [StreamersJoined, OpenStreamQueueCompleted]
  const CallSteps: seq<Phase> := [HandlerCallersJoined]

  /** Item is called from every worker thread only when the handler declares itself thread safe. */
  function HandlerCallerCount(scaleFactor: nat, threadSafe: bool): nat {
    if threadSafe then scaleFactor else 1
  }

  // ---------------------------------------------------------------------
  // The single-shot error controller
  // ---------------------------------------------------------------------

  /** The controller's state: whether cancellation was requested, and the messages passed to Error. */
  datatype Control = Control(cancelled: bool, errors: seq<string>)

  /** A request to the controller: report an error and cancel, or cancel (Item returned false). */
  datatype Signal = Report(message: string) | Cancel

  /** Error is called only when cancellation has not been requested yet; either way cancellation follows. */
  function Step(c: Control, s: Signal): Control {
    match s
    case Report(m) => if c.cancelled then c else Control(true, c.errors + [m])
    case Cancel => c.(cancelled := true)
  }

  function Replay(c: Control, signals: seq<Signal>): Control {
    if signals == [] then c
    else Step(Replay(c, signals[..|signals| - 1]), signals[|signals| - 1])
  }

  /**
   * Whatever the workers signal, and in whatever order: the first signal
   * alone decides the error report. Error fires at most once, only when the
   * first signal is a report, and never when the first is a plain stop.
   */
  lemma {:induction false} FirstSignalDecides(signals: seq<Signal>)
    ensures Replay(Control(false, []), signals) ==
      Control(signals != [], if signals != [] && signals[0].Report? then [signals[0].message] else [])
  {
    if signals != [] {
      var n := |signals| - 1;
      if n > 0 {
        FirstSignalDecides(signals[..n]);
        assert signals[..n][0] == signals[0];
      }
    }
  }

  // ---------------------------------------------------------------------
  // The event log
  // ---------------------------------------------------------------------

  /** The messages of the Error calls in a log, in order. */
  function Errors(log: seq<Event>): seq<string> {
    if log == [] then []
    else
      var n := |log| - 1;
      Errors(log[..n]) + (if log[n].ErrorCalled? then [log[n].message] else [])
  }

  /** The artifact ids of the records passed to Item, in order. */
  function Delivered(log: seq<Event>): seq<int> {
    if log == [] then []
    else
      var n := |log| - 1;
      Delivered(log[..n]) + (if log[n].ItemCalled? then [log[n].record.artifactId] else [])
  }

  /** The Item calls for a sequence of records. */
  function ItemEvents(rs: seq<Record>): (events: seq<Event>)
    ensures |events| == |rs|
    ensures forall j :: 0 <= j < |rs| ==> events[j] == ItemCalled(rs[j])
  {
    if rs == [] then [] else ItemEvents(rs[..|rs| - 1]) + [ItemCalled(rs[|rs| - 1])]
  }

  /** Events that may occur between Before and After. */
  predicate MidRun(events: seq<Event>) {
    forall k :: 0 <= k < |events| ==> events[k].ItemCalled? || events[k].ErrorCalled?
  }

  lemma ErrorsAppend(log: seq<Event>, e: Event)
    ensures Errors(log + [e]) == Errors(log) + (if e.ErrorCalled? then [e.message] else [])
    ensures Delivered(log + [e]) == Delivered(log) + (if e.ItemCalled? then [e.record.artifactId] else [])
  {
    assert (log + [e])[..|log|] == log;
  }

  // ---------------------------------------------------------------------
  // Queues
  // ---------------------------------------------------------------------

  /** The artifact ids of a queue's records, in queue order. */
  function IdsOf(q: seq<Record>): (ids: seq<int>)
    ensures |ids| == |q| && forall j :: 0 <= j < |q| ==> ids[j] == q[j].artifactId
  {
    seq(|q|, j requires 0 <= j < |q| => q[j].artifactId)
  }

  lemma IdsOfAppend(a: seq<Record>, b: seq<Record>)
    ensures IdsOf(a + b) == IdsOf(a) + IdsOf(b)
  {
  }

  lemma IdsOfFront(q: seq<Record>)
    requires q != []
    ensures multiset(IdsOf(q)) == multiset{q[0].artifactId} + multiset(IdsOf(q[1..]))
  {
    assert IdsOf(q) == [q[0].artifactId] + IdsOf(q[1..]);
  }

  /** The handles of the streams held by the records of a queue. */
  function QueueStreams(q: seq<Record>, ids: seq<nat>): set<Handle> {
    if q == [] then {} else StreamsAt(q[0].values, ids) + QueueStreams(q[1..], ids)
  }

  /** No two records of the queue hold the same stream. */
  predicate Disjoint(q: seq<Record>, ids: seq<nat>) {
    q == [] || (StreamsAt(q[0].values, ids) !! QueueStreams(q[1..], ids) && Disjoint(q[1..], ids))
  }

  lemma {:induction false} QueueAppend(q: seq<Record>, r: Record, ids: seq<nat>)
    ensures QueueStreams(q + [r], ids) == QueueStreams(q, ids) + StreamsAt(r.values, ids)
    ensures Disjoint(q, ids) && QueueStreams(q, ids) !! StreamsAt(r.values, ids) ==> Disjoint(q + [r], ids)
  {
    if q != [] {
      assert (q + [r])[1..] == q[1..] + [r];
      QueueAppend(q[1..], r, ids);
    }
  }

  /** The records of the stream queue once their streams are opened, handles numbered from `next` on. */
  function OpenQueue(q: seq<Record>, ids: seq<nat>, next: Handle): seq<Record>
    requires forall r :: r in q ==> InRange(ids, |r.values|)
  {
    if q == [] then []
    else
      var n := |q| - 1;
      OpenQueue(q[..n], ids, next) + [Record(q[n].artifactId, OpenAll(q[n].values, ids, QueueNext(q[..n], ids, next)).0)]
  }

  /** The first handle left unused once the streams of every record of `q` are opened, from `next` on. */
  function QueueNext(q: seq<Record>, ids: seq<nat>, next: Handle): Handle
    requires forall r :: r in q ==> InRange(ids, |r.values|)
  {
    if q == [] then next
    else
      var n := |q| - 1;
      OpenAll(q[n].values, ids, QueueNext(q[..n], ids, next)).1
  }

  /** One step of the stream replacement, at position k of the long-text positions. */
  lemma OpenAllStep(values: seq<Value>, ids: seq<nat>, k: nat, next: Handle)
    requires InRange(ids, |values|) && k < |ids|
    ensures OpenAll(values, ids[k..], next) ==
      if IsSentinel(values[ids[k]]) then OpenAll(values[ids[k] := Stream(next)], ids[k + 1..], next + 1)
      else OpenAll(values, ids[k + 1..], next)
  {
    assert ids[k..][0] == ids[k] && ids[k..][1..] == ids[k + 1..];
  }

  /** Opening the streams of the record fails at some sentinel position. */
  predicate OpensFail(r: Record, ids: seq<nat>, streamFails: (int, nat) -> bool) {
    exists k :: 0 <= k < |ids| && ids[k] < |r.values| && IsSentinel(r.values[ids[k]]) && streamFails(r.artifactId, ids[k])
  }

  /**
   * The inner scan of a text streamer: open a stream for every sentinel at a
   * long-text position, in position order, numbering the streams from `next0`,
   * until an opening fails. The record is returned with the streams opened so
   * far in place, and `next` is the first number not used.
   */
  method OpenStreams(r: Record, ids: seq<nat>, streamFails: (int, nat) -> bool, next0: Handle)
    returns (ok: bool, streamed: Record, next: Handle)
    requires InRange(ids, |r.values|) && Ascending(ids) && NoStreams(r.values, ids)
    ensures ok <==> !OpensFail(r, ids, streamFails)
    ensures ok ==> (streamed.values, next) == OpenAll(r.values, ids, next0)
    ensures streamed.artifactId == r.artifactId && |streamed.values| == |r.values|
    ensures next0 <= next
    ensures StreamsAt(streamed.values, ids) == Range(next0, next)
    ensures !ok ==> next == FailNext(r, ids, streamFails, next0)
  {
    var values := r.values;
    next := next0;
    ok := true;
    var k := 0;
    NoStreamsEmpty(values, ids);
    while ok && k < |ids|
      invariant 0 <= k <= |ids| && |values| == |r.values|
      invariant ok ==> OpenAll(values, ids[k..], next) == OpenAll(r.values, ids, next0)
      invariant forall j :: k <= j < |ids| ==> values[ids[j]] == r.values[ids[j]]
      invariant forall j :: 0 <= j < k ==> !(IsSentinel(r.values[ids[j]]) && streamFails(r.artifactId, ids[j]))
      invariant !ok ==> k < |ids| && IsSentinel(r.values[ids[k]]) && streamFails(r.artifactId, ids[k])
      invariant next0 <= next
      invariant StreamsAt(values, ids) == Range(next0, next)
      invariant FailNext(r, ids, streamFails, next0) == FailNext(r, ids[k..], streamFails, next)
      decreases |ids| - k, ok
    {
      var index := ids[k];
      OpenAllStep(values, ids, k, next);
      FailNextStep(r, ids, streamFails, k, next);
      if IsSentinel(values[index]) && streamFails(r.artifactId, index) {
        ok := false;
      } else {
        if IsSentinel(values[index]) {
          StreamsAtPlace(values, ids, k, next);
          RangeStep(next0, next);
          values := values[index := Stream(next)];
          next := next + 1;
        }
        k := k + 1;
      }
    }
    if ok {
      assert ids[k..] == [];
    } else {
      assert OpensFail(r, ids, streamFails);
    }
    streamed := Record(r.artifactId, values);
  }

  /** Opening streams keeps every record's artifact id, in queue order. */
  lemma {:induction false} OpenQueueIds(q: seq<Record>, ids: seq<nat>, next: Handle)
    requires forall r :: r in q ==> InRange(ids, |r.values|)
    ensures IdsOf(OpenQueue(q, ids, next)) == IdsOf(q)
  {
    if q != [] {
      var n := |q| - 1;
      var p := Record(q[n].artifactId, OpenAll(q[n].values, ids, QueueNext(q[..n], ids, next)).0);
      OpenQueueIds(q[..n], ids, next);
      IdsOfAppend(OpenQueue(q[..n], ids, next), [p]);
      IdsOfAppend(q[..n], [q[n]]);
      assert q == q[..n] + [q[n]];
    }
  }

  /** The position in `q` of the first record whose stream opening fails, or |q| when there is none. */
  function FirstFailing(q: seq<Record>, ids: seq<nat>, streamFails: (int, nat) -> bool): (k: nat)
    ensures k <= |q| && (k < |q| ==> OpensFail(q[k], ids, streamFails))
    ensures forall j :: 0 <= j < k ==> !OpensFail(q[j], ids, streamFails)
  {
    if q == [] || OpensFail(q[0], ids, streamFails) then 0
    else 1 + FirstFailing(q[1..], ids, streamFails)
  }

  /**
   * The first handle left unused when opening the record's streams, from
   * `next` on, stops at the failing long-text position.
   */
  function FailNext(r: Record, ids: seq<nat>, streamFails: (int, nat) -> bool, next: Handle): (last: Handle)
    requires InRange(ids, |r.values|)
    ensures next <= last
    decreases |ids|
  {
    if ids == [] then next
    else if IsSentinel(r.values[ids[0]]) then
      if streamFails(r.artifactId, ids[0]) then next else FailNext(r, ids[1..], streamFails, next + 1)
    else FailNext(r, ids[1..], streamFails, next)
  }

  /** One step of FailNext, at position k of the long-text positions. */
  lemma FailNextStep(r: Record, ids: seq<nat>, streamFails: (int, nat) -> bool, k: nat, next: Handle)
    requires InRange(ids, |r.values|) && k < |ids|
    ensures FailNext(r, ids[k..], streamFails, next) ==
      if IsSentinel(r.values[ids[k]]) then
        if streamFails(r.artifactId, ids[k]) then next else FailNext(r, ids[k + 1..], streamFails, next + 1)
      else FailNext(r, ids[k + 1..], streamFails, next)
  {
    assert ids[k..][0] == ids[k] && ids[k..][1..] == ids[k + 1..];
  }

  /** Together, the streams of a record's values hold exactly the handles issued for them. */
  lemma {:induction false} OpenAllStreams(values: seq<Value>, ids: seq<nat>, next: Handle)
    requires InRange(ids, |values|) && Ascending(ids) && NoStreams(values, ids)
    ensures next <= OpenAll(values, ids, next).1
    ensures StreamsAt(OpenAll(values, ids, next).0, ids) == Range(next, OpenAll(values, ids, next).1)
    decreases |ids|
  {
    if ids == [] {
      assert StreamsAt(values, ids) == {};
    } else {
      var i := ids[0];
      var result := OpenAll(values, ids, next);
      assert forall j :: 0 < j < |ids| ==> ids[0] < ids[j];
      assert !Lists(ids[1..], i);
      if IsSentinel(values[i]) {
        var v := values[i := Stream(next)];
        OpenAllStreams(v, ids[1..], next + 1);
        OpenAllKeeps(v, ids[1..], next + 1, i);
        StreamsAtCons(result.0, ids);
        RangeSplit(next, next + 1, result.1);
      } else {
        OpenAllStreams(values, ids[1..], next);
        OpenAllKeeps(values, ids[1..], next, i);
        StreamsAtCons(result.0, ids);
      }
    }
  }

  /** Accepting a record whose streams were all opened keeps the queue's stream bookkeeping. */
  lemma AcceptStep(accepted: seq<Record>, r: Record, p: Record, ids: seq<nat>, fieldCount: nat,
                   next0: Handle, good: Handle, next: Handle)
    requires InRange(ids, |r.values|) && Ascending(ids) && |p.values| == fieldCount
    requires p.values == OpenAll(r.values, ids, good).0
    requires QueueStreams(accepted, ids) == Range(next0, good) && Disjoint(accepted, ids)
    requires Shaped(accepted, fieldCount) && NoSentinels(accepted, ids)
    requires next0 <= good <= next && StreamsAt(p.values, ids) == Range(good, next)
    ensures QueueStreams(accepted + [p], ids) == Range(next0, next) && Disjoint(accepted + [p], ids)
    ensures Shaped(accepted + [p], fieldCount) && NoSentinels(accepted + [p], ids)
  {
    NoSentinelRemains(r.values, ids, good);
    QueueAppend(accepted, p, ids);
    RangeSplit(next0, good, next);
  }

  /** Two adjacent ranges of handles make one. */
  lemma RangeSplit(a: Handle, b: Handle, c: Handle)
    requires a <= b <= c
    ensures Range(a, b) !! Range(b, c) && Range(a, b) + Range(b, c) == Range(a, c)
  {
  }

  /** The stream bookkeeping of the records a text streamer has accepted. */
  predicate Books(accepted: seq<Record>, ids: seq<nat>, fieldCount: nat, next0: Handle, good: Handle) {
    next0 <= good && QueueStreams(accepted, ids) == Range(next0, good) && Disjoint(accepted, ids)
    && Shaped(accepted, fieldCount) && NoSentinels(accepted, ids)
  }

  /** The records of a stream queue, streams opened, keep the stream bookkeeping. */
  lemma {:induction false} OpenQueueBooks(q: seq<Record>, ids: seq<nat>, fieldCount: nat, next: Handle)
    requires Ascending(ids) && InRange(ids, fieldCount) && Shaped(q, fieldCount) && StreamFree(q, ids)
    ensures Books(OpenQueue(q, ids, next), ids, fieldCount, next, QueueNext(q, ids, next))
  {
    if q != [] {
      var n := |q| - 1;
      var good := QueueNext(q[..n], ids, next);
      var p := Record(q[n].artifactId, OpenAll(q[n].values, ids, good).0);
      assert q[n] in q;
      OpenQueueBooks(q[..n], ids, fieldCount, next);
      OpenAllStreams(q[n].values, ids, good);
      AcceptStep(OpenQueue(q[..n], ids, next), q[n], p, ids, fieldCount, next, good, QueueNext(q, ids, next));
    }
  }

  /**
   * What one text streamer's pass over a stream queue produces: the records
   * accepted with their streams opened, what is left of the queue, the first
   * handle after the accepted records' streams, the first unused handle, and
   * whether an opening failed.
   */
  datatype Pass = Pass(accepted: seq<Record>, rest: seq<Record>, good: Handle, next: Handle, failed: bool)

  /** The pass over `q`: every record before the first failing one is accepted; the failing one is dropped. */
  function PassOver(q: seq<Record>, ids: seq<nat>, streamFails: (int, nat) -> bool, next0: Handle): Pass
    requires forall r :: r in q ==> InRange(ids, |r.values|)
  {
    var k := FirstFailing(q, ids, streamFails);
    var good := QueueNext(q[..k], ids, next0);
    var accepted := OpenQueue(q[..k], ids, next0);
    if k < |q| then Pass(accepted, q[k + 1..], good, FailNext(q[k], ids, streamFails, good), true)
    else Pass(accepted, [], good, good, false)
  }

  /**
   * The accepted records are accounted for by the handles opened for them,
   * no later than the first unused handle; the rest of the queue is a suffix.
   */
  lemma PassBooks(q: seq<Record>, ids: seq<nat>, streamFails: (int, nat) -> bool, next0: Handle, fieldCount: nat)
    requires Ascending(ids) && InRange(ids, fieldCount) && Shaped(q, fieldCount) && StreamFree(q, ids)
    ensures var p := PassOver(q, ids, streamFails, next0);
      && Books(p.accepted, ids, fieldCount, next0, p.good) && p.good <= p.next
      && |p.rest| <= |q| && p.rest == q[|q| - |p.rest|..]
      && (!p.failed ==> p.rest == [] && p.accepted == OpenQueue(q, ids, next0) && p.good == QueueNext(q, ids, next0))
  {
    var k := FirstFailing(q, ids, streamFails);
    OpenQueueBooks(q[..k], ids, fieldCount, next0);
    if k == |q| {
      assert q[..k] == q;
    }
  }

  /** Opening the streams of one more record of the queue appends it, numbered on from the handles used before it. */
  lemma OpenQueueSnoc(q: seq<Record>, ids: seq<nat>, next0: Handle, j: nat)
    requires j < |q| && forall r :: r in q ==> InRange(ids, |r.values|)
    ensures var o := OpenAll(q[j].values, ids, QueueNext(q[..j], ids, next0));
      && OpenQueue(q[..j + 1], ids, next0) == OpenQueue(q[..j], ids, next0) + [Record(q[j].artifactId, o.0)]
      && QueueNext(q[..j + 1], ids, next0) == o.1
  {
    assert q[..j + 1][..j] == q[..j] && q[..j + 1][j] == q[j];
  }

  /**
   * The loop of one text streamer over the stream queue `q`: take each record
   * in turn and open its streams, numbered from `next0` on, until an opening
   * fails. `accepted` holds the records whose streams were all opened; on a
   * failure, `partial` is the failing record with the streams opened before
   * the failure, and `rest` what is left in the queue after it.
   */
  method OpenQueueStreams(q: seq<Record>, ids: seq<nat>, streamFails: (int, nat) -> bool, next0: Handle, fieldCount: nat)
    returns (accepted: seq<Record>, partial: Record, rest: seq<Record>, good: Handle, next: Handle, failed: bool)
    requires Ascending(ids) && InRange(ids, fieldCount) && Shaped(q, fieldCount) && StreamFree(q, ids)
    ensures PassOver(q, ids, streamFails, next0) == Pass(accepted, rest, good, next, failed)
    ensures failed ==> StreamsAt(partial.values, ids) == Range(good, next) && |partial.values| == fieldCount
  {
    accepted, good, next, failed := [], next0, next0, false;
    partial := Record(0, []);
    var j := 0;
    while !failed && j < |q|
      invariant 0 <= j <= |q|
      invariant accepted == OpenQueue(q[..j], ids, next0) && good == QueueNext(q[..j], ids, next0)
      invariant j <= FirstFailing(q, ids, streamFails)
      invariant !failed ==> next == good
      invariant failed ==> j < |q| && OpensFail(q[j], ids, streamFails) && next == FailNext(q[j], ids, streamFails, good)
      invariant failed ==> StreamsAt(partial.values, ids) == Range(good, next) && |partial.values| == fieldCount
      decreases |q| - j, !failed
    {
      assert q[j] in q;
      var ok, p, next' := OpenStreams(q[j], ids, streamFails, next);
      if ok {
        OpenQueueSnoc(q, ids, next0, j);
        accepted := accepted + [p];
        good, next := next', next';
        j := j + 1;
      } else {
        partial, next, failed := p, next', true;
      }
    }
    assert j == FirstFailing(q, ids, streamFails);
    rest := if failed then q[j + 1..] else [];
  }

  // ---------------------------------------------------------------------
  // Block fetching
  // ---------------------------------------------------------------------

  /** What one block fetcher receives: the records of its blocks, its number of calls, whether the last failed. */
  datatype Fetch = Fetch(records: seq<Record>, calls: nat, failed: bool)

  /** The answer to the k-th block call; calls past the recorded answers get null. */
  function Answer(blocks: seq<FetchResult>, k: nat): FetchResult {
    if k < |blocks| then blocks[k] else NoBlock
  }

  /** A fetcher starting at call `from` calls until an answer is null, empty or a failure. */
  function FetchFrom(blocks: seq<FetchResult>, from: nat): Fetch
    decreases |blocks| - from
  {
    if from >= |blocks| then Fetch([], 1, false)
    else match blocks[from]
      case FetchFailed => Fetch([], 1, true)
      case NoBlock => Fetch([], 1, false)
      case Block(rs) =>
        if rs == [] then Fetch([], 1, false)
        else
          var rest := FetchFrom(blocks, from + 1);
          Fetch(rs + rest.records, rest.calls + 1, rest.failed)
  }

  /**
   * The block fetcher's routing of one block: records with a sentinel at a
   * long-text position go to the stream queue, the others to the standard
   * queue, each in block order.
   */
  method RouteRecords(block: seq<Record>, ids: seq<nat>) returns (standard: seq<Record>, streaming: seq<Record>)
    requires forall r :: r in block ==> InRange(ids, |r.values|)
    ensures standard == Select(block, ids, false) && streaming == Select(block, ids, true)
  {
    standard, streaming := [], [];
    for i := 0 to |block|
      invariant standard == Select(block[..i], ids, false) && streaming == Select(block[..i], ids, true)
    {
      var hasStream := FindSentinel(block[i].values, ids);
      assert block[..i + 1] == block[..i] + [block[i]];
      RouteAppend(block[..i], [block[i]], ids, false);
      RouteAppend(block[..i], [block[i]], ids, true);
      RouteSingle(block[i], ids, false);
      RouteSingle(block[i], ids, true);
      if hasStream {
        streaming := streaming + [block[i]];
      } else {
        standard := standard + [block[i]];
      }
    }
    assert block[..|block|] == block;
  }

  /** One call of a fetcher, seen from the whole fetcher: what is left after answer k. */
  lemma FetchTail(blocks: seq<FetchResult>, k: nat, acc: seq<Record>, from: nat, f0: Fetch)
    requires from <= k
    requires var g := FetchFrom(blocks, k); f0 == Fetch(acc + g.records, k - from + g.calls, g.failed)
    ensures var a := Answer(blocks, k);
      if a.Block? && a.records != [] then
        var g := FetchFrom(blocks, k + 1);
        f0 == Fetch((acc + a.records) + g.records, k + 1 - from + g.calls, g.failed)
      else f0 == Fetch(acc, k + 1 - from, a.FetchFailed?)
  {
    var a := Answer(blocks, k);
    if a.Block? && a.records != [] {
      AppendAssoc(acc, a.records, FetchFrom(blocks, k + 1).records);
    } else {
      assert acc + [] == acc;
    }
  }

  /** Every record a fetcher receives comes from an answered block. */
  lemma {:induction false} FetchedWellFormed(blocks: seq<FetchResult>, from: nat, n: nat)
    requires WellFormed(blocks, n)
    ensures forall r :: r in FetchFrom(blocks, from).records ==> AsFetched(r, n)
    decreases |blocks| - from
  {
    if from < |blocks| && blocks[from].Block? && blocks[from].records != [] {
      FetchedWellFormed(blocks, from + 1, n);
    }
  }

  /**
   * The loop of one block fetcher, starting at call `from`: ask for the next
   * block until an answer is null, empty or a failure; route the records of
   * each block as it arrives.
   */
  method FetchBlocks(blocks: seq<FetchResult>, from: nat, ids: seq<nat>, fieldCount: nat)
    returns (standard: seq<Record>, streaming: seq<Record>, received: seq<Record>, calls: nat, failed: bool)
    requires WellFormed(blocks, fieldCount) && InRange(ids, fieldCount)
    ensures FetchFrom(blocks, from) == Fetch(received, calls, failed)
    ensures standard == Select(received, ids, false) && streaming == Select(received, ids, true)
  {
    standard, streaming, received := [], [], [];
    var done := false;
    failed := false;
    var k := from;
    ghost var f0 := FetchFrom(blocks, from);
    while !done && !failed
      invariant from <= k
      invariant standard == Select(received, ids, false) && streaming == Select(received, ids, true)
      invariant !done && !failed ==>
        var g := FetchFrom(blocks, k);
        f0 == Fetch(received + g.records, k - from + g.calls, g.failed)
      invariant done || failed ==> f0 == Fetch(received, k - from, failed)
      decreases (if done || failed then 0 else 1) + (if k <= |blocks| then |blocks| - k else 0)
    {
      FetchTail(blocks, k, received, from, f0);
      var answer := Answer(blocks, k);
      k := k + 1;
      match answer
      case FetchFailed =>
        failed := true;
      case NoBlock =>
        done := true;
      case Block(rs) =>
        if rs == [] {
          done := true;
        } else {
          assert forall r :: r in rs ==> AsFetched(r, fieldCount);
          var std, str := RouteRecords(rs, ids);
          RouteAppend(received, rs, ids, false);
          RouteAppend(received, rs, ids, true);
          standard, streaming := standard + std, streaming + str;
          received := received + rs;
        }
    }
    calls := k - from;
  }

  /** A block call ends a fetcher. */
  predicate Ends(a: FetchResult) {
    a.NoBlock? || a.FetchFailed? || (a.Block? && a.records == [])
  }

  /**
   * A fetcher stops exactly at the first answer that is null, empty or a
   * failure; every answer before it is a non-empty block, and the fetcher
   * failed iff that last answer was a failure.
   */
  lemma {:induction false} FetchStops(blocks: seq<FetchResult>, from: nat)
    ensures var f := FetchFrom(blocks, from);
      && f.calls >= 1
      && (forall k :: from <= k < from + f.calls - 1 ==> !Ends(Answer(blocks, k)))
      && Ends(Answer(blocks, from + f.calls - 1))
      && f.failed == Answer(blocks, from + f.calls - 1).FetchFailed?
    decreases |blocks| - from
  {
    if from < |blocks| && blocks[from].Block? && blocks[from].records != [] {
      FetchStops(blocks, from + 1);
    }
  }

  /** A record as the service returns it: one value per field and no stream among them. */
  predicate AsFetched(r: Record, fieldCount: nat) {
    |r.values| == fieldCount && forall i :: 0 <= i < |r.values| ==> !r.values[i].Stream?
  }

  /** Every record of every answered block has the shape the initialisation announced. */
  predicate WellFormed(blocks: seq<FetchResult>, fieldCount: nat) {
    forall k, r :: 0 <= k < |blocks| && blocks[k].Block? && r in blocks[k].records ==> AsFetched(r, fieldCount)
  }

  /** Every record of the queue has one value per field. */
  predicate Shaped(q: seq<Record>, fieldCount: nat) {
    forall r :: r in q ==> |r.values| == fieldCount
  }

  /** No record of the queue holds a sentinel at a long-text position. */
  predicate NoSentinels(q: seq<Record>, ids: seq<nat>) {
    forall r :: r in q ==> !HasSentinel(r.values, ids)
  }

  /** No record of the queue holds a stream at a long-text position. */
  predicate StreamFree(q: seq<Record>, ids: seq<nat>) {
    forall r :: r in q ==> NoStreams(r.values, ids)
  }

  /** All the handles were issued before `next`. */
  predicate Below(hs: set<Handle>, next: Handle) {
    forall h :: h in hs ==> h < next
  }

  /**
   * Every fetched record is in exactly one queue or was handed to Item
   * exactly once (counted by artifact id).
   */
  ghost predicate Accounted(fetched: seq<int>, standard: seq<Record>, streaming: seq<Record>,
                            open: seq<Record>, log: seq<Event>) {
    multiset(fetched) == multiset(IdsOf(standard)) + multiset(IdsOf(streaming))
                         + multiset(IdsOf(open)) + multiset(Delivered(log))
  }

  lemma AppendAssoc<T>(a: seq<T>, b: seq<T>, c: seq<T>)
    ensures (a + b) + c == a + (b + c)
  {
  }

  /** Routed records keep the queue shapes: standard records hold neither sentinel nor stream. */
  lemma RoutedShapes(block: seq<Record>, fieldCount: nat, ids: seq<nat>)
    requires forall r :: r in block ==> AsFetched(r, fieldCount)
    ensures Shaped(Select(block, ids, false), fieldCount) && NoSentinels(Select(block, ids, false), ids)
    ensures StreamFree(Select(block, ids, false), ids)
    ensures Shaped(Select(block, ids, true), fieldCount) && StreamFree(Select(block, ids, true), ids)
  {
    forall r | r in Select(block, ids, false) {
      SelectMembers(block, ids, false, r);
    }
    forall r | r in Select(block, ids, true) {
      SelectMembers(block, ids, true, r);
    }
  }

  /** Routing a block and recording its ids keeps every fetched record accounted for. */
  lemma RoutedAccounted(fetched: seq<int>, standard: seq<Record>, streaming: seq<Record>,
                        open: seq<Record>, log: seq<Event>, block: seq<Record>, ids: seq<nat>)
    requires Accounted(fetched, standard, streaming, open, log)
    ensures Accounted(fetched + IdsOf(block), standard + Select(block, ids, false),
                      streaming + Select(block, ids, true), open, log)
  {
    RoutePartitionIds(block, ids);
    IdsOfAppend(standard, Select(block, ids, false));
    IdsOfAppend(streaming, Select(block, ids, true));
  }

  /**
   * A record handed to Item: one value per field, no sentinel left, none of
   * its streams still open, and every one of its streams opened before.
   */
  ghost predicate Clean(r: Record, fieldCount: nat, ids: seq<nat>, open: set<Handle>, next: Handle) {
    && |r.values| == fieldCount
    && !HasSentinel(r.values, ids)
    && StreamsAt(r.values, ids) !! open
    && forall h :: h in StreamsAt(r.values, ids) ==> h < next
  }

  /** Every record of the log's Item calls is clean. */
  ghost predicate LogClean(log: seq<Event>, fieldCount: nat, ids: seq<nat>, open: set<Handle>, next: Handle) {
    forall k :: 0 <= k < |log| && log[k].ItemCalled? ==> Clean(log[k].record, fieldCount, ids, open, next)
  }

  /** Opening fresh streams keeps the delivered records clean. */
  lemma LogCleanAfterOpen(log: seq<Event>, n: nat, ids: seq<nat>, open: set<Handle>, next: Handle, next': Handle)
    requires LogClean(log, n, ids, open, next) && next <= next'
    ensures LogClean(log, n, ids, open + Range(next, next'), next')
  {
  }

  /** Closing streams keeps the delivered records clean. */
  lemma LogCleanAfterClose(log: seq<Event>, n: nat, ids: seq<nat>, open: set<Handle>, closed: set<Handle>, next: Handle)
    requires LogClean(log, n, ids, open, next)
    ensures LogClean(log, n, ids, open - closed, next)
  {
  }

  /** Appending an event that is not an Item call, or an Item call of a clean record, keeps the log clean. */
  lemma LogCleanAppend(log: seq<Event>, e: Event, n: nat, ids: seq<nat>, open: set<Handle>, next: Handle)
    requires LogClean(log, n, ids, open, next)
    requires e.ItemCalled? ==> Clean(e.record, n, ids, open, next)
    ensures LogClean(log + [e], n, ids, open, next)
  {
  }

  /** Routing a block splits its artifact ids between the two queues without loss or duplication. */
  lemma {:induction false} RoutePartitionIds(block: seq<Record>, ids: seq<nat>)
    ensures multiset(IdsOf(Select(block, ids, false))) + multiset(IdsOf(Select(block, ids, true)))
         == multiset(IdsOf(block))
  {
    if block != [] {
      var n := |block| - 1;
      var a, r := block[..n], block[n];
      var toStandard: seq<Record>, toStream: seq<Record> := if HasSentinel(r.values, ids) then [] else [r],
                                                            if HasSentinel(r.values, ids) then [r] else [];
      RoutePartitionIds(a, ids);
      assert block == a + [r];
      assert Select(block, ids, false) == Select(a, ids, false) + toStandard;
      assert Select(block, ids, true) == Select(a, ids, true) + toStream;
      IdsOfAppend(a, [r]);
      IdsOfAppend(Select(a, ids, false), toStandard);
      IdsOfAppend(Select(a, ids, true), toStream);
      assert multiset(IdsOf(toStandard)) + multiset(IdsOf(toStream)) == multiset(IdsOf([r]));
    }
  }

  /** A clean log stays clean when later handle numbers are issued. */
  lemma LogCleanLater(log: seq<Event>, n: nat, ids: seq<nat>, open: set<Handle>, next: Handle, next': Handle)
    requires LogClean(log, n, ids, open, next) && next <= next'
    ensures LogClean(log, n, ids, open, next')
  {
  }

  // ---------------------------------------------------------------------
  // The run invariant, on values
  // ---------------------------------------------------------------------

  /** The part of the helper's state the run invariant speaks about. */
  datatype Snapshot = Snapshot(
    fieldCount: nat, ids: seq<nat>,
    standard: seq<Record>, streaming: seq<Record>, open: seq<Record>,
    handles: set<Handle>, next: Handle,
    log: seq<Event>, cancelled: bool, fetched: seq<int>)

  /**
   * The invariant of a run: the long-text positions are ascending field
   * indices; standard-queue records hold neither sentinel nor stream,
   * stream-queue records no stream, open-stream-queue records no sentinel;
   * the open streams are exactly those of the open-stream queue, none shared
   * by two records; every record handed to Item is clean; Error was called at
   * most once, and only together with cancellation; and without cancellation
   * every fetched record is accounted for.
   */
  ghost predicate Invariant(s: Snapshot) {
    QueueShapes(s) && StreamBook(s) && LogBook(s) && (!s.cancelled ==> Accounted(s.fetched, s.standard, s.streaming, s.open, s.log))
  }

  /** The long-text positions are ascending field indices, and each queue holds records of its kind. */
  predicate QueueShapes(s: Snapshot) {
    && Ascending(s.ids) && InRange(s.ids, s.fieldCount)
    && Shaped(s.standard, s.fieldCount) && NoSentinels(s.standard, s.ids) && StreamFree(s.standard, s.ids)
    && Shaped(s.streaming, s.fieldCount) && StreamFree(s.streaming, s.ids)
    && Shaped(s.open, s.fieldCount) && NoSentinels(s.open, s.ids)
  }

  /** The open streams are those of the open-stream queue, none shared, all issued before `next`. */
  predicate StreamBook(s: Snapshot) {
    Below(s.handles, s.next) && s.handles == QueueStreams(s.open, s.ids) && Disjoint(s.open, s.ids)
  }

  /** Every record handed to Item is clean, and Error was called at most once, only with cancellation. */
  ghost predicate LogBook(s: Snapshot) {
    LogClean(s.log, s.fieldCount, s.ids, s.handles, s.next) && |Errors(s.log)| <= (if s.cancelled then 1 else 0)
  }

  /** A fetched block routed to the two queues keeps the invariant. */
  lemma InvEnqueue(s: Snapshot, rs: seq<Record>)
    requires Invariant(s) && !s.cancelled && forall r :: r in rs ==> AsFetched(r, s.fieldCount)
    ensures Invariant(s.(standard := s.standard + Select(rs, s.ids, false),
                         streaming := s.streaming + Select(rs, s.ids, true),
                         fetched := s.fetched + IdsOf(rs)))
  {
    RoutedShapes(rs, s.fieldCount, s.ids);
    RoutedAccounted(s.fetched, s.standard, s.streaming, s.open, s.log, rs, s.ids);
  }

  /** Reporting the first error, which cancels, keeps the invariant. */
  lemma InvError(s: Snapshot, t: Snapshot, m: string)
    requires Invariant(s) && !s.cancelled && t == s.(log := s.log + [ErrorCalled(m)], cancelled := true)
    ensures Invariant(t)
  {
    ErrorsAppend(s.log, ErrorCalled(m));
    LogCleanAppend(s.log, ErrorCalled(m), s.fieldCount, s.ids, s.handles, s.next);
  }

  /** Cancelling keeps the invariant. */
  lemma InvCancel(s: Snapshot)
    requires Invariant(s)
    ensures Invariant(s.(cancelled := true))
  {
  }

  /** After cancellation, a record taken from the stream queue may be dropped. */
  lemma InvSkipStream(s: Snapshot)
    requires Invariant(s) && s.cancelled && s.streaming != []
    ensures Invariant(s.(streaming := s.streaming[1..]))
  {
  }

  /** The open streams of the first open-stream-queue record are exactly its own. */
  lemma FrontStreams(s: Snapshot)
    requires Invariant(s) && s.open != []
    ensures s.handles - StreamsAt(s.open[0].values, s.ids) == QueueStreams(s.open[1..], s.ids)
    ensures Disjoint(s.open[1..], s.ids)
    ensures StreamsAt(s.open[0].values, s.ids) <= s.handles
  {
  }

  /** Handing the first open-stream-queue record to Item, then closing its streams, keeps the invariant. */
  lemma InvDeliverOpen(s: Snapshot)
    requires Invariant(s) && s.open != []
    ensures Invariant(s.(open := s.open[1..], handles := s.handles - StreamsAt(s.open[0].values, s.ids),
                         log := s.log + [ItemCalled(s.open[0])]))
  {
    var r := s.open[0];
    var closed := StreamsAt(r.values, s.ids);
    FrontStreams(s);
    LogCleanAfterClose(s.log, s.fieldCount, s.ids, s.handles, closed, s.next);
    assert Clean(r, s.fieldCount, s.ids, s.handles - closed, s.next);
    LogCleanAppend(s.log, ItemCalled(r), s.fieldCount, s.ids, s.handles - closed, s.next);
    ErrorsAppend(s.log, ItemCalled(r));
    IdsOfFront(s.open);
  }

  /** Handing the first standard-queue record to Item keeps the invariant; it holds no stream. */
  lemma InvDeliverStandard(s: Snapshot)
    requires Invariant(s) && s.standard != []
    ensures StreamsAt(s.standard[0].values, s.ids) == {}
    ensures Invariant(s.(standard := s.standard[1..], log := s.log + [ItemCalled(s.standard[0])]))
  {
    var r := s.standard[0];
    NoStreamsEmpty(r.values, s.ids);
    LogCleanAppend(s.log, ItemCalled(r), s.fieldCount, s.ids, s.handles, s.next);
    ErrorsAppend(s.log, ItemCalled(r));
    IdsOfFront(s.standard);
  }

  /** The streams of two queues placed one after the other. */
  lemma {:induction false} QueueConcat(q: seq<Record>, r: seq<Record>, ids: seq<nat>)
    ensures QueueStreams(q + r, ids) == QueueStreams(q, ids) + QueueStreams(r, ids)
    ensures Disjoint(q, ids) && Disjoint(r, ids) && QueueStreams(q, ids) !! QueueStreams(r, ids) ==> Disjoint(q + r, ids)
  {
    if q != [] {
      assert (q + r)[1..] == q[1..] + r;
      QueueConcat(q[1..], r, ids);
    } else {
      assert q + r == r;
    }
  }

  /** Every record of the stream queue, streams opened, moves to the end of the open-stream queue. */
  lemma InvStreamedAll(s: Snapshot, accepted: seq<Record>, next': Handle)
    requires Invariant(s) && !s.cancelled
    requires accepted == OpenQueue(s.streaming, s.ids, s.next) && Books(accepted, s.ids, s.fieldCount, s.next, next')
    ensures Invariant(s.(streaming := [], open := s.open + accepted,
                         handles := s.handles + Range(s.next, next'), next := next'))
  {
    QueueConcat(s.open, accepted, s.ids);
    LogCleanAfterOpen(s.log, s.fieldCount, s.ids, s.handles, s.next, next');
    OpenQueueIds(s.streaming, s.ids, s.next);
    IdsOfAppend(s.open, accepted);
  }

  /**
   * A text streamer stopped by a failed opening: the records it accepted move
   * to the open-stream queue, the failing record is dropped with its streams
   * closed, the rest stays queued and the error is reported.
   */
  lemma InvStreamStopped(s: Snapshot, t: Snapshot, accepted: seq<Record>, good: Handle, m: string)
    requires Invariant(s) && !s.cancelled && good <= t.next
    requires Books(accepted, s.ids, s.fieldCount, s.next, good)
    requires |t.streaming| <= |s.streaming| && t.streaming == s.streaming[|s.streaming| - |t.streaming|..]
    requires t == s.(streaming := t.streaming, open := s.open + accepted, handles := s.handles + Range(s.next, good),
                     next := t.next, log := s.log + [ErrorCalled(m)], cancelled := true)
    ensures Invariant(t)
  {
    QueueConcat(s.open, accepted, s.ids);
    LogCleanAfterOpen(s.log, s.fieldCount, s.ids, s.handles, s.next, good);
    LogCleanLater(s.log, s.fieldCount, s.ids, s.handles + Range(s.next, good), good, t.next);
    ErrorsAppend(s.log, ErrorCalled(m));
    LogCleanAppend(s.log, ErrorCalled(m), s.fieldCount, s.ids, s.handles + Range(s.next, good), t.next);
    assert forall r :: r in t.streaming ==> r in s.streaming;
  }

  /** Closing the failing record's streams leaves the streams opened before it. */
  lemma CloseLast(hs: set<Handle>, next0: Handle, good: Handle, next: Handle)
    requires Below(hs, next0) && next0 <= good <= next
    ensures (hs + Range(next0, next)) - Range(good, next) == hs + Range(next0, good)
  {
    RangeSplit(next0, good, next);
  }

  // ---------------------------------------------------------------------
  // What the workers do to the run state
  // ---------------------------------------------------------------------

  /** The state after SendErrorAndCancel: Error is reported only if cancellation was not requested yet. */
  function Reported(s: Snapshot, m: string): Snapshot {
    if s.cancelled then s else s.(log := s.log + [ErrorCalled(m)], cancelled := true)
  }

  lemma InvReported(s: Snapshot, m: string)
    requires Invariant(s)
    ensures Invariant(Reported(s, m))
  {
    if !s.cancelled {
      InvError(s, Reported(s, m), m);
    }
  }

  /**
   * The state after one block fetcher: the records it received routed to the
   * standard and stream queues, and a failure reported. A fetcher started
   * after cancellation does nothing.
   */
  function FetcherEffect(s: Snapshot, f: Fetch): Snapshot {
    if s.cancelled then s
    else
      var t := s.(standard := s.standard + Select(f.records, s.ids, false),
                  streaming := s.streaming + Select(f.records, s.ids, true),
                  fetched := s.fetched + IdsOf(f.records));
      if f.failed then Reported(t, FetchFailedMessage) else t
  }

  lemma InvFetcher(s: Snapshot, f: Fetch)
    requires Invariant(s) && forall r :: r in f.records ==> AsFetched(r, s.fieldCount)
    ensures Invariant(FetcherEffect(s, f))
  {
    if !s.cancelled {
      InvEnqueue(s, f.records);
      var t := s.(standard := s.standard + Select(f.records, s.ids, false),
                  streaming := s.streaming + Select(f.records, s.ids, true),
                  fetched := s.fetched + IdsOf(f.records));
      InvReported(t, FetchFailedMessage);
    }
  }

  /**
   * `n` block fetchers run one after the other; each asks for blocks from
   * the call where the previous one stopped. Paired with the calls made.
   */
  function Fetchers(s: Snapshot, blocks: seq<FetchResult>, from: nat, n: nat): (Snapshot, nat)
    decreases n
  {
    if n == 0 || s.cancelled then (s, from)
    else
      var f := FetchFrom(blocks, from);
      Fetchers(FetcherEffect(s, f), blocks, from + f.calls, n - 1)
  }

  /** The first of `n` block fetchers, split off; after cancellation it neither changes the state nor calls. */
  lemma FetchersStep(s: Snapshot, blocks: seq<FetchResult>, from: nat, n: nat)
    requires n > 0
    ensures var p := FetcherNext(s, blocks, from); Fetchers(s, blocks, from, n) == Fetchers(p.0, blocks, p.1, n - 1)
  {
  }

  /** The state and the next block call after one block fetcher. */
  function FetcherNext(s: Snapshot, blocks: seq<FetchResult>, from: nat): (Snapshot, nat) {
    var f := FetchFrom(blocks, from);
    (FetcherEffect(s, f), if s.cancelled then from else from + f.calls)
  }

  /** One fetcher over well-formed answers keeps the run invariant and the field count. */
  lemma InvFetcherNext(s: Snapshot, blocks: seq<FetchResult>, from: nat)
    requires Invariant(s) && WellFormed(blocks, s.fieldCount)
    ensures var t := FetcherNext(s, blocks, from).0; Invariant(t) && t.fieldCount == s.fieldCount
  {
    FetchedWellFormed(blocks, from, s.fieldCount);
    InvFetcher(s, FetchFrom(blocks, from));
  }

  /** Whatever one fetcher keeps, from any block call on, the fetchers keep. */
  lemma {:induction false} FetchersKeep(keep: Snapshot -> bool, s: Snapshot, blocks: seq<FetchResult>, from: nat, n: nat)
    requires keep(s)
    requires forall t: Snapshot, k: nat :: keep(t) ==> keep(FetcherNext(t, blocks, k).0)
    ensures keep(Fetchers(s, blocks, from, n).0)
    decreases n
  {
    if n > 0 && !s.cancelled {
      var p := FetcherNext(s, blocks, from);
      FetchersKeep(keep, p.0, blocks, p.1, n - 1);
      FetchersStep(s, blocks, from, n);
    }
  }

  /** One more fetcher continues from the state and the block call the first `n` left. */
  lemma {:induction false} FetchersSnoc(s: Snapshot, blocks: seq<FetchResult>, from: nat, n: nat)
    ensures var p := Fetchers(s, blocks, from, n); Fetchers(s, blocks, from, n + 1) == FetcherNext(p.0, blocks, p.1)
    decreases n
  {
    if n > 0 && !s.cancelled {
      var p := FetcherNext(s, blocks, from);
      FetchersSnoc(p.0, blocks, p.1, n - 1);
    }
  }

  /** The fetchers keep the run invariant. */
  lemma InvFetchers(s: Snapshot, blocks: seq<FetchResult>, from: nat, n: nat)
    requires Invariant(s) && WellFormed(blocks, s.fieldCount)
    ensures Invariant(Fetchers(s, blocks, from, n).0)
  {
    var keep := (t: Snapshot) => Invariant(t) && t.fieldCount == s.fieldCount;
    forall t: Snapshot, k: nat | keep(t)
      ensures keep(FetcherNext(t, blocks, k).0)
    {
      InvFetcherNext(t, blocks, k);
    }
    FetchersKeep(keep, s, blocks, from, n);
  }

  /**
   * The state after one text streamer's pass over the stream queue, started
   * without cancellation: the records before the first failing one, streams
   * opened, move to the open-stream queue; the failing record is dropped, its
   * streams closed, and the failure reported.
   */
  function StreamPass(s: Snapshot, streamFails: (int, nat) -> bool): Snapshot
    requires InRange(s.ids, s.fieldCount) && Shaped(s.streaming, s.fieldCount)
  {
    var p := PassOver(s.streaming, s.ids, streamFails, s.next);
    var t := s.(streaming := p.rest, open := s.open + p.accepted, handles := s.handles + Range(s.next, p.good),
                next := p.next);
    if p.failed then Reported(t, StreamFailedMessage) else t
  }

  /** A text streamer started after cancellation takes one record, if any, and drops it. */
  function SkipStream(s: Snapshot): Snapshot {
    if s.streaming == [] then s else s.(streaming := s.streaming[1..])
  }

  /** After cancellation, a text streamer empties the open-stream queue, closing every record's streams. */
  function Drained(s: Snapshot): Snapshot {
    s.(open := [], handles := s.handles - QueueStreams(s.open, s.ids))
  }

  /** The state after one text streamer. */
  function StreamerEffect(s: Snapshot, streamFails: (int, nat) -> bool): (t: Snapshot)
    requires InRange(s.ids, s.fieldCount) && Shaped(s.streaming, s.fieldCount)
    ensures t.fieldCount == s.fieldCount && t.ids == s.ids && Shaped(t.streaming, t.fieldCount)
    ensures s.cancelled ==> t.cancelled
    ensures !t.cancelled ==> t.streaming == []
  {
    var p := if s.cancelled then SkipStream(s) else StreamPass(s, streamFails);
    if p.cancelled then Drained(p) else p
  }

  /** `n` text streamers run one after the other. */
  function Streamers(s: Snapshot, streamFails: (int, nat) -> bool, n: nat): (t: Snapshot)
    requires InRange(s.ids, s.fieldCount) && Shaped(s.streaming, s.fieldCount)
    ensures t.fieldCount == s.fieldCount && t.ids == s.ids && Shaped(t.streaming, t.fieldCount)
    ensures s.cancelled ==> t.cancelled
    ensures n >= 1 && !t.cancelled ==> t.streaming == []
    decreases n
  {
    if n == 0 then s else Streamers(StreamerEffect(s, streamFails), streamFails, n - 1)
  }

  /** One more streamer works on the state the first `n` left. */
  lemma {:induction false} StreamersSnoc(s: Snapshot, streamFails: (int, nat) -> bool, n: nat)
    requires InRange(s.ids, s.fieldCount) && Shaped(s.streaming, s.fieldCount)
    ensures Streamers(s, streamFails, n + 1) == StreamerEffect(Streamers(s, streamFails, n), streamFails)
    decreases n
  {
    if n > 0 {
      StreamersSnoc(StreamerEffect(s, streamFails), streamFails, n - 1);
    }
  }

  lemma InvStreamPass(s: Snapshot, streamFails: (int, nat) -> bool)
    requires Invariant(s) && !s.cancelled
    ensures Invariant(StreamPass(s, streamFails))
  {
    var p := PassOver(s.streaming, s.ids, streamFails, s.next);
    PassBooks(s.streaming, s.ids, streamFails, s.next, s.fieldCount);
    if p.failed {
      InvStreamStopped(s, StreamPass(s, streamFails), p.accepted, p.good, StreamFailedMessage);
    } else {
      InvStreamedAll(s, p.accepted, p.good);
    }
  }

  lemma InvDrained(s: Snapshot)
    requires Invariant(s) && s.cancelled
    ensures Invariant(Drained(s)) && Drained(s).handles == {}
  {
    LogCleanAfterClose(s.log, s.fieldCount, s.ids, s.handles, s.handles, s.next);
  }

  lemma InvStreamer(s: Snapshot, streamFails: (int, nat) -> bool)
    requires Invariant(s)
    ensures Invariant(StreamerEffect(s, streamFails))
  {
    var p := if s.cancelled then SkipStream(s) else StreamPass(s, streamFails);
    if s.cancelled {
      if s.streaming != [] {
        InvSkipStream(s);
      }
    } else {
      InvStreamPass(s, streamFails);
    }
    if p.cancelled {
      InvDrained(p);
    }
  }

  /** Whatever one streamer keeps, the streamers keep. */
  lemma {:induction false} StreamersKeep(keep: Snapshot -> bool, s: Snapshot, streamFails: (int, nat) -> bool, n: nat)
    requires InRange(s.ids, s.fieldCount) && Shaped(s.streaming, s.fieldCount) && keep(s)
    requires forall t: Snapshot {:trigger StreamerEffect(t, streamFails)} ::
      InRange(t.ids, t.fieldCount) && Shaped(t.streaming, t.fieldCount) && keep(t) ==> keep(StreamerEffect(t, streamFails))
    ensures keep(Streamers(s, streamFails, n))
    decreases n
  {
    if n > 0 {
      StreamersKeep(keep, StreamerEffect(s, streamFails), streamFails, n - 1);
    }
  }

  /** The streamers keep the run invariant. */
  lemma InvStreamers(s: Snapshot, streamFails: (int, nat) -> bool, n: nat)
    requires Invariant(s)
    ensures Invariant(Streamers(s, streamFails, n))
  {
    forall t: Snapshot | InRange(t.ids, t.fieldCount) && Shaped(t.streaming, t.fieldCount) && Invariant(t)
      ensures Invariant(StreamerEffect(t, streamFails))
    {
      InvStreamer(t, streamFails);
    }
    StreamersKeep(t => Invariant(t), s, streamFails, n);
  }

  /**
   * A text streamer that took the stream queue's first record and opened its
   * streams, then met cancellation requested by another worker while adding
   * the record to the open-stream queue, as written: the cancellation
   * exception is swallowed and the record is dropped, its streams still open.
   */
  function AsWrittenAddCancelled(s: Snapshot): Snapshot
    requires s.streaming != [] && InRange(s.ids, |s.streaming[0].values|)
  {
    var o := OpenAll(s.streaming[0].values, s.ids, s.next);
    s.(streaming := s.streaming[1..], handles := s.handles + StreamsAt(o.0, s.ids), next := o.1,
       cancelled := true)
  }

  /** The same step, corrected: the dropped record's streams are closed, as when an opening fails. */
  function AddCancelled(s: Snapshot): Snapshot
    requires s.streaming != [] && InRange(s.ids, |s.streaming[0].values|)
  {
    var o := OpenAll(s.streaming[0].values, s.ids, s.next);
    var streams := StreamsAt(o.0, s.ids);
    s.(streaming := s.streaming[1..], handles := (s.handles + streams) - streams, next := o.1, cancelled := true)
  }

  /**
   * As written, the drain of the open-stream queue that follows leaves
   * exactly the dropped record's streams open, and there is at least one.
   */
  lemma AsWrittenAddCancelledLeaks(s: Snapshot)
    requires Invariant(s) && s.streaming != [] && HasSentinel(s.streaming[0].values, s.ids)
    ensures var o := OpenAll(s.streaming[0].values, s.ids, s.next);
      && Drained(AsWrittenAddCancelled(s)).handles == StreamsAt(o.0, s.ids)
      && Drained(AsWrittenAddCancelled(s)).handles != {}
  {
    var r := s.streaming[0];
    assert r in s.streaming;
    var o := OpenAll(r.values, s.ids, s.next);
    OpenAllStreams(r.values, s.ids, s.next);
    var k :| 0 <= k < |s.ids| && s.ids[k] < |r.values| && IsSentinel(r.values[s.ids[k]]);
    OpenAllReplaces(r.values, s.ids, s.next, k);
    assert o.0[s.ids[k]].handle in StreamsAt(o.0, s.ids);
  }

  /** Corrected, the step keeps the run invariant and the drain that follows leaves no stream open. */
  lemma AddCancelledCloses(s: Snapshot)
    requires Invariant(s) && s.streaming != []
    ensures Invariant(AddCancelled(s)) && Drained(AddCancelled(s)).handles == {}
  {
    var r := s.streaming[0];
    assert r in s.streaming;
    var o := OpenAll(r.values, s.ids, s.next);
    OpenAllStreams(r.values, s.ids, s.next);
    var t := AddCancelled(s);
    assert t.handles == s.handles;
    LogCleanLater(s.log, s.fieldCount, s.ids, s.handles, s.next, o.1);
    InvDrained(t);
  }

  /**
   * One handler caller's step: take a record, from the open-stream queue
   * first, hand it to Item, close its streams whatever Item did, report a
   * throw, and cancel unless Item asked to continue.
   */
  function CallerStep(s: Snapshot, item: Record -> ItemOutcome): (t: Snapshot)
    requires s.open != [] || s.standard != []
    ensures |t.open| + |t.standard| + 1 == |s.open| + |s.standard|
    ensures t.streaming == s.streaming && t.fetched == s.fetched
  {
    var r := if s.open != [] then s.open[0] else s.standard[0];
    var taken := if s.open != [] then s.(open := s.open[1..]) else s.(standard := s.standard[1..]);
    var d := taken.(handles := s.handles - StreamsAt(r.values, s.ids), log := s.log + [ItemCalled(r)]);
    match item(r)
    case Continue => d
    case Stop => d.(cancelled := true)
    case Throws => Reported(d, ItemThrewMessage)
  }

  /** A handler caller's loop: step until cancellation or until both queues are empty. */
  function Called(s: Snapshot, item: Record -> ItemOutcome): (t: Snapshot)
    ensures t.streaming == s.streaming && t.fetched == s.fetched
    ensures s.cancelled ==> t == s
    decreases |s.open| + |s.standard|
  {
    if s.cancelled || (s.open == [] && s.standard == []) then s
    else Called(CallerStep(s, item), item)
  }

  /** `n` handler callers run one after the other. */
  function Callers(s: Snapshot, item: Record -> ItemOutcome, n: nat): (t: Snapshot)
    ensures t.streaming == s.streaming && t.fetched == s.fetched
    decreases n
  {
    if n == 0 then s else Callers(Called(s, item), item, n - 1)
  }

  /** One more handler caller works on the state the first `n` left. */
  lemma {:induction false} CallersSnoc(s: Snapshot, item: Record -> ItemOutcome, n: nat)
    ensures Callers(s, item, n + 1) == Called(Callers(s, item, n), item)
    decreases n
  {
    if n > 0 {
      CallersSnoc(Called(s, item), item, n - 1);
    }
  }

  lemma InvCallerStep(s: Snapshot, item: Record -> ItemOutcome)
    requires Invariant(s) && !s.cancelled && (s.open != [] || s.standard != [])
    ensures Invariant(CallerStep(s, item))
  {
    var r := if s.open != [] then s.open[0] else s.standard[0];
    var taken := if s.open != [] then s.(open := s.open[1..]) else s.(standard := s.standard[1..]);
    var d := taken.(handles := s.handles - StreamsAt(r.values, s.ids), log := s.log + [ItemCalled(r)]);
    if s.open != [] {
      InvDeliverOpen(s);
    } else {
      InvDeliverStandard(s);
      assert d == s.(standard := s.standard[1..], log := s.log + [ItemCalled(r)]);
    }
    match item(r)
    case Continue =>
    case Stop => InvCancel(d);
    case Throws => InvReported(d, ItemThrewMessage);
  }

  lemma {:induction false} InvCalled(s: Snapshot, item: Record -> ItemOutcome)
    requires Invariant(s)
    ensures Invariant(Called(s, item))
    decreases |s.open| + |s.standard|
  {
    if !s.cancelled && (s.open != [] || s.standard != []) {
      InvCallerStep(s, item);
      InvCalled(CallerStep(s, item), item);
    }
  }

  /** A handler caller returns only once cancellation is requested or both queues are empty. */
  lemma {:induction false} CalledSettles(s: Snapshot, item: Record -> ItemOutcome)
    ensures var t := Called(s, item); t.cancelled || (t.open == [] && t.standard == [])
    decreases |s.open| + |s.standard|
  {
    if !s.cancelled && (s.open != [] || s.standard != []) {
      CalledSettles(CallerStep(s, item), item);
    }
  }

  /** The handler callers after the first find nothing left to do. */
  lemma {:induction false} CallersAfterFirst(s: Snapshot, item: Record -> ItemOutcome, n: nat)
    requires n >= 1
    ensures Callers(s, item, n) == Called(s, item)
    decreases n
  {
    var t := Called(s, item);
    CalledSettles(s, item);
    assert Called(t, item) == t;
    if n > 1 {
      CallersAfterFirst(t, item, n - 1);
    }
  }

  lemma InvCallers(s: Snapshot, item: Record -> ItemOutcome, n: nat)
    requires Invariant(s)
    ensures Invariant(Callers(s, item, n))
  {
    if n >= 1 {
      CallersAfterFirst(s, item, n);
      InvCalled(s, item);
    }
  }

  /** The position of the first record for which Item does not ask to continue, or the length. */
  function StopAt(rs: seq<Record>, item: Record -> ItemOutcome): (k: nat)
    ensures k <= |rs| && (k < |rs| ==> item(rs[k]) != Continue)
    ensures forall j :: 0 <= j < k ==> item(rs[j]) == Continue
  {
    if rs == [] || item(rs[0]) != Continue then 0 else 1 + StopAt(rs[1..], item)
  }

  lemma ItemEventsCons(rs: seq<Record>, m: nat)
    requires 1 <= m <= |rs|
    ensures ItemEvents(rs[..m]) == [ItemCalled(rs[0])] + ItemEvents(rs[1..][..m - 1])
  {
    var a := ItemEvents(rs[..m]);
    var b := [ItemCalled(rs[0])] + ItemEvents(rs[1..][..m - 1]);
    assert |a| == |b|;
    forall j | 0 <= j < |a|
      ensures a[j] == b[j]
    {
      if j > 0 {
        assert rs[1..][..m - 1][j - 1] == rs[j];
      }
    }
  }

  /** One step hands the first pending record to Item and leaves the rest pending, in order. */
  lemma CallerStepOutcome(s: Snapshot, item: Record -> ItemOutcome)
    requires !s.cancelled && (s.open != [] || s.standard != [])
    ensures var rs := s.open + s.standard;
      var t := CallerStep(s, item);
      && t.open + t.standard == rs[1..]
      && t.cancelled == (item(rs[0]) != Continue)
      && t.log == s.log + [ItemCalled(rs[0])] + (if item(rs[0]) == Throws then [ErrorCalled(ItemThrewMessage)] else [])
  {
    var rs := s.open + s.standard;
    if s.open != [] {
      assert s.open[1..] + s.standard == rs[1..];
    }
  }

  /** The calls a handler caller makes for the pending records `rs`, started without cancellation. */
  function CallerLog(rs: seq<Record>, item: Record -> ItemOutcome): seq<Event> {
    if rs == [] then []
    else
      [ItemCalled(rs[0])] +
      match item(rs[0])
      case Continue => CallerLog(rs[1..], item)
      case Stop => []
      case Throws => [ErrorCalled(ItemThrewMessage)]
  }

  /** Cancellation follows exactly when Item does not ask to continue for some pending record. */
  lemma {:induction false} CalledOutcome(s: Snapshot, item: Record -> ItemOutcome)
    requires !s.cancelled
    ensures var t := Called(s, item);
      && t.cancelled == (StopAt(s.open + s.standard, item) < |s.open + s.standard|)
      && (!t.cancelled ==> t.open == [] && t.standard == [])
    decreases |s.open| + |s.standard|
  {
    if s.open != [] || s.standard != [] {
      CallerStepOutcome(s, item);
      if item((s.open + s.standard)[0]) == Continue {
        CalledOutcome(CallerStep(s, item), item);
      }
    }
  }

  /** The handler caller's calls on the handler, appended to the log. */
  lemma {:induction false} CalledLog(s: Snapshot, item: Record -> ItemOutcome)
    requires !s.cancelled
    ensures Called(s, item).log == s.log + CallerLog(s.open + s.standard, item)
    decreases |s.open| + |s.standard|
  {
    var rs := s.open + s.standard;
    if rs == [] {
      assert s.open == [] && s.standard == [];
      assert s.log + [] == s.log;
    } else {
      CallerStepOutcome(s, item);
      if item(rs[0]) == Continue {
        CalledLog(CallerStep(s, item), item);
        assert (s.log + [ItemCalled(rs[0])]) + CallerLog(rs[1..], item) == s.log + CallerLog(rs, item);
      }
    }
  }

  /**
   * The calls spelled out: Item for every record up to and including the
   * first one for which Item does not ask to continue, then the error if
   * that one threw.
   */
  lemma {:induction false} CallerLogIs(rs: seq<Record>, item: Record -> ItemOutcome)
    ensures var k := StopAt(rs, item);
      CallerLog(rs, item) == ItemEvents(rs[..if k < |rs| then k + 1 else k])
        + (if k < |rs| && item(rs[k]) == Throws then [ErrorCalled(ItemThrewMessage)] else [])
  {
    if rs == [] {
      assert rs[..0] == [];
    } else if item(rs[0]) == Continue {
      CallerLogIs(rs[1..], item);
      var k := StopAt(rs, item);
      assert k == StopAt(rs[1..], item) + 1;
      assert k < |rs| ==> rs[k] == rs[1..][k - 1];
      CallerLogContinue(rs, item, if k < |rs| then k + 1 else k,
                        if k < |rs| && item(rs[k]) == Throws then [ErrorCalled(ItemThrewMessage)] else []);
    } else {
      ItemEventsCons(rs, 1);
      assert ItemEvents(rs[1..][..0]) == [];
    }
  }

  /** The inductive step of CallerLogIs: a first record after which Item asks to continue adds its Item call in front. */
  lemma CallerLogContinue(rs: seq<Record>, item: Record -> ItemOutcome, m: nat, e: seq<Event>)
    requires rs != [] && item(rs[0]) == Continue && 1 <= m <= |rs|
    requires CallerLog(rs[1..], item) == ItemEvents(rs[1..][..m - 1]) + e
    ensures CallerLog(rs, item) == ItemEvents(rs[..m]) + e
  {
    assert CallerLog(rs, item) == [ItemCalled(rs[0])] + CallerLog(rs[1..], item);
    ItemEventsCons(rs, m);
    AppendAssoc([ItemCalled(rs[0])], ItemEvents(rs[1..][..m - 1]), e);
  }

  // ---------------------------------------------------------------------
  // The calls the workers make on the handler
  // ---------------------------------------------------------------------

  /** `b` extends `a` by Item and Error calls only. */
  predicate Grows(a: seq<Event>, b: seq<Event>) {
    |a| <= |b| && b[..|a|] == a && MidRun(b[|a|..])
  }

  lemma GrowsTrans(a: seq<Event>, b: seq<Event>, c: seq<Event>)
    requires Grows(a, b) && Grows(b, c)
    ensures Grows(a, c)
  {
    assert c[|a|..] == b[|a|..] + c[|b|..];
  }

  lemma GrowsBy(a: seq<Event>, more: seq<Event>)
    requires MidRun(more)
    ensures Grows(a, a + more)
  {
    assert (a + more)[|a|..] == more;
  }

  lemma ReportedGrows(s: Snapshot, m: string)
    ensures Grows(s.log, Reported(s, m).log)
  {
    GrowsBy(s.log, if s.cancelled then [] else [ErrorCalled(m)]);
    assert s.log + [] == s.log;
  }

  lemma FetchersGrow(s: Snapshot, blocks: seq<FetchResult>, from: nat, n: nat)
    ensures Grows(s.log, Fetchers(s, blocks, from, n).0.log)
    decreases n
  {
    GrowsBy(s.log, []);
    assert s.log + [] == s.log;
    if n > 0 && !s.cancelled {
      var f := FetchFrom(blocks, from);
      var u := FetcherEffect(s, f);
      ReportedGrows(s.(standard := s.standard + Select(f.records, s.ids, false),
                       streaming := s.streaming + Select(f.records, s.ids, true),
                       fetched := s.fetched + IdsOf(f.records)), FetchFailedMessage);
      FetchersGrow(u, blocks, from + f.calls, n - 1);
      GrowsTrans(s.log, u.log, Fetchers(u, blocks, from + f.calls, n - 1).0.log);
    }
  }

  lemma StreamerGrows(s: Snapshot, streamFails: (int, nat) -> bool)
    requires InRange(s.ids, s.fieldCount) && Shaped(s.streaming, s.fieldCount)
    ensures Grows(s.log, StreamerEffect(s, streamFails).log)
  {
    GrowsBy(s.log, []);
    assert s.log + [] == s.log;
    if !s.cancelled {
      var p := PassOver(s.streaming, s.ids, streamFails, s.next);
      ReportedGrows(s.(streaming := p.rest, open := s.open + p.accepted, handles := s.handles + Range(s.next, p.good),
                       next := p.next), StreamFailedMessage);
    }
  }

  lemma StreamersGrow(s: Snapshot, streamFails: (int, nat) -> bool, n: nat)
    requires InRange(s.ids, s.fieldCount) && Shaped(s.streaming, s.fieldCount)
    ensures Grows(s.log, Streamers(s, streamFails, n).log)
    decreases n
  {
    GrowsBy(s.log, []);
    assert s.log + [] == s.log;
    if n > 0 {
      var u := StreamerEffect(s, streamFails);
      StreamerGrows(s, streamFails);
      StreamersGrow(u, streamFails, n - 1);
      GrowsTrans(s.log, u.log, Streamers(u, streamFails, n - 1).log);
    }
  }

  lemma CallersGrow(s: Snapshot, item: Record -> ItemOutcome, n: nat)
    ensures Grows(s.log, Callers(s, item, n).log)
  {
    GrowsBy(s.log, []);
    assert s.log + [] == s.log;
    if n >= 1 {
      CallersAfterFirst(s, item, n);
      if !s.cancelled {
        CalledLog(s, item);
        CallerLogMidRun(s.open + s.standard, item);
        GrowsBy(s.log, CallerLog(s.open + s.standard, item));
      }
    }
  }

  lemma {:induction false} CallerLogMidRun(rs: seq<Record>, item: Record -> ItemOutcome)
    ensures MidRun(CallerLog(rs, item))
  {
    if rs != [] && item(rs[0]) == Continue {
      CallerLogMidRun(rs[1..], item);
    }
  }

  // ---------------------------------------------------------------------
  // A whole run
  // ---------------------------------------------------------------------

  /** The state once Before was called with the initialisation results. */
  function Started(results: InitResults): (s: Snapshot) {
    Snapshot(|results.fieldTypes|, LongTextIndices(results.fieldTypes), [], [], [], {}, 0,
             [BeforeCalled(results)], false, [])
  }

  lemma InvStarted(results: InitResults)
    ensures Invariant(Started(results))
  {
    var s := Started(results);
    ErrorsAppend([], BeforeCalled(results));
    assert s.log == [] + [BeforeCalled(results)];
  }

  /**
   * What the workers need of the state to be defined: ascending long-text
   * positions within the records, records of the right shape in every
   * queue, no stream yet in the stream queue, and every open stream issued.
   */
  predicate Ready(s: Snapshot) {
    && Ascending(s.ids) && InRange(s.ids, s.fieldCount)
    && Shaped(s.standard, s.fieldCount) && Shaped(s.streaming, s.fieldCount) && StreamFree(s.streaming, s.ids)
    && Shaped(s.open, s.fieldCount) && Below(s.handles, s.next)
  }

  lemma ReadyFetchers(s: Snapshot, blocks: seq<FetchResult>, from: nat, n: nat)
    requires Ready(s) && WellFormed(blocks, s.fieldCount)
    ensures Ready(Fetchers(s, blocks, from, n).0)
    decreases n
  {
    if n > 0 && !s.cancelled {
      var f := FetchFrom(blocks, from);
      FetchedWellFormed(blocks, from, s.fieldCount);
      RoutedShapes(f.records, s.fieldCount, s.ids);
      ReadyFetchers(FetcherEffect(s, f), blocks, from + f.calls, n - 1);
    }
  }

  lemma ReadyStreamer(s: Snapshot, streamFails: (int, nat) -> bool)
    requires Ready(s)
    ensures Ready(StreamerEffect(s, streamFails))
  {
    if !s.cancelled {
      PassBooks(s.streaming, s.ids, streamFails, s.next, s.fieldCount);
      var p := PassOver(s.streaming, s.ids, streamFails, s.next);
      assert forall r :: r in p.rest ==> r in s.streaming;
    }
  }

  lemma ReadyStreamers(s: Snapshot, streamFails: (int, nat) -> bool, n: nat)
    requires Ready(s)
    ensures Ready(Streamers(s, streamFails, n))
    decreases n
  {
    if n > 0 {
      ReadyStreamer(s, streamFails);
      ReadyStreamers(StreamerEffect(s, streamFails), streamFails, n - 1);
    }
  }

  /** The state once the fetchers, the text streamers and the handler callers have all been joined. */
  ghost function Workers(s: Snapshot, service: Service, handler: Handler, scaleFactor: nat): Snapshot
    requires Ready(s) && WellFormed(service.blocks, s.fieldCount)
  {
    var s1 := Fetchers(s, service.blocks, 0, scaleFactor).0;
    ReadyFetchers(s, service.blocks, 0, scaleFactor);
    var s2 := Streamers(s1, service.streamFails, scaleFactor);
    Callers(s2, handler.item, HandlerCallerCount(scaleFactor, handler.threadSafe))
  }

  /**
   * The state when After is about to be called: a Before that throws is
   * reported as an unexpected error and no worker is started.
   */
  ghost function Joined(results: InitResults, service: Service, handler: Handler, scaleFactor: nat): Snapshot
    requires WellFormed(service.blocks, |results.fieldTypes|)
  {
    var s := Started(results);
    if handler.beforeThrows then Reported(s, UnexpectedMessage) else Workers(s, service, handler, scaleFactor)
  }

  /**
   * The guarantees of a run that got past initialisation: the invariant
   * holds when After is called; Before comes first and only Item and Error
   * calls follow it; Error was called at most once; and a run that was not
   * cancelled handed every fetched record to Item exactly once, left every
   * queue empty and every stream closed.
   */
  lemma RunGuarantees(results: InitResults, service: Service, handler: Handler, scaleFactor: nat)
    requires WellFormed(service.blocks, |results.fieldTypes|)
    ensures var t := Joined(results, service, handler, scaleFactor);
      && Invariant(t)
      && |t.log| >= 1 && t.log[0] == BeforeCalled(results) && MidRun(t.log[1..])
      && |Errors(t.log)| <= 1
      && (!t.cancelled ==>
            && t.standard == [] && t.streaming == [] && t.open == [] && t.handles == {}
            && multiset(Delivered(t.log)) == multiset(t.fetched))
  {
    var s := Started(results);
    InvStarted(results);
    var t := Joined(results, service, handler, scaleFactor);
    if handler.beforeThrows {
      InvReported(s, UnexpectedMessage);
      ReportedGrows(s, UnexpectedMessage);
    } else {
      InvFetchers(s, service.blocks, 0, scaleFactor);
      FetchersGrow(s, service.blocks, 0, scaleFactor);
      var s1 := Fetchers(s, service.blocks, 0, scaleFactor).0;
      InvStreamers(s1, service.streamFails, scaleFactor);
      StreamersGrow(s1, service.streamFails, scaleFactor);
      var s2 := Streamers(s1, service.streamFails, scaleFactor);
      var n := HandlerCallerCount(scaleFactor, handler.threadSafe);
      InvCallers(s2, handler.item, n);
      CallersGrow(s2, handler.item, n);
      GrowsTrans(s.log, s1.log, s2.log);
      GrowsTrans(s.log, s2.log, t.log);
      if !t.cancelled && n >= 1 {
        CallersAfterFirst(s2, handler.item, n);
        CalledOutcome(s2, handler.item);
      }
    }
    assert t.log[..1] == s.log;
  }

}
