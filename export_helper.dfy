/**
 * The export helper as an object: the fields a run assigns, the queues it
 * fills and empties, the streams it opens and closes, and the calls it makes
 * on the consumer's handler. Every worker method is proved against the
 * value-level effect of module ExportRun, and Run against the composition
 * of those effects, about which ExportRun.RunGuarantees states what a run
 * promises.
 */
module ExportHelper {
  import opened Wrappers
  import opened Records
  import opened ExportRun
  import opened Query

  class ExportApiHelper {
    const relativityUrl: string
    const credentials: Credentials
    const workspaceId: int
    const blockSize: int
    const queryRequest: QueryRequest
    const scaleFactor: nat

    var runId: int
    var recordCount: int
    var fieldTypes: seq<FieldType>
    var longTextIds: seq<nat>

    var cancelled: bool
    var log: seq<Event>
    var trace: seq<Phase>

    var standardQueue: seq<Record>
    var streamQueue: seq<Record>
    var openStreamQueue: seq<Record>
    var standardCompleted: bool
    var streamCompleted: bool
    var openStreamCompleted: bool

    var openHandles: set<Handle>
    var nextHandle: Handle
    var fetchCalls: nat
    /** The artifact ids of all records the fetchers received, in order. */
    ghost var fetched: seq<int>

    /** The state of a helper that has not run yet. */
    ghost predicate Initial()
      reads this
    {
      && fieldTypes == [] && longTextIds == [] && !cancelled && log == [] && trace == []
      && standardQueue == [] && streamQueue == [] && openStreamQueue == []
      && !standardCompleted && !streamCompleted && !openStreamCompleted
      && openHandles == {} && nextHandle == 0 && fetchCalls == 0 && fetched == []
    }

    /** The helper's state as the run model sees it. */
    ghost function Snap(): Snapshot
      reads this
    {
      Snapshot(|fieldTypes|, longTextIds, standardQueue, streamQueue, openStreamQueue,
               openHandles, nextHandle, log, cancelled, fetched)
    }

    /** A helper that has not run, holding what it was created with (see module Config). */
    constructor (relativityUrl: string, credentials: Credentials, workspaceId: int, blockSize: int,
                 queryRequest: QueryRequest, scaleFactor: nat)
      ensures this.relativityUrl == relativityUrl && this.credentials == credentials
      ensures this.workspaceId == workspaceId && this.blockSize == blockSize
      ensures this.queryRequest == queryRequest && this.scaleFactor == scaleFactor
      ensures Initial()
    {
      this.relativityUrl := relativityUrl;
      this.credentials := credentials;
      this.workspaceId := workspaceId;
      this.blockSize := blockSize;
      this.queryRequest := queryRequest;
      this.scaleFactor := scaleFactor;
      fieldTypes, longTextIds := [], [];
      cancelled, log, trace := false, [], [];
      standardQueue, streamQueue, openStreamQueue := [], [], [];
      standardCompleted, streamCompleted, openStreamCompleted := false, false, false;
      openHandles, nextHandle, fetchCalls := {}, 0, 0;
      fetched := [];
    }

    /** Report an error to the handler unless cancellation was already requested, then cancel. */
    method SendErrorAndCancel(message: string)
      modifies this`log, this`cancelled
      ensures Snap() == Reported(old(Snap()), message)
      ensures Control(cancelled, Errors(log)) == Step(Control(old(cancelled), Errors(old(log))), Report(message))
    {
      if !cancelled {
        ErrorsAppend(log, ErrorCalled(message));
        log := log + [ErrorCalled(message)];
        cancelled := true;
      }
    }

    /** Close every stream found at the record's long-text positions. */
    method CloseOpenStreamsInRos(values: seq<Value>)
      requires InRange(longTextIds, |values|)
      modifies this`openHandles
      ensures openHandles == old(openHandles) - StreamsAt(values, longTextIds)
    {
      for k := 0 to |longTextIds|
        invariant openHandles == old(openHandles) - StreamsAt(values, longTextIds[..k])
      {
        StreamsAtSnoc(values, longTextIds, k);
        match values[longTextIds[k]]
        case Stream(h) => openHandles := openHandles - {h};
        case _ =>
      }
      assert longTextIds[..|longTextIds|] == longTextIds;
    }

    /**
     * One block fetcher. It asks for blocks until an answer is null, empty or
     * a failure, and routes every record of every block; a failure is
     * reported, which cancels the run. A fetcher started after cancellation
     * does nothing.
     */
    method BlockConsumer(blocks: seq<FetchResult>)
      requires InRange(longTextIds, |fieldTypes|) && WellFormed(blocks, |fieldTypes|)
      modifies this`fetchCalls, this`standardQueue, this`streamQueue, this`fetched, this`log, this`cancelled
      ensures (Snap(), fetchCalls) == FetcherNext(old(Snap()), blocks, old(fetchCalls))
    {
      if !cancelled {
        ghost var s := Snap();
        var standard, streaming, received, calls, failed := FetchBlocks(blocks, fetchCalls, longTextIds, |fieldTypes|);
        standardQueue := standardQueue + standard;
        streamQueue := streamQueue + streaming;
        fetched := fetched + IdsOf(received);
        fetchCalls := fetchCalls + calls;
        assert Snap() == s.(standard := s.standard + Select(received, s.ids, false),
                            streaming := s.streaming + Select(received, s.ids, true),
                            fetched := s.fetched + IdsOf(received));
        if failed {
          SendErrorAndCancel(FetchFailedMessage);
        }
      }
    }

    /**
     * One text streamer, started once the stream queue is complete. It opens
     * the streams of the queued records, in order, until an opening fails;
     * then it closes the streams already placed in the failing record and
     * reports the failure. A streamer started after cancellation takes one
     * record, drops it and stops. After cancellation it completes the
     * open-stream queue and closes the streams of every record left in it.
     */
    method TextStreamer(streamFails: (int, nat) -> bool)
      requires Ready(Snap())
      modifies this`streamQueue, this`openStreamQueue, this`openHandles, this`nextHandle, this`log, this`cancelled,
               this`openStreamCompleted
      ensures Snap() == StreamerEffect(old(Snap()), streamFails)
      ensures openStreamCompleted == (old(openStreamCompleted) || cancelled)
    {
      if cancelled {
        if streamQueue != [] {
          streamQueue := streamQueue[1..];
        }
      } else {
        StreamQueued(streamFails);
      }
      if cancelled {
        openStreamCompleted := true;
        CloseQueuedStreams();
      }
    }

    /**
     * A text streamer's loop over the stream queue, started without
     * cancellation: each record, streams opened, moves to the open-stream
     * queue, until an opening fails.
     */
    method StreamQueued(streamFails: (int, nat) -> bool)
      requires !cancelled && Ascending(longTextIds) && InRange(longTextIds, |fieldTypes|)
      requires Shaped(streamQueue, |fieldTypes|) && StreamFree(streamQueue, longTextIds)
      requires Shaped(openStreamQueue, |fieldTypes|) && Below(openHandles, nextHandle)
      modifies this`streamQueue, this`openStreamQueue, this`openHandles, this`nextHandle, this`log, this`cancelled
      ensures Snap() == StreamPass(old(Snap()), streamFails)
      ensures Shaped(openStreamQueue, |fieldTypes|)
    {
      PassBooks(streamQueue, longTextIds, streamFails, nextHandle, |fieldTypes|);
      var accepted, partial, rest, good, next', failed :=
        OpenQueueStreams(streamQueue, longTextIds, streamFails, nextHandle, |fieldTypes|);
      if failed {
        StreamFailed(accepted, partial, rest, good, next');
      } else {
        StreamsCommitted(accepted, rest, next');
      }
    }

    /** Every opening succeeded: the accepted records move to the open-stream queue. */
    method StreamsCommitted(accepted: seq<Record>, rest: seq<Record>, next': Handle)
      modifies this`streamQueue, this`openStreamQueue, this`openHandles, this`nextHandle
      ensures Snap() == old(Snap()).(streaming := rest, open := old(openStreamQueue) + accepted,
                                     handles := old(openHandles) + Range(old(nextHandle), next'), next := next')
    {
      streamQueue, openStreamQueue := rest, openStreamQueue + accepted;
      openHandles, nextHandle := openHandles + Range(nextHandle, next'), next';
    }

    /**
     * A failed opening: the records accepted before it move to the
     * open-stream queue, the streams already placed in the failing record
     * are closed and the failure is reported.
     */
    method StreamFailed(accepted: seq<Record>, partial: Record, rest: seq<Record>, good: Handle, next': Handle)
      requires Below(openHandles, nextHandle) && nextHandle <= good <= next'
      requires InRange(longTextIds, |partial.values|) && StreamsAt(partial.values, longTextIds) == Range(good, next')
      modifies this`streamQueue, this`openStreamQueue, this`openHandles, this`nextHandle, this`log, this`cancelled
      ensures Snap() == Reported(old(Snap()).(streaming := rest, open := old(openStreamQueue) + accepted,
                                              handles := old(openHandles) + Range(old(nextHandle), good),
                                              next := next'), StreamFailedMessage)
    {
      ghost var kept := openHandles + Range(nextHandle, good);
      CloseLast(openHandles, nextHandle, good, next');
      streamQueue, openStreamQueue := rest, openStreamQueue + accepted;
      openHandles, nextHandle := openHandles + Range(nextHandle, next'), next';
      CloseOpenStreamsInRos(partial.values);
      assert openHandles == kept;
      assert Snap() == old(Snap()).(streaming := rest, open := old(openStreamQueue) + accepted, handles := kept, next := next');
      SendErrorAndCancel(StreamFailedMessage);
    }

    /** After cancellation, empty the open-stream queue, closing the streams of every record in it. */
    method CloseQueuedStreams()
      requires InRange(longTextIds, |fieldTypes|) && Shaped(openStreamQueue, |fieldTypes|)
      modifies this`openStreamQueue, this`openHandles
      ensures Snap() == Drained(old(Snap()))
    {
      while openStreamQueue != []
        invariant Shaped(openStreamQueue, |fieldTypes|)
        invariant openHandles - QueueStreams(openStreamQueue, longTextIds)
               == old(openHandles) - QueueStreams(old(openStreamQueue), longTextIds)
        decreases |openStreamQueue|
      {
        var r := openStreamQueue[0];
        openStreamQueue := openStreamQueue[1..];
        CloseOpenStreamsInRos(r.values);
      }
    }

    /**
     * One step of a handler caller: take a record, from the open-stream queue
     * first, hand it to Item, close its streams whatever Item did, report a
     * throw, and cancel unless Item returned true.
     */
    method CallItem(item: Record -> ItemOutcome)
      requires openStreamQueue != [] || standardQueue != []
      requires InRange(longTextIds, |fieldTypes|) && Shaped(openStreamQueue, |fieldTypes|) && Shaped(standardQueue, |fieldTypes|)
      modifies this`openStreamQueue, this`standardQueue, this`openHandles, this`log, this`cancelled
      ensures Snap() == CallerStep(old(Snap()), item)
    {
      ghost var s := Snap();
      var r;
      if openStreamQueue != [] {
        r := openStreamQueue[0];
        openStreamQueue := openStreamQueue[1..];
      } else {
        r := standardQueue[0];
        standardQueue := standardQueue[1..];
      }
      log := log + [ItemCalled(r)];
      ghost var d := Snap().(handles := s.handles - StreamsAt(r.values, s.ids));
      var outcome := item(r);
      if outcome == Throws {
        SendErrorAndCancel(ItemThrewMessage);
      }
      CloseOpenStreamsInRos(r.values);
      if outcome != Continue {
        cancelled := true;
      }
      assert Snap() == match outcome
        case Continue => d
        case Stop => d.(cancelled := true)
        case Throws => Reported(d, ItemThrewMessage);
    }

    /**
     * One handler caller: until cancellation is requested, hand records to
     * Item until both the open-stream queue and the standard queue are
     * completed and empty.
     */
    method HandlerCaller(item: Record -> ItemOutcome)
      requires openStreamCompleted && standardCompleted
      requires InRange(longTextIds, |fieldTypes|) && Shaped(openStreamQueue, |fieldTypes|) && Shaped(standardQueue, |fieldTypes|)
      modifies this`openStreamQueue, this`standardQueue, this`openHandles, this`log, this`cancelled
      ensures Snap() == Called(old(Snap()), item)
      ensures Shaped(openStreamQueue, |fieldTypes|) && Shaped(standardQueue, |fieldTypes|)
    {
      var done := false;
      while !done && !cancelled
        invariant Called(Snap(), item) == Called(old(Snap()), item)
        invariant done ==> openStreamQueue == [] && standardQueue == []
        invariant Shaped(openStreamQueue, |fieldTypes|) && Shaped(standardQueue, |fieldTypes|)
        decreases |openStreamQueue| + |standardQueue|, !done
      {
        if openStreamQueue == [] && standardQueue == [] {
          done := true;
        } else {
          CallItem(item);
        }
      }
    }

    /** The block fetchers, started together and joined; modelled one after the other. */
    method RunFetchers(blocks: seq<FetchResult>)
      requires InRange(longTextIds, |fieldTypes|) && WellFormed(blocks, |fieldTypes|)
      modifies this`fetchCalls, this`standardQueue, this`streamQueue, this`fetched, this`log, this`cancelled
      ensures (Snap(), fetchCalls) == Fetchers(old(Snap()), blocks, old(fetchCalls), scaleFactor)
    {
      ghost var s0, from0 := Snap(), fetchCalls;
      for i := 0 to scaleFactor
        invariant (Snap(), fetchCalls) == Fetchers(s0, blocks, from0, i)
      {
        FetchersSnoc(s0, blocks, from0, i);
        BlockConsumer(blocks);
      }
    }

    /** The text streamers, started together and joined; modelled one after the other. */
    method RunStreamers(streamFails: (int, nat) -> bool)
      requires Ready(Snap()) && streamCompleted
      modifies this`streamQueue, this`openStreamQueue, this`openHandles, this`nextHandle, this`log, this`cancelled,
               this`openStreamCompleted
      ensures Snap() == Streamers(old(Snap()), streamFails, scaleFactor)
    {
      ghost var s0 := Snap();
      for i := 0 to scaleFactor
        invariant Ready(Snap()) && Snap() == Streamers(s0, streamFails, i)
      {
        ghost var s := Snap();
        StreamersSnoc(s0, streamFails, i);
        TextStreamer(streamFails);
        ReadyStreamer(s, streamFails);
      }
    }

    /** The handler callers, started together and joined; modelled one after the other. */
    method RunHandlerCallers(item: Record -> ItemOutcome, count: nat)
      requires openStreamCompleted && standardCompleted
      requires InRange(longTextIds, |fieldTypes|) && Shaped(openStreamQueue, |fieldTypes|) && Shaped(standardQueue, |fieldTypes|)
      modifies this`openStreamQueue, this`standardQueue, this`openHandles, this`log, this`cancelled
      ensures Snap() == Callers(old(Snap()), item, count)
    {
      ghost var s0 := Snap();
      for i := 0 to count
        invariant Snap() == Callers(s0, item, i)
        invariant Shaped(openStreamQueue, |fieldTypes|) && Shaped(standardQueue, |fieldTypes|)
      {
        CallersSnoc(s0, item, i);
        HandlerCaller(item);
      }
    }

    /**
     * A run. Creating the service proxy or initialising the export may fail:
     * Error is called and the run returns, with neither Before nor After.
     * Otherwise the run records the initialisation results, computes the
     * long-text positions and calls Before. If Before throws, the failure is
     * reported as unexpected and no worker is started. Then the workers are
     * joined group by group, completing the queues they feed, and After is
     * called last, told whether the run finished without cancellation.
     */
    method Run(service: Service, handler: Handler)
      requires Initial()
      requires service.init.Some? ==> WellFormed(service.blocks, |service.init.value.fieldTypes|)
      modifies this
      ensures service.proxyFails ==>
        && Snap() == old(Snap()).(log := [ErrorCalled(ProxyFailedMessage)]) && !cancelled && trace == []
        && runId == old(runId) && recordCount == old(recordCount) && fieldTypes == old(fieldTypes)
        && fetchCalls == old(fetchCalls)
      ensures !service.proxyFails && service.init.None? ==>
        && Snap() == old(Snap()).(log := [ErrorCalled(InitFailedMessage)]) && !cancelled && trace == []
        && runId == old(runId) && recordCount == old(recordCount) && fieldTypes == old(fieldTypes)
        && fetchCalls == old(fetchCalls)
      ensures !service.proxyFails && service.init.Some? ==>
        var results := service.init.value;
        var t := Joined(results, service, handler, scaleFactor);
        && runId == results.runId && recordCount == results.recordCount && fieldTypes == results.fieldTypes
        && Snap() == t.(log := t.log + [AfterCalled(!t.cancelled)])
        && trace == (if handler.beforeThrows then []
                     else [WorkersStarted(scaleFactor, scaleFactor, HandlerCallerCount(scaleFactor, handler.threadSafe))])
                    + FetchSteps + StreamSteps + CallSteps
    {
      if service.proxyFails {
        log := log + [ErrorCalled(ProxyFailedMessage)];
        return;
      }
      if service.init.None? {
        log := log + [ErrorCalled(InitFailedMessage)];
        return;
      }
      Export(service.init.value, service, handler);
    }

    /** A run past initialisation: Before, the workers unless Before threw, and After. */
    method Export(results: InitResults, service: Service, handler: Handler)
      requires Initial() && WellFormed(service.blocks, |results.fieldTypes|)
      modifies this
      ensures var t := Joined(results, service, handler, scaleFactor);
        && runId == results.runId && recordCount == results.recordCount && fieldTypes == results.fieldTypes
        && Snap() == t.(log := t.log + [AfterCalled(!t.cancelled)])
        && trace == (if handler.beforeThrows then []
                     else [WorkersStarted(scaleFactor, scaleFactor, HandlerCallerCount(scaleFactor, handler.threadSafe))])
                    + FetchSteps + StreamSteps + CallSteps
    {
      Initialise(results);
      Finish(service, handler);
    }

    /** Go on from Before to the end of the run: proceed, then call After with the outcome. */
    method Finish(service: Service, handler: Handler)
      requires Ready(Snap()) && WellFormed(service.blocks, |fieldTypes|) && fetchCalls == 0 && trace == []
      modifies this`fetchCalls, this`standardQueue, this`streamQueue, this`fetched, this`log, this`cancelled,
               this`openStreamQueue, this`openHandles, this`nextHandle, this`trace,
               this`standardCompleted, this`streamCompleted, this`openStreamCompleted
      ensures var t := if handler.beforeThrows then Reported(old(Snap()), UnexpectedMessage)
                       else Workers(old(Snap()), service, handler, scaleFactor);
        Snap() == t.(log := t.log + [AfterCalled(!t.cancelled)])
      ensures trace == (if handler.beforeThrows then []
                        else [WorkersStarted(scaleFactor, scaleFactor, HandlerCallerCount(scaleFactor, handler.threadSafe))])
                       + FetchSteps + StreamSteps + CallSteps
    {
      ghost var started: seq<Phase> := if handler.beforeThrows then []
        else [WorkersStarted(scaleFactor, scaleFactor, HandlerCallerCount(scaleFactor, handler.threadSafe))];
      Proceed(service, handler);
      assert [] + started == started;
      CallAfter();
    }

    /** If Before threw, report the failure and shut down; otherwise run the workers. */
    method Proceed(service: Service, handler: Handler)
      requires Ready(Snap()) && WellFormed(service.blocks, |fieldTypes|) && fetchCalls == 0
      modifies this`fetchCalls, this`standardQueue, this`streamQueue, this`fetched, this`log, this`cancelled,
               this`openStreamQueue, this`openHandles, this`nextHandle, this`trace,
               this`standardCompleted, this`streamCompleted, this`openStreamCompleted
      ensures Snap() == if handler.beforeThrows then Reported(old(Snap()), UnexpectedMessage)
                        else Workers(old(Snap()), service, handler, scaleFactor)
      ensures trace == old(trace)
                       + (if handler.beforeThrows then []
                          else [WorkersStarted(scaleFactor, scaleFactor, HandlerCallerCount(scaleFactor, handler.threadSafe))])
                       + FetchSteps + StreamSteps + CallSteps
    {
      if handler.beforeThrows {
        SendErrorAndCancel(UnexpectedMessage);
        ShutDown();
      } else {
        RunWorkers(service, handler);
      }
    }

    /** Record the initialisation results, compute the long-text positions and call Before. */
    method Initialise(results: InitResults)
      requires Initial()
      modifies this`runId, this`recordCount, this`fieldTypes, this`longTextIds, this`log
      ensures runId == results.runId && recordCount == results.recordCount && fieldTypes == results.fieldTypes
      ensures Snap() == Started(results) && Ready(Snap()) && fetchCalls == 0
    {
      runId, recordCount, fieldTypes := results.runId, results.recordCount, results.fieldTypes;
      longTextIds := ComputeLongTextIds(fieldTypes);
      log := log + [BeforeCalled(results)];
    }

    /** Call After, telling the handler whether the run ended without cancellation. */
    method CallAfter()
      modifies this`log
      ensures log == old(log) + [AfterCalled(!cancelled)]
    {
      log := log + [AfterCalled(!cancelled)];
    }

    /** The joins and queue completions, with no worker started. */
    method ShutDown()
      modifies this`trace, this`standardCompleted, this`streamCompleted, this`openStreamCompleted
      ensures trace == old(trace) + FetchSteps + StreamSteps + CallSteps
    {
      FetchersJoin();
      StreamersJoin();
      Joins(HandlerCallersJoined);
    }

    /** The fetchers are joined; no more records are added to the standard and stream queues. */
    method FetchersJoin()
      modifies this`trace, this`standardCompleted, this`streamCompleted
      ensures standardCompleted && streamCompleted && trace == old(trace) + FetchSteps
    {
      standardCompleted, streamCompleted := true, true;
      trace := trace + FetchSteps;
    }

    /** The streamers are joined; no more records are added to the open-stream queue. */
    method StreamersJoin()
      modifies this`trace, this`openStreamCompleted
      ensures openStreamCompleted && trace == old(trace) + StreamSteps
    {
      openStreamCompleted := true;
      trace := trace + StreamSteps;
    }

    /** Record an orchestration step. */
    method Joins(step: Phase)
      modifies this`trace
      ensures trace == old(trace) + [step]
    {
      trace := trace + [step];
    }

    /** The block fetchers, joined; then the standard and stream queues are completed. */
    method FetchPhase(blocks: seq<FetchResult>)
      requires Ready(Snap()) && WellFormed(blocks, |fieldTypes|) && fetchCalls == 0
      modifies this`fetchCalls, this`standardQueue, this`streamQueue, this`fetched, this`log, this`cancelled,
               this`trace, this`standardCompleted, this`streamCompleted
      ensures Snap() == Fetchers(old(Snap()), blocks, 0, scaleFactor).0 && Ready(Snap())
      ensures standardCompleted && streamCompleted
      ensures trace == old(trace) + FetchSteps
    {
      ghost var s0 := Snap();
      RunFetchers(blocks);
      ReadyFetchers(s0, blocks, 0, scaleFactor);
      FetchersJoin();
    }

    /** The text streamers, joined; then the open-stream queue is completed. */
    method StreamPhase(streamFails: (int, nat) -> bool)
      requires Ready(Snap()) && streamCompleted
      modifies this`streamQueue, this`openStreamQueue, this`openHandles, this`nextHandle, this`log, this`cancelled,
               this`trace, this`openStreamCompleted
      ensures Snap() == Streamers(old(Snap()), streamFails, scaleFactor) && Ready(Snap())
      ensures openStreamCompleted
      ensures trace == old(trace) + StreamSteps
    {
      ghost var s0 := Snap();
      RunStreamers(streamFails);
      ReadyStreamers(s0, streamFails, scaleFactor);
      StreamersJoin();
    }

    /** The handler callers, joined. */
    method CallPhase(item: Record -> ItemOutcome, count: nat)
      requires openStreamCompleted && standardCompleted && Ready(Snap())
      modifies this`openStreamQueue, this`standardQueue, this`openHandles, this`log, this`cancelled, this`trace
      ensures Snap() == Callers(old(Snap()), item, count)
      ensures trace == old(trace) + CallSteps
    {
      RunHandlerCallers(item, count);
      Joins(HandlerCallersJoined);
    }

    /**
     * Start the workers and join them group by group: the block fetchers;
     * then, the standard and stream queues completed, the text streamers;
     * then, the open-stream queue completed, the handler callers.
     */
    method RunWorkers(service: Service, handler: Handler)
      requires Ready(Snap()) && WellFormed(service.blocks, |fieldTypes|) && fetchCalls == 0
      modifies this`fetchCalls, this`standardQueue, this`streamQueue, this`fetched, this`log, this`cancelled,
               this`openStreamQueue, this`openHandles, this`nextHandle, this`trace,
               this`standardCompleted, this`streamCompleted, this`openStreamCompleted
      ensures Snap() == Workers(old(Snap()), service, handler, scaleFactor)
      ensures trace == old(trace) + [WorkersStarted(scaleFactor, scaleFactor, HandlerCallerCount(scaleFactor, handler.threadSafe))]
                       + FetchSteps + StreamSteps + CallSteps
    {
      var callers := HandlerCallerCount(scaleFactor, handler.threadSafe);
      Joins(WorkersStarted(scaleFactor, scaleFactor, callers));
      FetchPhase(service.blocks);
      StreamPhase(service.streamFails);
      CallPhase(handler.item, callers);
    }
  }
}
