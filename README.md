# Export API helper, modelled in Dafny

The export API helper runs one Object Manager export over multi-threaded
workers and hands every exported record to a consumer's handler:

- **Block consumers** fetch blocks of records. A record with a long-text
  field that holds the sentinel `#KCURA99DF2F0FEB88420388879F1282A55760#`
  goes to the stream queue; every other record goes to the standard queue.
- **Text streamers** replace each sentinel by an opened long-text stream
  and move the record to the open-stream queue.
- **Handler callers** call the handler's `Item` on the records of the
  open-stream and standard queues. Afterwards they close the record's
  streams.
- Any failure goes through one guarded "report once, then cancel" action,
  `SendErrorAndCancel`.
- The run calls `Before` after initialisation and `After(complete)` at the
  end.
- A configuration object validates the settings and creates the helper.
- The sample's hash collector sums MD5 digests into sixteen 64-bit totals,
  so the final hash does not depend on the order of the items.

How the modules map onto the source:

- `Records` holds the per-record logic: the sentinel, the long-text
  positions, routing, and sentinel replacement.
- `ExportRun` holds the value-level effect of every worker and of the whole
  run, and the run invariant. The invariant says:
  - each queue holds records of its kind;
  - the open streams are exactly those of the open-stream queue, and no two
    records share one;
  - every record handed to `Item` is clean;
  - `Error` is called at most once, and only together with cancellation;
  - without cancellation, every fetched record is in a queue or was
    delivered, exactly once.
- `ExportHelper.ExportApiHelper` is the helper as a class. Its worker
  methods update the queues, the open handles and the handler log in place.
  Each is proved against the matching `ExportRun` function.
- `Config` holds the configuration and `Create`.
- `Hashing` holds the hash collector as a class over a totals array and a
  read buffer.

Concurrency is modelled as one interleaving: all block consumers, then all
text streamers, then all handler callers. That is the order in which `Run`
joins them. The program can run that schedule only while no queue fills up.
The open-stream queue holds 10 records, so on a run with more records that
need streams, the streamers wait for a handler caller to take one.

The remote service and the handler are parameters, given as datatypes of
answers and outcomes:

- the proxy creation, the initialisation results, the answer to each block
  call, and which stream openings fail;
- whether `Before` throws, whether the handler is thread safe, and what
  `Item` does with each record.

MD5 is a function parameter of the hash collector.

The code and its documentation disagree in one place, and the model follows
the code. The handler interface says `After` is called on every run. When
creating the service proxy or initialising the export fails, `Run` calls
`Error` directly and returns: `After` is not called and cancellation is not
requested. `ExportHelper.ExportApiHelper.Run` states exactly this.

## Model

| member | source | states |
|---|---|---|
| Records.LongTextIndices | ExportApiHelper/ExportApiHelper.cs:140-152 | the long-text ids are ascending field positions; each is a long-text field, and every long-text field is among them |
| Records.ComputeLongTextIds | ExportApiHelper/ExportApiHelper.cs:142-152 | the collecting loop yields exactly the long-text positions of the field list |
| Records.FindSentinel | ExportApiHelper/ExportApiHelper.cs:361-376 | the early-exit scan reports a stream exactly when some long-text position holds the sentinel |
| Records.SelectMembers | ExportApiHelper/ExportApiHelper.cs:378-393 | a record lands in the stream queue iff it is in the block and holds a sentinel, in the standard queue iff it is in the block and holds none |
| Records.RoutePartition | ExportApiHelper/ExportApiHelper.cs:359-394 | the two queues' shares of a block together are the block, as a multiset: nothing lost, nothing duplicated |
| Records.RouteAppend | ExportApiHelper/ExportApiHelper.cs:357-394 | routing two blocks one after the other appends their shares: block order is kept within each queue |
| Records.RouteSingle | ExportApiHelper/ExportApiHelper.cs:378-393 | a single record goes to exactly one queue, chosen by the sentinel test |
| Records.OpenAllKeeps | ExportApiHelper/ExportApiHelper.cs:245-255 | replacing sentinels leaves every value that is not a sentinel at a long-text position unchanged |
| Records.OpenAllReplaces | ExportApiHelper/ExportApiHelper.cs:245-255 | the sentinel at each long-text position becomes its own stream, numbered by the sentinels before it |
| Records.OpenAllNext | ExportApiHelper/ExportApiHelper.cs:245-255 | one stream is opened per sentinel at a long-text position |
| Records.NoSentinelRemains | ExportApiHelper/ExportApiHelper.cs:245-255 | once a record's streams are opened, no long-text position holds the sentinel |
| Records.StreamsAtPlace | ExportApiHelper/ExportApiHelper.cs:253 | placing a stream over a non-stream value adds exactly that stream to the record's streams |
| ExportRun.FirstSignalDecides | ExportApiHelper/ExportApiHelper.cs:411-421 | whatever the workers signal, in any order: cancellation follows any signal, and Error is called once with the first message if the first signal is a report, never otherwise |
| ExportRun.OpenStreams | ExportApiHelper/ExportApiHelper.cs:241-265 | the streamer's inner scan succeeds iff no sentinel opening fails; on success the values are those with all sentinels replaced; either way the record holds exactly the streams opened for it, and on failure the scan stops at the failing position |
| ExportRun.OpenAllStreams | ExportApiHelper/ExportApiHelper.cs:245-255 | the streams a record holds after replacement are exactly the handles issued for it |
| ExportRun.FirstFailing | ExportApiHelper/ExportApiHelper.cs:237-265 | the position of the first queued record whose opening fails; every record before it opens all its streams |
| ExportRun.OpenQueueStreams | ExportApiHelper/ExportApiHelper.cs:237-272 | one streamer's loop accepts every record before the first failing one, streams opened in order, drops the failing one and leaves the rest queued; the failing record holds exactly the streams opened before the failure |
| ExportRun.PassBooks | ExportApiHelper/ExportApiHelper.cs:237-272 | the accepted records hold exactly the streams issued for them, none shared and no sentinel left; the rest of the queue is a suffix |
| ExportRun.OpenQueueIds | ExportApiHelper/ExportApiHelper.cs:241-269 | opening streams keeps every record's artifact id, in queue order |
| ExportRun.RouteRecords | ExportApiHelper/ExportApiHelper.cs:359-394 | the routing loop over a block yields exactly the block's standard and stream shares |
| ExportRun.FetchBlocks | ExportApiHelper/ExportApiHelper.cs:340-400 | one block consumer keeps calling while blocks are non-empty; it routes every record received and reports how many calls it made and whether the last one failed |
| ExportRun.FetchStops | ExportApiHelper/ExportApiHelper.cs:342-399 | a block consumer stops at the first answer that is null, empty or a failure; every earlier answer is a non-empty block, and it failed iff the last answer was a failure |
| ExportRun.RoutedShapes | ExportApiHelper/ExportApiHelper.cs:368-393 | standard-queue records hold neither sentinel nor stream; stream-queue records hold no stream |
| ExportRun.RoutePartitionIds | ExportApiHelper/ExportApiHelper.cs:359-394 | by artifact id, the two shares of a block together are the block |
| ExportRun.InvEnqueue | ExportApiHelper/ExportApiHelper.cs:357-394 | routing a fetched block onto the queues keeps the run invariant, with the block counted as fetched |
| ExportRun.InvFetcher | ExportApiHelper/ExportApiHelper.cs:338-401 | one block consumer, including its failure report, keeps the run invariant |
| ExportRun.InvFetchers | ExportApiHelper/ExportApiHelper.cs:158-165 | all block consumers, one after the other, keep the run invariant |
| ExportRun.InvReported | ExportApiHelper/ExportApiHelper.cs:411-421 | the guarded error report keeps the run invariant; Error stays single |
| ExportRun.InvStreamedAll | ExportApiHelper/ExportApiHelper.cs:237-272 | a streamer that opens every queued record's streams moves them to the open-stream queue and keeps the invariant |
| ExportRun.InvStreamStopped | ExportApiHelper/ExportApiHelper.cs:257-265 | a failed opening moves the accepted records to the open-stream queue, closes the failing record's streams, reports once, and keeps the invariant |
| ExportRun.InvDrained | ExportApiHelper/ExportApiHelper.cs:274-284 | after cancellation a streamer empties the open-stream queue and no opened stream is left open |
| ExportRun.StreamerEffect | ExportApiHelper/ExportApiHelper.cs:235-285 | a text streamer never undoes cancellation; without cancellation it leaves the stream queue empty |
| ExportRun.Streamers | ExportApiHelper/ExportApiHelper.cs:167-174 | the same after any number of streamers, once at least one ran |
| ExportRun.InvStreamer | ExportApiHelper/ExportApiHelper.cs:235-285 | one text streamer keeps the run invariant |
| ExportRun.InvStreamers | ExportApiHelper/ExportApiHelper.cs:167-174 | all text streamers keep the run invariant |
| ExportRun.AsWrittenAddCancelledLeaks | ExportApiHelper/ExportApiHelper.cs:245-284 | as written, a record whose streams were opened before another worker cancelled is dropped at the add, and the drain then leaves exactly its streams open, at least one |
| ExportRun.AddCancelledCloses | ExportApiHelper/ExportApiHelper.cs:257-284 | corrected by closing the dropped record's streams, the step keeps the run invariant and the drain leaves no stream open |
| ExportRun.CallerStep | ExportApiHelper/ExportApiHelper.cs:303-323 | one delivery takes exactly one record off the open-stream and standard queues and touches neither the stream queue nor the fetched ids |
| ExportRun.CallerStepOutcome | ExportApiHelper/ExportApiHelper.cs:303-323 | one delivery takes the front record, open-stream queue first; Item is called on it, Error follows iff Item threw, and cancellation follows iff Item did not answer true |
| ExportRun.InvDeliverOpen | ExportApiHelper/ExportApiHelper.cs:310-317 | delivering an open-stream record closes exactly its streams and keeps the invariant |
| ExportRun.InvDeliverStandard | ExportApiHelper/ExportApiHelper.cs:310-317 | a standard-queue record holds no stream, and delivering it keeps the invariant |
| ExportRun.InvCallerStep | ExportApiHelper/ExportApiHelper.cs:303-323 | one delivery keeps the run invariant |
| ExportRun.InvCalled | ExportApiHelper/ExportApiHelper.cs:287-326 | a handler caller keeps the run invariant |
| ExportRun.InvCallers | ExportApiHelper/ExportApiHelper.cs:180-187 | all handler callers keep the run invariant |
| ExportRun.CalledSettles | ExportApiHelper/ExportApiHelper.cs:292-298 | a handler caller ends with cancellation or with both of its queues empty |
| ExportRun.CalledOutcome | ExportApiHelper/ExportApiHelper.cs:287-326 | a handler caller cancels exactly when Item fails to answer true for some pending record; otherwise it drains both queues |
| ExportRun.CalledLog | ExportApiHelper/ExportApiHelper.cs:287-326 | a handler caller's calls on the handler, appended to the log |
| ExportRun.StopAt | ExportApiHelper/ExportApiHelper.cs:310-321 | the first pending record for which Item does not answer true; Item answers true for every record before it |
| ExportRun.CallerLogIs | ExportApiHelper/ExportApiHelper.cs:303-323 | Item is called on every pending record up to and including the first that does not answer true, then Error if that one threw, and nothing else |
| ExportRun.CallersAfterFirst | ExportApiHelper/ExportApiHelper.cs:180-187 | once the first handler caller finishes, the further ones deliver nothing more |
| ExportRun.CallerLogMidRun | ExportApiHelper/ExportApiHelper.cs:287-326 | a handler caller only calls Item and Error |
| ExportRun.FetchersGrow | ExportApiHelper/ExportApiHelper.cs:338-401 | block consumers only ever append Error calls to the log |
| ExportRun.StreamersGrow | ExportApiHelper/ExportApiHelper.cs:235-285 | text streamers only ever append Error calls to the log |
| ExportRun.CallersGrow | ExportApiHelper/ExportApiHelper.cs:287-326 | handler callers only ever append Item and Error calls to the log |
| ExportRun.InvStarted | ExportApiHelper/ExportApiHelper.cs:135-156 | the state after initialisation and Before satisfies the run invariant |
| ExportRun.RunGuarantees | ExportApiHelper/ExportApiHelper.cs:95-232 | after all workers are joined: the invariant holds; the log starts with Before, then has only Item and Error calls; Error was called at most once; without cancellation every queue is empty, every opened stream is closed, and every fetched record was delivered exactly once |
| ExportHelper.ExportApiHelper.constructor | ExportApiHelper/ExportApiHelper.cs:56-67 | the helper keeps the configured values and starts with no run, no calls and empty queues |
| ExportHelper.ExportApiHelper.SendErrorAndCancel | ExportApiHelper/ExportApiHelper.cs:411-421 | Error is called with the message only when cancellation was not requested yet; cancellation holds afterwards |
| ExportHelper.ExportApiHelper.CloseOpenStreamsInRos | ExportApiHelper/ExportApiHelper.cs:329-336 | exactly the streams held at the record's long-text positions are closed |
| ExportHelper.ExportApiHelper.BlockConsumer | ExportApiHelper/ExportApiHelper.cs:338-401 | the block consumer's effect on the queues, the log, cancellation and the service's call count is the value-level one of one fetcher |
| ExportHelper.ExportApiHelper.TextStreamer | ExportApiHelper/ExportApiHelper.cs:235-285 | the text streamer's effect is the value-level one of one streamer; the open-stream queue is completed when cancelled |
| ExportHelper.ExportApiHelper.StreamQueued | ExportApiHelper/ExportApiHelper.cs:237-272 | a streamer's pass over the stream queue without prior cancellation, as the value-level pass |
| ExportHelper.ExportApiHelper.StreamsCommitted | ExportApiHelper/ExportApiHelper.cs:267-271 | the accepted records are appended to the open-stream queue with their streams |
| ExportHelper.ExportApiHelper.StreamFailed | ExportApiHelper/ExportApiHelper.cs:257-265 | on a failed opening, the failing record's streams are closed and the failure is reported through the single-shot path |
| ExportHelper.ExportApiHelper.CloseQueuedStreams | ExportApiHelper/ExportApiHelper.cs:276-284 | under cancellation the open-stream queue is emptied and the streams of its records are closed |
| ExportHelper.ExportApiHelper.CallItem | ExportApiHelper/ExportApiHelper.cs:303-323 | one delivery as the value-level step: Item, the error report if it threw, the record's streams closed, and cancellation unless Item answered true |
| ExportHelper.ExportApiHelper.HandlerCaller | ExportApiHelper/ExportApiHelper.cs:287-326 | the handler caller's loop has the value-level effect of one handler caller |
| ExportHelper.ExportApiHelper.RunFetchers | ExportApiHelper/ExportApiHelper.cs:160-165 | scale-factor block consumers, one after the other |
| ExportHelper.ExportApiHelper.RunStreamers | ExportApiHelper/ExportApiHelper.cs:169-174 | scale-factor text streamers, one after the other |
| ExportHelper.ExportApiHelper.RunHandlerCallers | ExportApiHelper/ExportApiHelper.cs:180-187 | the given number of handler callers, one after the other |
| ExportHelper.ExportApiHelper.FetchersJoin | ExportApiHelper/ExportApiHelper.cs:197-206 | the block consumers are joined, then the standard and stream queues are completed |
| ExportHelper.ExportApiHelper.StreamersJoin | ExportApiHelper/ExportApiHelper.cs:210-218 | the text streamers are joined, then the open-stream queue is completed |
| ExportHelper.ExportApiHelper.ShutDown | ExportApiHelper/ExportApiHelper.cs:194-227 | with no workers started, the joins and completions still happen in the same order |
| ExportHelper.ExportApiHelper.FetchPhase | ExportApiHelper/ExportApiHelper.cs:158-206 | the block consumers run from the first block call on; then they are joined and their queues completed |
| ExportHelper.ExportApiHelper.StreamPhase | ExportApiHelper/ExportApiHelper.cs:167-218 | the text streamers run, then are joined and their queue completed |
| ExportHelper.ExportApiHelper.CallPhase | ExportApiHelper/ExportApiHelper.cs:176-227 | the handler callers run, then are joined |
| ExportHelper.ExportApiHelper.RunWorkers | ExportApiHelper/ExportApiHelper.cs:158-227 | the workers start (scale factor of each kind; one handler caller unless the handler is thread safe) and are joined in dependency order; the state is the composed value-level effect |
| ExportHelper.ExportApiHelper.Initialise | ExportApiHelper/ExportApiHelper.cs:135-156 | the run id, record count and field types are saved, the long-text ids computed, and Before is called |
| ExportHelper.ExportApiHelper.Proceed | ExportApiHelper/ExportApiHelper.cs:158-227 | if Before threw, the unexpected-exception report and no worker; otherwise the workers |
| ExportHelper.ExportApiHelper.CallAfter | ExportApiHelper/ExportApiHelper.cs:229-231 | After is called with "not cancelled" |
| ExportHelper.ExportApiHelper.Finish | ExportApiHelper/ExportApiHelper.cs:158-231 | everything after Before: the workers, or the report if Before threw, then the joins and After |
| ExportHelper.ExportApiHelper.Export | ExportApiHelper/ExportApiHelper.cs:135-231 | a run past initialisation ends in the joined state of RunGuarantees with After("not cancelled") appended, after the orchestration steps in order |
| ExportHelper.ExportApiHelper.Run | ExportApiHelper/ExportApiHelper.cs:95-232 | a failed proxy or initialisation calls Error alone; cancellation is not requested, nothing is started, and no other state changes; otherwise the run is the one Export states |
| Config.Check | ExportApiHelper/ExportApiHelperConfig.cs:45-75 | a reported violation is one the settings really commit |
| Config.CheckPasses | ExportApiHelper/ExportApiHelperConfig.cs:45-75 | Create's checks all pass exactly when no check is violated |
| Config.CheckFirst | ExportApiHelper/ExportApiHelperConfig.cs:45-75 | the reported check is violated and every check before it in Create's order holds, and conversely |
| Config.ScaleFactorBounds | ExportApiHelper/ExportApiHelperConfig.cs:62-65 | the scale factor is accepted exactly in 1..16, both ends included |
| Config.DefaultsRefused | ExportApiHelper/ExportApiHelperConfig.cs:22-60 | a default configuration is refused for its url, and with url and credentials set, for its unset workspace |
| Config.ExportApiHelperConfig.constructor | ExportApiHelper/ExportApiHelperConfig.cs:14-43 | every property starts at its default: workspace 0, block size 1000, scale factor 4, no url, credentials or query |
| Config.ExportApiHelperConfig.Create | ExportApiHelper/ExportApiHelperConfig.cs:45-87 | a failed check gives its message and changes nothing; otherwise a missing object type becomes the document type, and a fresh helper gets exactly the configured values |
| Hashing.Wrap | ExportApiHelperSample/HashCollector.cs:75-82 | 64-bit wrap-around: values in range are kept, the others are congruent modulo 2^64 |
| Hashing.WrapAdd | ExportApiHelperSample/HashCollector.cs:75-82 | adding to a wrapped total wraps the same as adding to the unwrapped sum |
| Hashing.AddAllColumns | ExportApiHelperSample/HashCollector.cs:75-82 | total i after a series of digests is the old total plus the sum of the digests' byte i, wrapped |
| Hashing.ColumnConcat | ExportApiHelperSample/HashCollector.cs:75-82 | a byte column over two series of digests is the sum of the two columns |
| Hashing.ColumnPermutation | ExportApiHelperSample/HashCollector.cs:8-13 | a byte column depends only on the multiset of digests |
| Hashing.OrderIndependent | ExportApiHelperSample/HashCollector.cs:8-13 | the totals depend only on the multiset of digests added, not on their order |
| Hashing.AccumulateGrows | ExportApiHelperSample/HashCollector.cs:80 | below overflow, adding a digest raises total i by its byte i |
| Hashing.Utf16Char | ExportApiHelperSample/HashCollector.cs:25 | a character takes two bytes in the basic plane and four beyond it |
| Hashing.Utf16Length | ExportApiHelperSample/HashCollector.cs:25-29 | the returned byte count is twice the length plus two per character beyond the basic plane |
| Hashing.DecimalRoundTrip | ExportApiHelperSample/HashCollector.cs:58-59 | each total's decimal text reads back to the total, sign included |
| Hashing.HexRoundTrip | ExportApiHelperSample/HashCollector.cs:66-73 | the hexadecimal text reads back to the digest bytes |
| Hashing.Hex | ExportApiHelperSample/HashCollector.cs:70-71 | two characters per byte |
| Hashing.HexLowercase | ExportApiHelperSample/HashCollector.cs:70-71 | every character is a lowercase hexadecimal digit |
| Hashing.LeadingReadDecides | ExportApiHelperSample/HashCollector.cs:42 | when the first read holds at least two bytes, the stream begins with the mark exactly when that read does |
| Hashing.SplitMarkBegins | ExportApiHelperSample/HashCollector.cs:39-46 | a one-byte first read FF followed by a read starting with FE begins the stream with the mark, though the first read does not hold it |
| Hashing.AsWrittenAfterStart | ExportApiHelperSample/HashCollector.cs:39-46 | once a byte was counted, the loop as written counts and hashes every later byte |
| Hashing.AsWrittenAgrees | ExportApiHelperSample/HashCollector.cs:39-46 | when the first read is longer than two bytes, or exactly two that are not the mark, the loop as written counts and hashes exactly the intended bytes |
| Hashing.AsWrittenBareMark | ExportApiHelperSample/HashCollector.cs:42 | a first read of exactly the mark leaves the count at zero, so the next read is tested for the mark again |
| Hashing.AsWrittenSkipsTwice | ExportApiHelperSample/HashCollector.cs:42 | a stream read as FF FE, then FF FE and any further bytes, loses both marks as written, where only the leading one is meant to go |
| Hashing.AsWrittenReads | ExportApiHelperSample/HashCollector.cs:37-46 | the loop as written reads every chunk when it succeeds, and stops after the read whose range is negative when it fails |
| Hashing.AsWrittenSingleByte | ExportApiHelperSample/HashCollector.cs:42 | after a one-byte first read that does not meet FE left behind an FF, the loop as written counts and hashes every byte of the stream |
| Hashing.AsWrittenSplitMark | ExportApiHelperSample/HashCollector.cs:42 | a stream read as FF, then FE and any further bytes, keeps its mark as written: the count includes both mark bytes and they are hashed |
| Hashing.AsWrittenStaleByte | ExportApiHelperSample/HashCollector.cs:42-45 | a one-byte stream FF, read into a buffer whose second byte is FE from earlier, makes the loop as written fail with a negative count |
| Hashing.HashCollector.constructor | ExportApiHelperSample/HashCollector.cs:20-21 | sixteen totals at zero and a 10 KiB read buffer |
| Hashing.HashCollector.AddToMd5Total | ExportApiHelperSample/HashCollector.cs:75-82 | byte i of the digest is added into total i, with 64-bit wrap-around |
| Hashing.HashCollector.AddString | ExportApiHelperSample/HashCollector.cs:23-30 | the string's UTF-16 little-endian bytes are hashed into the totals and their count returned |
| Hashing.HashCollector.Read | ExportApiHelperSample/HashCollector.cs:39 | a read overwrites the front of the buffer with the chunk and leaves the rest behind |
| Hashing.HashCollector.AddStream | ExportApiHelperSample/HashCollector.cs:32-51 | corrected: the stream's bytes, without a byte-order mark the stream begins with, are hashed into the totals and counted, wherever the reads split the mark; the buffer is left as the reads overlaid it |
| Hashing.HashCollector.AddStreamAsWritten | ExportApiHelperSample/HashCollector.cs:32-51 | as written: count and hashed bytes as the buffer test gives them, or the out-of-range failure with the totals unchanged; the buffer is left as every read overlaid it, or the reads up to and including the failing one |
| Hashing.HashCollector.TotalHash | ExportApiHelperSample/HashCollector.cs:53-64 | the MD5 of the ASCII text of the sixteen totals in decimal, one after the other |
| Hashing.HashCollector.ToString | ExportApiHelperSample/HashCollector.cs:66-73 | that hash as lowercase hexadecimal, two digits per byte |

## Left out

- Threads and blocking queues: the workers run as one interleaving (all block consumers, then all text streamers, then all handler callers). The queue capacities 2000, 2000 and 10, blocking adds, and the fairness of taking from both queues are not modelled. A handler caller takes the open-stream queue first, as the source's take-from-any does when both queues hold records.
- A consequence of that interleaving: when Item stops or throws, cancellation comes after every streamer has finished. In the source, nothing then closes the streams of records still in the open-stream queue. RunGuarantees promises that every stream is closed only for runs without cancellation.
- ExportHelper.ExportApiHelper.StreamsCommitted: in the modelled interleaving, a text streamer only ever meets its own cancellation. So the streamer's add to the open-stream queue is never cancelled by another worker, and the record the source then drops (ExportApiHelper.cs:267-271) never occurs in Run. That step is modelled on values only, as found (ExportRun.AsWrittenAddCancelled) and corrected (ExportRun.AddCancelled). Run does not use the corrected step.
- The two public Run overloads (ExportApiHelper.cs:69-93): cancellation linked to an external token is not modelled; only the run's own cancellation is.
- GetKeplerServiceFactory (ExportApiHelper.cs:423-433): URL building, TLS settings and the connection limit are not modelled. Proxy creation is a parameter that fails or not.
- The remote calls (InitializeExportAsync, RetrieveNextResultsBlockFromExportAsync, StreamLongTextAsync) are parameters of the run. The exception objects passed to Error are dropped; Error carries its message only.
- Config.ExportApiHelperConfig.Create: the request's field list is a sequence, so a null Fields cannot be expressed. The source then throws ArgumentNullException from the emptiness test at ExportApiHelperConfig.cs:72, not the ArgumentException about "at least one field", and the model has no such path.
- The block size is passed to the block call only. The modelled service's answers do not depend on it, and Create never checks it.
- ExportHelper.ExportApiHelper.Run: it requires every record the service returns to have one value per requested field and no stream value. For malformed records the source throws on a worker thread, which the model does not follow.
- The only exception the model catches in orchestration is one thrown by Before. The other possible causes of the "Unexpected exception" report, such as a thread failing to start, are not modelled.
- Record field values are modelled as values that move between queues. The sharing of the record object between a queue and the handler is not modelled.
- Streams are modelled as numbered handles, and closing one removes it from the set of open handles. Stream contents past the hash collector are not modelled.
- The recordCount the run saves is kept but not used; the source does not use it either.
- MD5 is a parameter of the hash collector. TotalHash returns the digest rather than the hash algorithm object.
- Hashing.HashCollector.AddStream: the count is an unbounded integer. It does not model the wrap-around of the source's 32-bit totalCount on streams of more than 2^31 bytes.
- Hashing.HashCollector.AddStreamAsWritten: the same; the count is unbounded.
- Per-thread read buffers and the interlocked adds are modelled as one buffer and plain adds on one thread.
- The sample handler, the metrics and the two sample programs are not part of this model. They are callers of the core.

## Findings

| source | as written | input that shows it | evidently intended | confidence | as-written member | corrected member |
|---|---|---|---|---|---|---|
| ExportApiHelperSample/HashCollector.cs:42 | the byte-order mark is skipped whenever nothing has been counted yet, so after a first read of exactly FF FE a second mark at the start of the next read is skipped too | reads FF FE, then FF FE 41 00: the result counts 2 bytes and hashes 41 00 | skip the mark only at the start of the stream | not executed | Hashing.AsWrittenSkipsTwice | Hashing.HashCollector.AddStream |
| ExportApiHelperSample/HashCollector.cs:42 | the mark is looked for in the front of the buffer after each read, so a mark split over a one-byte first read and the next read is never seen and is counted and hashed as data | reads FF, then FE 41 00, with position 1 of the buffer not holding FE: the result counts 4 bytes and hashes FF FE 41 00 | skip the mark the stream begins with, however the reads split it | not executed | Hashing.AsWrittenSplitMark | Hashing.HashCollector.AddStream |
| ExportApiHelperSample/HashCollector.cs:42-45 | the mark test reads buffer position 1 even after a one-byte read, where that position still holds a byte of an earlier stream; skipping 2 of 1 byte then makes TransformBlock throw | a stream of the single byte FF, read with FE left at buffer position 1 | test only the bytes actually read | not executed | Hashing.AsWrittenStaleByte | Hashing.HashCollector.AddStream |
| ExportApiHelper/ExportApiHelper.cs:267-271 | when another worker cancels while a text streamer holds a record whose streams it opened, the add to the open-stream queue throws; the catch drops the record without closing its streams, and the drain at 276-284 never sees it | Item returns false while a streamer, having opened a record's long-text stream, waits to add it to the full open-stream queue | close the record's streams when the add is cancelled, as the failed-opening path does | not executed | ExportRun.AsWrittenAddCancelledLeaks | ExportRun.AddCancelledCloses |
