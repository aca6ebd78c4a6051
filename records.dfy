/**
 * Per-record logic of the export helper: the sentinel that marks a long-text
 * field whose text must be streamed, the positions of the long-text fields,
 * the classification of a record, the routing of a block into the "standard"
 * and "stream" queues, and the replacement of sentinels by stream handles.
 */
module Records {

  /** The text the export service puts in a long-text field that is too large to return inline. */
  const Sentinel: string := "#KCURA99DF2F0FEB88420388879F1282A55760#"

  /** The type tag of a requested field; only long text matters to the export run. */
  datatype FieldType = LongText | NotLongText

  /** Identity of an open stream (the stream objects of the service are modelled by number). */
  type Handle = nat

  /**
   * A field value of an exported record: null, a string, some other value
   * (with the text its ToString gives), or an open stream.
   */
  datatype Value = Null | Str(s: string) | Other(text: string) | Stream(handle: Handle)

  /** An exported object: its artifact id and one value per requested field. */
  datatype Record = Record(artifactId: int, values: seq<Value>)

  /** A non-null value whose text is exactly the sentinel (a stream's text is its type name). */
  predicate IsSentinel(v: Value) {
    match v
    case Str(s) => s == Sentinel
    case Other(t) => t == Sentinel
    case _ => false
  }

  predicate InRange(ids: seq<nat>, n: nat) {
    forall k :: 0 <= k < |ids| ==> ids[k] < n
  }

  predicate Ascending(ids: seq<nat>) {
    forall j, k :: 0 <= j < k < |ids| ==> ids[j] < ids[k]
  }

  // ---------------------------------------------------------------------
  // Long-text positions
  // ---------------------------------------------------------------------

  /** The positions, in ascending order, of the fields whose type is long text. */
  function LongTextIndices(fields: seq<FieldType>): (ids: seq<nat>)
    ensures InRange(ids, |fields|) && Ascending(ids)
    ensures forall k :: 0 <= k < |ids| ==> fields[ids[k]] == LongText
    ensures forall i :: 0 <= i < |fields| && fields[i] == LongText ==> i in ids
  {
    if fields == [] then []
    else
      var n := |fields| - 1;
      LongTextIndices(fields[..n]) + (if fields[n] == LongText then [n] else [])
  }

  /** The loop of the run's initialisation that collects the long-text positions. */
  method ComputeLongTextIds(fields: seq<FieldType>) returns (ids: seq<nat>)
    ensures ids == LongTextIndices(fields)
  {
    ids := [];
    for i := 0 to |fields|
      invariant ids == LongTextIndices(fields[..i])
    {
      assert fields[..i + 1][..i] == fields[..i];
      if fields[i] == LongText {
        ids := ids + [i];
      }
    }
    assert fields[..|fields|] == fields;
  }

  // ---------------------------------------------------------------------
  // Classification and routing
  // ---------------------------------------------------------------------

  /** Some long-text position of the record holds the sentinel: its text must be streamed. */
  predicate HasSentinel(values: seq<Value>, ids: seq<nat>) {
    exists k :: 0 <= k < |ids| && ids[k] < |values| && IsSentinel(values[ids[k]])
  }

  /** The block fetcher's scan of one record, which stops at the first sentinel. */
  method FindSentinel(values: seq<Value>, ids: seq<nat>) returns (hasStream: bool)
    requires InRange(ids, |values|)
    ensures hasStream <==> HasSentinel(values, ids)
  {
    hasStream := false;
    var k := 0;
    while k < |ids|
      invariant 0 <= k <= |ids|
      invariant !hasStream ==> forall j :: 0 <= j < k ==> !IsSentinel(values[ids[j]])
      invariant hasStream ==> HasSentinel(values, ids)
    {
      if IsSentinel(values[ids[k]]) {
        hasStream := true;
        break;
      }
      k := k + 1;
    }
  }

  /**
   * The records of a block, in block order, that the block fetcher puts on the
   * stream queue (`toStream`) or on the standard queue (`!toStream`).
   */
  function Select(block: seq<Record>, ids: seq<nat>, toStream: bool): seq<Record>
  {
    if block == [] then []
    else
      var n := |block| - 1;
      Select(block[..n], ids, toStream) + (if HasSentinel(block[n].values, ids) == toStream then [block[n]] else [])
  }

  /** A queue's share holds exactly the block's records whose classification matches it. */
  lemma {:induction false} SelectMembers(block: seq<Record>, ids: seq<nat>, toStream: bool, r: Record)
    ensures r in Select(block, ids, toStream) <==> r in block && HasSentinel(r.values, ids) == toStream
  {
    if block != [] {
      var n := |block| - 1;
      assert block == block[..n] + [block[n]];
      SelectMembers(block[..n], ids, toStream, r);
    }
  }

  /** Every record of a block lands in exactly one of the two queues. */
  lemma {:induction false} RoutePartition(block: seq<Record>, ids: seq<nat>)
    ensures multiset(Select(block, ids, false)) + multiset(Select(block, ids, true)) == multiset(block)
  {
    if block != [] {
      var n := |block| - 1;
      assert block == block[..n] + [block[n]];
      RoutePartition(block[..n], ids);
    }
  }

  /** Routing keeps block order: routing two blocks one after the other appends their shares. */
  lemma {:induction false} RouteAppend(a: seq<Record>, b: seq<Record>, ids: seq<nat>, toStream: bool)
    ensures Select(a + b, ids, toStream) == Select(a, ids, toStream) + Select(b, ids, toStream)
    decreases |b|
  {
    if b == [] {
      assert a + b == a;
    } else {
      var n := |b| - 1;
      var ab := a + b;
      assert ab[..|ab| - 1] == a + b[..n];
      assert ab[|ab| - 1] == b[n];
      var last := if HasSentinel(b[n].values, ids) == toStream then [b[n]] else [];
      assert Select(ab, ids, toStream) == Select(a + b[..n], ids, toStream) + last;
      assert Select(b, ids, toStream) == Select(b[..n], ids, toStream) + last;
      RouteAppend(a, b[..n], ids, toStream);
    }
  }

  /** A single record goes to the stream queue iff it holds a sentinel, else to the standard queue. */
  lemma RouteSingle(r: Record, ids: seq<nat>, toStream: bool)
    ensures Select([r], ids, toStream) == if HasSentinel(r.values, ids) == toStream then [r] else []
  {
    assert [r][..0] == [];
  }

  // ---------------------------------------------------------------------
  // Replacing sentinels by streams
  // ---------------------------------------------------------------------

  /** The number of long-text positions (of `ids`) that hold the sentinel. */
  function SentinelCount(values: seq<Value>, ids: seq<nat>): nat
    requires InRange(ids, |values|)
  {
    if ids == [] then 0
    else (if IsSentinel(values[ids[0]]) then 1 else 0) + SentinelCount(values, ids[1..])
  }

  /**
   * The record's values once every sentinel at a long-text position has been
   * replaced, in position order, by a freshly opened stream; the streams get
   * the handles `next`, `next + 1`, ...; paired with the first handle left unused.
   */
  function OpenAll(values: seq<Value>, ids: seq<nat>, next: Handle): (replaced: (seq<Value>, Handle))
    requires InRange(ids, |values|)
    ensures |replaced.0| == |values|
    decreases |ids|
  {
    if ids == [] then (values, next)
    else if IsSentinel(values[ids[0]]) then OpenAll(values[ids[0] := Stream(next)], ids[1..], next + 1)
    else OpenAll(values, ids[1..], next)
  }

  /** Whether some position of `ids` equals `p`. */
  predicate Lists(ids: seq<nat>, p: nat) {
    exists k :: 0 <= k < |ids| && ids[k] == p
  }

  /** Changing a value that is not at a listed position does not change the sentinel count. */
  lemma {:induction false} SentinelCountFrame(values: seq<Value>, ids: seq<nat>, p: nat, v: Value)
    requires InRange(ids, |values|) && p < |values| && !Lists(ids, p)
    ensures SentinelCount(values[p := v], ids) == SentinelCount(values, ids)
  {
    if ids != [] {
      assert ids[0] != p;
      SentinelCountFrame(values, ids[1..], p, v);
    }
  }

  /** A position that is not a long-text position holding the sentinel keeps its value. */
  lemma {:induction false} OpenAllKeeps(values: seq<Value>, ids: seq<nat>, next: Handle, p: nat)
    requires InRange(ids, |values|) && p < |values|
    requires !(Lists(ids, p) && IsSentinel(values[p]))
    ensures OpenAll(values, ids, next).0[p] == values[p]
    decreases |ids|
  {
    if ids != [] {
      if IsSentinel(values[ids[0]]) {
        var i := ids[0];
        OpenAllKeeps(values[i := Stream(next)], ids[1..], next + 1, p);
      } else {
        OpenAllKeeps(values, ids[1..], next, p);
      }
    }
  }

  /**
   * The sentinel at the k-th long-text position becomes a stream whose handle
   * is `next` plus the number of sentinels at earlier long-text positions, so
   * different positions get different streams.
   */
  lemma {:induction false} OpenAllReplaces(values: seq<Value>, ids: seq<nat>, next: Handle, k: nat)
    requires InRange(ids, |values|) && Ascending(ids)
    requires k < |ids| && IsSentinel(values[ids[k]])
    ensures OpenAll(values, ids, next).0[ids[k]] == Stream(next + SentinelCount(values, ids[..k]))
    decreases |ids|
  {
    var i := ids[0];
    var rest := ids[1..];
    var v' := if IsSentinel(values[i]) then values[i := Stream(next)] else values;
    var n' := if IsSentinel(values[i]) then next + 1 else next;
    assert OpenAll(values, ids, next) == OpenAll(v', rest, n');
    if k == 0 {
      assert ids[..0] == [];
      OpenAllKeeps(v', rest, n', i);
    } else {
      assert ids[k] != i;
      assert v'[ids[k]] == values[ids[k]];
      OpenAllReplaces(v', rest, n', k - 1);
      assert rest[k - 1] == ids[k];
      assert rest[..k - 1] == ids[1..k];
      if IsSentinel(values[i]) {
        SentinelCountFrame(values, ids[1..k], i, Stream(next));
      }
      assert ids[..k][0] == i && ids[..k][1..] == ids[1..k];
    }
  }

  /** One stream is opened per sentinel at a long-text position. */
  lemma {:induction false} OpenAllNext(values: seq<Value>, ids: seq<nat>, next: Handle)
    requires InRange(ids, |values|) && Ascending(ids)
    ensures OpenAll(values, ids, next).1 == next + SentinelCount(values, ids)
    decreases |ids|
  {
    if ids != [] {
      var i := ids[0];
      if IsSentinel(values[i]) {
        OpenAllNext(values[i := Stream(next)], ids[1..], next + 1);
        SentinelCountFrame(values, ids[1..], i, Stream(next));
      } else {
        OpenAllNext(values, ids[1..], next);
      }
    }
  }

  /** After all streams of a record are opened, no long-text position holds the sentinel. */
  lemma NoSentinelRemains(values: seq<Value>, ids: seq<nat>, next: Handle)
    requires InRange(ids, |values|) && Ascending(ids)
    ensures !HasSentinel(OpenAll(values, ids, next).0, ids)
  {
    forall k | 0 <= k < |ids|
      ensures !IsSentinel(OpenAll(values, ids, next).0[ids[k]])
    {
      if IsSentinel(values[ids[k]]) {
        OpenAllReplaces(values, ids, next, k);
      } else {
        assert Lists(ids, ids[k]);
        OpenAllKeeps(values, ids, next, ids[k]);
      }
    }
  }

  // ---------------------------------------------------------------------
  // Streams held by a record
  // ---------------------------------------------------------------------

  /** The handles of the streams at the record's long-text positions. */
  function StreamsAt(values: seq<Value>, ids: seq<nat>): set<Handle> {
    set k | 0 <= k < |ids| && ids[k] < |values| && values[ids[k]].Stream? :: values[ids[k]].handle
  }

  /** No long-text position holds a stream (true of every record the service returns). */
  predicate NoStreams(values: seq<Value>, ids: seq<nat>) {
    forall k :: 0 <= k < |ids| && ids[k] < |values| ==> !values[ids[k]].Stream?
  }

  /** The handles from `lo` up to (not including) `hi`. */
  function Range(lo: Handle, hi: Handle): (hs: set<Handle>)
    ensures forall h :: h in hs <==> lo <= h < hi
    decreases hi - lo
  {
    if hi <= lo then {} else Range(lo, hi - 1) + {hi - 1}
  }

  lemma NoStreamsEmpty(values: seq<Value>, ids: seq<nat>)
    requires NoStreams(values, ids)
    ensures StreamsAt(values, ids) == {}
  {
  }

  /** Placing a stream over a value that was not a stream adds exactly its handle. */
  lemma StreamsAtPlace(values: seq<Value>, ids: seq<nat>, j: nat, h: Handle)
    requires InRange(ids, |values|) && j < |ids| && !values[ids[j]].Stream?
    ensures StreamsAt(values[ids[j] := Stream(h)], ids) == StreamsAt(values, ids) + {h}
  {
    var w := values[ids[j] := Stream(h)];
    forall x | x in StreamsAt(w, ids)
      ensures x in StreamsAt(values, ids) + {h}
    {
      var k :| 0 <= k < |ids| && ids[k] < |w| && w[ids[k]].Stream? && w[ids[k]].handle == x;
      if ids[k] != ids[j] {
        assert values[ids[k]] == w[ids[k]];
      }
    }
    forall x | x in StreamsAt(values, ids) + {h}
      ensures x in StreamsAt(w, ids)
    {
      if x == h {
        assert w[ids[j]].handle == h;
      } else {
        var k :| 0 <= k < |ids| && ids[k] < |values| && values[ids[k]].Stream? && values[ids[k]].handle == x;
        assert ids[k] != ids[j];
        assert w[ids[k]] == values[ids[k]];
      }
    }
  }

  /** Scanning one more long-text position adds the stream found there, if any. */
  lemma StreamsAtSnoc(values: seq<Value>, ids: seq<nat>, k: nat)
    requires InRange(ids, |values|) && k < |ids|
    ensures StreamsAt(values, ids[..k + 1]) ==
      StreamsAt(values, ids[..k]) + (if values[ids[k]].Stream? then {values[ids[k]].handle} else {})
  {
    var longer, shorter := ids[..k + 1], ids[..k];
    forall x | x in StreamsAt(values, longer)
      ensures x in StreamsAt(values, shorter) + (if values[ids[k]].Stream? then {values[ids[k]].handle} else {})
    {
      var j :| 0 <= j < |longer| && longer[j] < |values| && values[longer[j]].Stream? && values[longer[j]].handle == x;
      if j < k {
        assert shorter[j] == longer[j];
      }
    }
    forall x | x in StreamsAt(values, shorter)
      ensures x in StreamsAt(values, longer)
    {
      var j :| 0 <= j < |shorter| && shorter[j] < |values| && values[shorter[j]].Stream? && values[shorter[j]].handle == x;
      assert longer[j] == shorter[j];
    }
    if values[ids[k]].Stream? {
      assert longer[k] == ids[k];
    }
  }

  /** The streams at the long-text positions are the one at the first position, if any, and those at the others. */
  lemma StreamsAtCons(values: seq<Value>, ids: seq<nat>)
    requires InRange(ids, |values|) && ids != []
    ensures StreamsAt(values, ids) ==
      (if values[ids[0]].Stream? then {values[ids[0]].handle} else {}) + StreamsAt(values, ids[1..])
  {
    var tail := ids[1..];
    forall x | x in StreamsAt(values, ids)
      ensures x in (if values[ids[0]].Stream? then {values[ids[0]].handle} else {}) + StreamsAt(values, tail)
    {
      var j :| 0 <= j < |ids| && ids[j] < |values| && values[ids[j]].Stream? && values[ids[j]].handle == x;
      if j > 0 {
        assert tail[j - 1] == ids[j];
      }
    }
    forall x | x in StreamsAt(values, tail)
      ensures x in StreamsAt(values, ids)
    {
      var j :| 0 <= j < |tail| && tail[j] < |values| && values[tail[j]].Stream? && values[tail[j]].handle == x;
      assert ids[j + 1] == tail[j];
    }
  }

  /** Opening one more stream extends the range of opened handles by that handle alone. */
  lemma RangeStep(lo: Handle, hi: Handle)
    requires lo <= hi
    ensures Range(lo, hi + 1) == Range(lo, hi) + {hi}
    ensures hi !in Range(lo, hi)
  {
  }
}
