/**
 * The sample consumer's order-independent hash. Every item added is hashed
 * with MD5, and byte i of its digest is added into running total i of
 * sixteen 64-bit totals. The totals therefore do not depend on the order of
 * the items. The final hash is the MD5 of the decimal texts of the totals,
 * written as lowercase hexadecimal. MD5 itself is a parameter of the model;
 * the text encodings and the formatting are modelled concretely.
 */
module Hashing {
  import opened Wrappers

  type Byte = b: int | 0 <= b < 256

  /** A 64-bit signed integer, the type of the totals. */
  type Long = x: int | -0x8000_0000_0000_0000 <= x < 0x8000_0000_0000_0000

  const LongMin: int := -0x8000_0000_0000_0000
  const LongSpan: int := 0x1_0000_0000_0000_0000

  /** An MD5 digest: sixteen bytes. */
  type Digest = d: seq<Byte> | |d| == 16 witness [0, 0, 0, 0, 0, 0, 0, 0, 0, 0, 0, 0, 0, 0, 0, 0]

  const DigestSize: nat := 16
  /** The size of the read buffer each thread reuses for streams. */
  const BufferSize: nat := 1024 * 10
  const ByteOrderMark: seq<Byte> := [0xFF, 0xFE]

  // ---------------------------------------------------------------------
  // Totals
  // ---------------------------------------------------------------------

  /** Two's-complement 64-bit wrap-around, as an interlocked add of longs performs it. */
  function Wrap(x: int): (r: Long)
    ensures LongMin <= x < -LongMin ==> r == x
    ensures (r - x) % LongSpan == 0
  {
    (x - LongMin) % LongSpan + LongMin
  }

  lemma ModShift(z: int, q: int)
    ensures (z - q * LongSpan) % LongSpan == z % LongSpan
  {
  }

  /** Wrapping after every addition is the same as wrapping once at the end. */
  lemma WrapAdd(x: int, y: int)
    ensures Wrap(Wrap(x) + y) == Wrap(x + y)
  {
    var a := x - LongMin;
    assert a == (a / LongSpan) * LongSpan + a % LongSpan;
    ModShift(a + y, a / LongSpan);
  }

  /** The totals after one digest's bytes are added, slot by slot. */
  function Accumulate(totals: seq<Long>, d: Digest): (r: seq<Long>)
    requires |totals| == DigestSize
    ensures |r| == DigestSize
  {
    seq(DigestSize, i requires 0 <= i < DigestSize => Wrap(totals[i] + d[i]))
  }

  /** The totals after the digests are added, first to last. */
  function AddAll(totals: seq<Long>, ds: seq<Digest>): (r: seq<Long>)
    requires |totals| == DigestSize
    ensures |r| == DigestSize
    decreases |ds|
  {
    if ds == [] then totals else AddAll(Accumulate(totals, ds[0]), ds[1..])
  }

  /** The sum of byte i over the digests. */
  function Column(ds: seq<Digest>, i: nat): int
    requires i < DigestSize
  {
    if ds == [] then 0 else ds[0][i] + Column(ds[1..], i)
  }

  /** Slot i ends up as its start plus the sum of every digest's byte i, wrapped to 64 bits. */
  lemma {:induction false} AddAllColumns(totals: seq<Long>, ds: seq<Digest>, i: nat)
    requires |totals| == DigestSize && i < DigestSize
    ensures AddAll(totals, ds)[i] == Wrap(totals[i] + Column(ds, i))
    decreases |ds|
  {
    if ds != [] {
      AddAllColumns(Accumulate(totals, ds[0]), ds[1..], i);
      WrapAdd(totals[i] + ds[0][i], Column(ds[1..], i));
    }
  }

  lemma {:induction false} ColumnConcat(a: seq<Digest>, b: seq<Digest>, i: nat)
    requires i < DigestSize
    ensures Column(a + b, i) == Column(a, i) + Column(b, i)
  {
    if a == [] {
      assert a + b == b;
    } else {
      assert (a + b)[0] == a[0] && (a + b)[1..] == a[1..] + b;
      ColumnConcat(a[1..], b, i);
    }
  }

  /** The column sums depend only on which digests were added, not on their order. */
  lemma {:induction false} ColumnPermutation(ds: seq<Digest>, es: seq<Digest>, i: nat)
    requires i < DigestSize && multiset(ds) == multiset(es)
    ensures Column(ds, i) == Column(es, i)
    decreases |ds|
  {
    if ds == [] {
      assert |es| == |multiset(es)| == 0;
    } else {
      var x := ds[0];
      assert x in multiset(es);
      var j :| 0 <= j < |es| && es[j] == x;
      var rest := es[..j] + es[j + 1..];
      assert ds == [x] + ds[1..];
      assert multiset(ds[1..]) == multiset(ds) - multiset{x};
      MultisetRemove(es, j);
      ColumnPermutation(ds[1..], rest, i);
      ColumnRemove(es, j, i);
    }
  }

  /** Dropping the element at j takes one occurrence of it out of the multiset. */
  lemma MultisetRemove(es: seq<Digest>, j: nat)
    requires j < |es|
    ensures multiset(es[..j] + es[j + 1..]) == multiset(es) - multiset{es[j]}
  {
    assert es == es[..j] + [es[j]] + es[j + 1..];
  }

  /** Taking one digest out of the list takes its byte out of the column sum. */
  lemma ColumnRemove(es: seq<Digest>, j: nat, i: nat)
    requires j < |es| && i < DigestSize
    ensures Column(es, i) == es[j][i] + Column(es[..j] + es[j + 1..], i)
  {
    assert es == es[..j] + [es[j]] + es[j + 1..];
    ColumnConcat(es[..j], es[j + 1..], i);
    ColumnConcat(es[..j] + [es[j]], es[j + 1..], i);
    ColumnConcat(es[..j], [es[j]], i);
  }

  /** The order-independence the collector promises: any reordering of the items gives the same totals. */
  lemma OrderIndependent(totals: seq<Long>, ds: seq<Digest>, es: seq<Digest>)
    requires |totals| == DigestSize && multiset(ds) == multiset(es)
    ensures AddAll(totals, ds) == AddAll(totals, es)
  {
    forall i | 0 <= i < DigestSize
      ensures AddAll(totals, ds)[i] == AddAll(totals, es)[i]
    {
      AddAllColumns(totals, ds, i);
      AddAllColumns(totals, es, i);
      ColumnPermutation(ds, es, i);
    }
  }

  /** A slot that does not overflow grows by exactly the digest's byte, so it never decreases. */
  lemma AccumulateGrows(totals: seq<Long>, d: Digest, i: nat)
    requires |totals| == DigestSize && i < DigestSize && totals[i] + d[i] < -LongMin
    ensures Accumulate(totals, d)[i] == totals[i] + d[i] >= totals[i]
  {
  }

  // ---------------------------------------------------------------------
  // Encodings and formatting
  // ---------------------------------------------------------------------

  /** The UTF-16 little-endian bytes of one character: one code unit, or a surrogate pair. */
  function Utf16Char(c: char): (r: seq<Byte>)
    ensures |r| == if c as int < 0x10000 then 2 else 4
  {
    var v := c as int;
    if v < 0x10000 then [v % 256, v / 256]
    else
      var hi := 0xD800 + (v - 0x10000) / 0x400;
      var lo := 0xDC00 + (v - 0x10000) % 0x400;
      [hi % 256, hi / 256, lo % 256, lo / 256]
  }

  /** The UTF-16 little-endian encoding of a string, without a byte-order mark. */
  function Utf16(s: string): seq<Byte> {
    if s == [] then [] else Utf16Char(s[0]) + Utf16(s[1..])
  }

  /** The number of characters outside the basic multilingual plane, which take two code units. */
  function Supplementary(s: string): nat {
    if s == [] then 0 else (if s[0] as int >= 0x10000 then 1 else 0) + Supplementary(s[1..])
  }

  /** Two bytes per character, two more for each character outside the basic plane. */
  lemma {:induction false} Utf16Length(s: string)
    ensures |Utf16(s)| == 2 * |s| + 2 * Supplementary(s)
  {
    if s != [] {
      Utf16Length(s[1..]);
    }
  }

  /** The ASCII encoding: characters beyond 127 become '?'. */
  function Ascii(s: string): (r: seq<Byte>)
    ensures |r| == |s|
  {
    seq(|s|, k requires 0 <= k < |s| => if s[k] as int < 128 then s[k] as int else '?' as int)
  }

  function DigitChar(n: nat): char
    requires n < 10
  {
    "0123456789"[n]
  }

  /** The decimal digits of a natural number, most significant first. */
  function Digits(n: nat): (r: string)
    ensures r != []
  {
    if n < 10 then [DigitChar(n)] else Digits(n / 10) + [DigitChar(n % 10)]
  }

  /** A long appended to a text: a minus sign for negative values, then the digits. */
  function Decimal(x: int): string {
    if x < 0 then "-" + Digits(-x) else Digits(x)
  }

  /** The value of a text of decimal digits. */
  function DigitsValue(s: string): int {
    if s == [] then 0 else 10 * DigitsValue(s[..|s| - 1]) + (s[|s| - 1] as int - '0' as int)
  }

  /** Reading a text back: an optional minus sign, then digits. */
  function ParseDecimal(s: string): int {
    if s != [] && s[0] == '-' then -DigitsValue(s[1..]) else DigitsValue(s)
  }

  lemma {:induction false} DigitsRoundTrip(n: nat)
    ensures DigitsValue(Digits(n)) == n
  {
    if n >= 10 {
      var s := Digits(n / 10) + [DigitChar(n % 10)];
      assert s[..|s| - 1] == Digits(n / 10);
      DigitsRoundTrip(n / 10);
    }
  }

  /** The decimal text of a total determines it. */
  lemma DecimalRoundTrip(x: int)
    ensures ParseDecimal(Decimal(x)) == x
  {
    if x < 0 {
      NegativeRoundTrip(x);
    } else {
      NaturalRoundTrip(x);
    }
  }

  lemma NegativeRoundTrip(x: int)
    requires x < 0
    ensures ParseDecimal(Decimal(x)) == x
  {
    var n: nat := -x;
    SignedDigits(n);
    assert Decimal(x) == "-" + Digits(n);
  }

  lemma NaturalRoundTrip(x: int)
    requires x >= 0
    ensures ParseDecimal(Decimal(x)) == x
  {
    var n: nat := x;
    UnsignedDigits(n);
    assert Decimal(x) == Digits(n);
  }

  lemma SignedDigits(n: nat)
    ensures ParseDecimal("-" + Digits(n)) == -(n as int)
  {
    ParseSigned(Digits(n));
    DigitsRoundTrip(n);
  }

  lemma UnsignedDigits(n: nat)
    ensures ParseDecimal(Digits(n)) == n
  {
    DigitsLead(n);
    ParseUnsigned(Digits(n));
    DigitsRoundTrip(n);
  }

  /** A minus sign in front negates the value of the digits. */
  lemma ParseSigned(d: string)
    ensures ParseDecimal("-" + d) == -DigitsValue(d)
  {
    assert ("-" + d)[0] == '-' && ("-" + d)[1..] == d;
  }

  /** Without a minus sign in front, the text is read as digits. */
  lemma ParseUnsigned(d: string)
    requires d != [] && '0' <= d[0] <= '9'
    ensures ParseDecimal(d) == DigitsValue(d)
  {
  }

  lemma {:induction false} DigitsLead(n: nat)
    ensures '0' <= Digits(n)[0] <= '9'
  {
    if n >= 10 {
      DigitsLead(n / 10);
      assert Digits(n)[0] == Digits(n / 10)[0];
    }
  }

  /** The text the final hash is taken of: the totals in decimal, one after the other. */
  function TotalText(totals: seq<Long>): string {
    if totals == [] then "" else TotalText(totals[..|totals| - 1]) + Decimal(totals[|totals| - 1])
  }

  /** A lowercase hexadecimal digit. */
  function HexDigit(n: nat): (c: char)
    requires n < 16
    ensures '0' <= c <= '9' || 'a' <= c <= 'f'
  {
    if n < 10 then ('0' as int + n) as char else ('a' as int + n - 10) as char
  }

  /** Two lowercase hexadecimal digits per byte, in byte order. */
  function Hex(bytes: seq<Byte>): (r: string)
    ensures |r| == 2 * |bytes|
  {
    if bytes == [] then ""
    else Hex(bytes[..|bytes| - 1]) + [HexDigit(bytes[|bytes| - 1] / 16), HexDigit(bytes[|bytes| - 1] % 16)]
  }

  function HexValue(c: char): nat {
    if '0' <= c <= '9' then c as int - '0' as int
    else if 'a' <= c <= 'f' then c as int - 'a' as int + 10
    else 0
  }

  /** Reading hexadecimal text back, two digits per byte. */
  function ParseHex(s: string): seq<int>
    decreases |s|
  {
    if |s| < 2 then [] else ParseHex(s[..|s| - 2]) + [16 * HexValue(s[|s| - 2]) + HexValue(s[|s| - 1])]
  }

  lemma HexDigitValue(n: nat)
    requires n < 16
    ensures HexValue(HexDigit(n)) == n
  {
  }

  /** The hexadecimal text gives back the bytes it was made of. */
  lemma {:induction false} HexRoundTrip(bytes: seq<Byte>)
    ensures ParseHex(Hex(bytes)) == bytes
  {
    if bytes != [] {
      var init := bytes[..|bytes| - 1];
      var b := bytes[|bytes| - 1];
      HexRoundTrip(init);
      HexDigitValue(b / 16);
      HexDigitValue(b % 16);
      ParseHexSnoc(Hex(init), HexDigit(b / 16), HexDigit(b % 16));
    }
  }

  lemma ParseHexSnoc(t: string, hi: char, lo: char)
    ensures ParseHex(t + [hi, lo]) == ParseHex(t) + [16 * HexValue(hi) + HexValue(lo)]
  {
    var s := t + [hi, lo];
    assert s[..|s| - 2] == t;
    assert s[|s| - 2] == hi && s[|s| - 1] == lo;
  }

  /** The hexadecimal text uses lowercase digits only. */
  lemma {:induction false} HexLowercase(bytes: seq<Byte>)
    ensures forall k :: 0 <= k < |Hex(bytes)| ==> '0' <= Hex(bytes)[k] <= '9' || 'a' <= Hex(bytes)[k] <= 'f'
  {
    if bytes != [] {
      var init := bytes[..|bytes| - 1];
      var b := bytes[|bytes| - 1];
      HexLowercase(init);
      assert Hex(bytes) == Hex(init) + [HexDigit(b / 16), HexDigit(b % 16)];
    }
  }

  // ---------------------------------------------------------------------
  // Streams
  // ---------------------------------------------------------------------

  /** A stream as the chunks its reads return; each read fills at most the buffer. */
  predicate Readable(chunks: seq<seq<Byte>>, size: nat) {
    forall k :: 0 <= k < |chunks| ==> 1 <= |chunks[k]| <= size
  }

  /** Everything the stream delivered, in order. */
  function Flatten(chunks: seq<seq<Byte>>): (r: seq<Byte>)
  {
    if chunks == [] then [] else Flatten(chunks[..|chunks| - 1]) + chunks[|chunks| - 1]
  }

  /** The bytes start with the UTF-16 little-endian byte-order mark. */
  predicate StartsWithBom(c: seq<Byte>) {
    |c| >= 2 && c[0] == ByteOrderMark[0] && c[1] == ByteOrderMark[1]
  }

  /** The stream's leading read starts with the UTF-16 little-endian byte-order mark. */
  predicate LeadingBom(chunks: seq<seq<Byte>>) {
    chunks != [] && StartsWithBom(chunks[0])
  }

  /** The bytes that are counted and hashed: all of them, but a byte-order mark the stream begins with. */
  function Hashed(chunks: seq<seq<Byte>>): seq<Byte> {
    var all := Flatten(chunks);
    if StartsWithBom(all) then all[2..] else all
  }

  lemma {:induction false} FlattenLeading(chunks: seq<seq<Byte>>)
    requires chunks != []
    ensures |Flatten(chunks)| >= |chunks[0]| && Flatten(chunks)[..|chunks[0]|] == chunks[0]
  {
    if |chunks| > 1 {
      FlattenLeading(chunks[..|chunks| - 1]);
    }
  }

  /**
   * The counted bytes are the delivered ones, two fewer exactly when the
   * stream begins with the mark, however the reads split its two bytes.
   */
  lemma HashedIsData(chunks: seq<seq<Byte>>)
    ensures Flatten(chunks) == (if StartsWithBom(Flatten(chunks)) then ByteOrderMark else []) + Hashed(chunks)
    ensures |Hashed(chunks)| == |Flatten(chunks)| - 2 <==> StartsWithBom(Flatten(chunks))
  {
    var all := Flatten(chunks);
    if StartsWithBom(all) {
      assert all == all[..2] + all[2..];
    }
  }

  /** A leading read of at least two bytes decides alone whether the stream begins with the mark. */
  lemma LeadingReadDecides(chunks: seq<seq<Byte>>)
    requires chunks != [] && |chunks[0]| >= 2
    ensures StartsWithBom(Flatten(chunks)) <==> LeadingBom(chunks)
  {
    FlattenLeading(chunks);
    assert Flatten(chunks)[0] == chunks[0][0] && Flatten(chunks)[1] == chunks[0][1];
  }

  /** A mark split over a one-byte leading read and the next read still begins the stream. */
  lemma SplitMarkBegins(chunks: seq<seq<Byte>>)
    requires |chunks| >= 2 && chunks[0] == [0xFF] && chunks[1] != [] && chunks[1][0] == 0xFE
    ensures StartsWithBom(Flatten(chunks)) && !LeadingBom(chunks)
  {
    FlattenCons(chunks);
    FlattenLeading(chunks[1..]);
    assert Flatten(chunks)[1] == Flatten(chunks[1..])[0] == chunks[1][0];
  }

  /** The buffer after a read of the chunk: the chunk, then what was left behind it. */
  function Overlay(buffer: seq<Byte>, chunk: seq<Byte>): (r: seq<Byte>)
    requires |chunk| <= |buffer|
    ensures |r| == |buffer|
  {
    chunk + buffer[|chunk|..]
  }

  /** The buffer after reading all the chunks. */
  function Overlaid(buffer: seq<Byte>, chunks: seq<seq<Byte>>): (r: seq<Byte>)
    requires Readable(chunks, |buffer|)
    ensures |r| == |buffer|
    decreases |chunks|
  {
    if chunks == [] then buffer else Overlaid(Overlay(buffer, chunks[0]), chunks[1..])
  }

  /** Reading one more chunk overlays it on the buffer the earlier reads left. */
  lemma {:induction false} OverlaidSnoc(buffer: seq<Byte>, chunks: seq<seq<Byte>>, k: nat)
    requires Readable(chunks, |buffer|) && k < |chunks|
    ensures Overlaid(buffer, chunks[..k + 1]) == Overlay(Overlaid(buffer, chunks[..k]), chunks[k])
    decreases k
  {
    if k > 0 {
      OverlaidSnoc(Overlay(buffer, chunks[0]), chunks[1..], k - 1);
      assert chunks[..k + 1][1..] == chunks[1..][..k];
      assert chunks[..k][1..] == chunks[1..][..k - 1];
    } else {
      assert chunks[..1][1..] == [];
    }
  }

  /** What the read loop of Add(Stream) fails with when the hashed range has a negative length. */
  datatype HashFault = InputCountOutOfRange

  /** Where the read loop, as written, stands: the count so far and the bytes hashed so far. */
  datatype Progress = Progress(total: int, data: seq<Byte>)

  /**
   * The read loop as written: after each read, two bytes are skipped when
   * nothing has been counted yet and buffer positions 0 and 1 hold the mark,
   * even when the read returned a single byte and position 1 is left over
   * from an earlier read; a negative range then makes the hash throw.
   */
  function AsWrittenRead(chunks: seq<seq<Byte>>, buffer: seq<Byte>, p: Progress): (r: Result<Progress, HashFault>)
    requires |buffer| >= 2 && Readable(chunks, |buffer|)
    decreases |chunks|
  {
    if chunks == [] then Success(p)
    else
      var c := chunks[0];
      var b := Overlay(buffer, c);
      var skip := if p.total == 0 && b[0] == 0xFF && b[1] == 0xFE then 2 else 0;
      if |c| - skip < 0 then Failure(InputCountOutOfRange)
      else AsWrittenRead(chunks[1..], b, Progress(p.total + |c| - skip, p.data + b[skip..|c|]))
  }

  /**
   * How many reads the as-written loop makes: every one when it succeeds,
   * and up to and including the read whose range is negative when it fails.
   */
  function AsWrittenReads(chunks: seq<seq<Byte>>, buffer: seq<Byte>, p: Progress): (n: nat)
    requires |buffer| >= 2 && Readable(chunks, |buffer|)
    ensures n <= |chunks|
    ensures AsWrittenRead(chunks, buffer, p).Success? ==> n == |chunks|
    ensures AsWrittenRead(chunks, buffer, p).Failure? ==> n > 0
    decreases |chunks|
  {
    if chunks == [] then 0
    else
      var c := chunks[0];
      var b := Overlay(buffer, c);
      var skip := if p.total == 0 && b[0] == 0xFF && b[1] == 0xFE then 2 else 0;
      if |c| - skip < 0 then 1
      else 1 + AsWrittenReads(chunks[1..], b, Progress(p.total + |c| - skip, p.data + b[skip..|c|]))
  }

  /** Once something was counted, the as-written loop counts and hashes every further byte. */
  lemma {:induction false} AsWrittenAfterStart(chunks: seq<seq<Byte>>, buffer: seq<Byte>, p: Progress)
    requires |buffer| >= 2 && Readable(chunks, |buffer|) && p.total > 0
    ensures AsWrittenRead(chunks, buffer, p) == Success(Progress(p.total + |Flatten(chunks)|, p.data + Flatten(chunks)))
    decreases |chunks|
  {
    if chunks == [] {
      assert p.data + Flatten(chunks) == p.data;
    } else {
      var c := chunks[0];
      var b := Overlay(buffer, c);
      assert b[0..|c|] == c;
      assert AsWrittenRead(chunks, buffer, p) == AsWrittenRead(chunks[1..], b, Progress(p.total + |c|, p.data + c));
      AsWrittenAfterStart(chunks[1..], b, Progress(p.total + |c|, p.data + c));
      FlattenCons(chunks);
      assert p.data + c + Flatten(chunks[1..]) == p.data + Flatten(chunks);
    }
  }

  lemma {:induction false} FlattenCons(chunks: seq<seq<Byte>>)
    requires chunks != []
    ensures Flatten(chunks) == chunks[0] + Flatten(chunks[1..])
    decreases |chunks|
  {
    if |chunks| > 1 {
      var init := chunks[..|chunks| - 1];
      FlattenCons(init);
      assert init[1..] == chunks[1..][..|chunks[1..]| - 1];
    }
  }

  lemma FlattenTwo(a: seq<Byte>, b: seq<Byte>)
    ensures Flatten([a, b]) == a + b
  {
    assert [a, b][..1] == [a];
    assert Flatten([a]) == Flatten([]) + a;
  }

  /** The counted bytes of a stream delivered in two reads. */
  lemma HashedTwo(a: seq<Byte>, b: seq<Byte>)
    ensures Hashed([a, b]) == if StartsWithBom(a + b) then (a + b)[2..] else a + b
  {
    FlattenTwo(a, b);
  }

  /** The skip the leading read gets when it holds at least two bytes. */
  function LeadingSkip(chunks: seq<seq<Byte>>): nat {
    if LeadingBom(chunks) then 2 else 0
  }

  /** A leading read of at least two bytes is tested against its own first two bytes. */
  lemma AsWrittenFirstRead(chunks: seq<seq<Byte>>, buffer: seq<Byte>)
    requires |buffer| >= 2 && Readable(chunks, |buffer|) && chunks != [] && |chunks[0]| >= 2
    ensures var c := chunks[0];
      AsWrittenRead(chunks, buffer, Progress(0, []))
        == AsWrittenRead(chunks[1..], Overlay(buffer, c), Progress(|c| - LeadingSkip(chunks), c[LeadingSkip(chunks)..]))
  {
    var c := chunks[0];
    var b := Overlay(buffer, c);
    var skip := LeadingSkip(chunks);
    assert b[0] == c[0] && b[1] == c[1];
    assert (if 0 == 0 && b[0] == 0xFF && b[1] == 0xFE then 2 else 0) == skip;
    assert b[skip..|c|] == c[skip..];
    assert Progress(0 + |c| - skip, [] + b[skip..|c|]) == Progress(|c| - skip, c[skip..]);
  }

  lemma HashedSplit(chunks: seq<seq<Byte>>)
    requires chunks != [] && |chunks[0]| >= 2
    ensures Hashed(chunks) == chunks[0][LeadingSkip(chunks)..] + Flatten(chunks[1..])
  {
    FlattenCons(chunks);
    LeadingReadDecides(chunks);
    assert Flatten(chunks)[LeadingSkip(chunks)..] == chunks[0][LeadingSkip(chunks)..] + Flatten(chunks[1..]);
  }

  /** After a leading read of at least two bytes that counts something, every further byte is counted. */
  lemma AsWrittenFromStart(chunks: seq<seq<Byte>>, buffer: seq<Byte>)
    requires |buffer| >= 2 && Readable(chunks, |buffer|) && chunks != [] && |chunks[0]| >= 2
    requires |chunks[0]| > LeadingSkip(chunks)
    ensures var c := chunks[0];
      var skip := LeadingSkip(chunks);
      AsWrittenRead(chunks, buffer, Progress(0, []))
        == Success(Progress(|c| - skip + |Flatten(chunks[1..])|, c[skip..] + Flatten(chunks[1..])))
  {
    var c := chunks[0];
    AsWrittenFirstRead(chunks, buffer);
    AsWrittenAfterStart(chunks[1..], Overlay(buffer, c), Progress(|c| - LeadingSkip(chunks), c[LeadingSkip(chunks)..]));
  }

  /** When the leading read has more than two bytes, or exactly two that are not the mark, the as-written loop does what was intended. */
  lemma AsWrittenAgrees(chunks: seq<seq<Byte>>, buffer: seq<Byte>)
    requires |buffer| >= 2 && Readable(chunks, |buffer|)
    requires chunks != [] && (|chunks[0]| > 2 || (|chunks[0]| == 2 && !LeadingBom(chunks)))
    ensures AsWrittenRead(chunks, buffer, Progress(0, [])) == Success(Progress(|Hashed(chunks)|, Hashed(chunks)))
  {
    var c := chunks[0];
    var skip := LeadingSkip(chunks);
    AsWrittenFromStart(chunks, buffer);
    HashedSplit(chunks);
    var h := c[skip..] + Flatten(chunks[1..]);
    assert Hashed(chunks) == h;
    assert |h| == |c| - skip + |Flatten(chunks[1..])|;
  }

  /** A leading read of exactly the mark leaves the as-written loop where it started: nothing counted. */
  lemma AsWrittenBareMark(chunks: seq<seq<Byte>>, buffer: seq<Byte>)
    requires |buffer| >= 2 && Readable(chunks, |buffer|) && chunks != [] && chunks[0] == ByteOrderMark
    ensures AsWrittenRead(chunks, buffer, Progress(0, []))
         == AsWrittenRead(chunks[1..], Overlay(buffer, ByteOrderMark), Progress(0, []))
  {
    var b := Overlay(buffer, ByteOrderMark);
    assert b[0] == 0xFF && b[1] == 0xFE && [] + b[2..2] == [];
  }

  /** So a second mark right after it is skipped as well, though it is data. */
  lemma AsWrittenSkipsTwice(buffer: seq<Byte>, rest: seq<Byte>)
    requires |buffer| >= 2 + |rest|
    ensures var chunks := [ByteOrderMark, ByteOrderMark + rest];
      && AsWrittenRead(chunks, buffer, Progress(0, [])) == Success(Progress(|rest|, rest))
      && Hashed(chunks) == ByteOrderMark + rest
  {
    var second := ByteOrderMark + rest;
    var chunks := [ByteOrderMark, second];
    assert AsWrittenRead(chunks, buffer, Progress(0, [])) == Success(Progress(|rest|, rest)) by {
      AsWrittenBareMark(chunks, buffer);
      var b := Overlay(buffer, ByteOrderMark);
      var b' := Overlay(b, second);
      assert b'[0] == 0xFF && b'[1] == 0xFE && [] + b'[2..|second|] == rest;
      assert chunks[1..] == [second];
      assert AsWrittenRead([second], b, Progress(0, [])) == AsWrittenRead([], b', Progress(|rest|, rest));
    }
    assert Hashed(chunks) == second by {
      HashedTwo(ByteOrderMark, second);
      assert (ByteOrderMark + second)[2..] == second;
    }
  }

  /** A single-byte leading read of 0xFF, with 0xFE left at position 1 by an earlier stream, makes the hash throw. */
  lemma AsWrittenStaleByte(buffer: seq<Byte>)
    requires |buffer| >= 2 && buffer[1] == 0xFE
    ensures AsWrittenRead([[0xFF]], buffer, Progress(0, [])) == Failure(InputCountOutOfRange)
    ensures Hashed([[0xFF]]) == [0xFF]
  {
    assert Flatten([[0xFF]]) == Flatten([]) + [0xFF];
  }

  /** A one-byte leading read that does not meet a left-over 0xFE after 0xFF skips nothing: every byte is counted. */
  lemma AsWrittenSingleByte(chunks: seq<seq<Byte>>, buffer: seq<Byte>)
    requires |buffer| >= 2 && Readable(chunks, |buffer|) && chunks != [] && |chunks[0]| == 1
    requires !(chunks[0][0] == 0xFF && buffer[1] == 0xFE)
    ensures AsWrittenRead(chunks, buffer, Progress(0, [])) == Success(Progress(|Flatten(chunks)|, Flatten(chunks)))
  {
    var c := chunks[0];
    var b := Overlay(buffer, c);
    assert b[0] == c[0] && b[1] == buffer[1] && [] + b[0..1] == c;
    assert AsWrittenRead(chunks, buffer, Progress(0, [])) == AsWrittenRead(chunks[1..], b, Progress(1, c));
    AsWrittenAfterStart(chunks[1..], b, Progress(1, c));
    FlattenCons(chunks);
  }

  /** So a mark split over a one-byte leading read and the next read is counted and hashed as data. */
  lemma AsWrittenSplitMark(buffer: seq<Byte>, rest: seq<Byte>)
    requires |buffer| >= 1 + |rest| && |buffer| >= 2 && buffer[1] != 0xFE
    ensures var chunks := [[0xFF], [0xFE] + rest];
      && AsWrittenRead(chunks, buffer, Progress(0, [])) == Success(Progress(2 + |rest|, ByteOrderMark + rest))
      && Hashed(chunks) == rest
  {
    var first: seq<Byte>, second := [0xFF], [0xFE] + rest;
    AsWrittenSingleByte([first, second], buffer);
    FlattenTwo(first, second);
    assert first + second == ByteOrderMark + rest by {
      assert first + [0xFE] == ByteOrderMark;
      assert first + second == (first + [0xFE]) + rest;
    }
    HashedTwo(first, second);
    assert (first + second)[2..] == rest;
  }

  // ---------------------------------------------------------------------
  // The collector
  // ---------------------------------------------------------------------

  class HashCollector {
    /** MD5, which the model does not compute. */
    const md5: seq<Byte> -> Digest
    const totals: array<Long>
    /** The read buffer; the original keeps one per thread, the model one thread. */
    const buffer: array<Byte>

    ghost predicate Valid() {
      totals.Length == DigestSize && buffer.Length == BufferSize
    }

    /** A collector with every total at zero. */
    constructor (md5: seq<Byte> -> Digest)
      ensures Valid() && this.md5 == md5 && fresh(totals) && fresh(buffer)
      ensures totals[..] == seq(DigestSize, _ => 0)
    {
      this.md5 := md5;
      totals := new Long[DigestSize](_ => 0);
      buffer := new Byte[BufferSize](_ => 0);
    }

    /** Add the digest's bytes into the totals, slot by slot. */
    method AddToMd5Total(d: Digest)
      requires Valid()
      modifies totals
      ensures totals[..] == Accumulate(old(totals[..]), d)
    {
      for i := 0 to DigestSize
        invariant forall k :: 0 <= k < i ==> totals[k] == Wrap(old(totals[k]) + d[k])
        invariant forall k :: i <= k < DigestSize ==> totals[k] == old(totals[k])
      {
        totals[i] := Wrap(totals[i] + d[i]);
      }
    }

    /** Hash the string's UTF-16 bytes into the totals; the result is their number. */
    method AddString(s: string) returns (n: int)
      requires Valid()
      modifies totals
      ensures n == |Utf16(s)| && totals[..] == Accumulate(old(totals[..]), md5(Utf16(s)))
    {
      var bytes := Utf16(s);
      AddToMd5Total(md5(bytes));
      n := |bytes|;
    }

    /** One read of the stream into the front of the buffer. */
    method Read(chunk: seq<Byte>)
      requires Valid() && |chunk| <= buffer.Length
      modifies buffer
      ensures buffer[..] == Overlay(old(buffer[..]), chunk)
    {
      for j := 0 to |chunk|
        invariant forall k :: 0 <= k < j ==> buffer[k] == chunk[k]
        invariant forall k :: j <= k < buffer.Length ==> buffer[k] == old(buffer[k])
      {
        buffer[j] := chunk[j];
      }
      assert buffer[..] == Overlay(old(buffer[..]), chunk);
    }

    /**
     * Hash the stream's bytes into the totals, a byte-order mark the stream
     * begins with excepted, and return how many bytes were hashed. The mark
     * is looked for in the first two bytes of the stream, whichever reads
     * deliver them.
     */
    method AddStream(chunks: seq<seq<Byte>>) returns (n: int)
      requires Valid() && Readable(chunks, BufferSize)
      modifies totals, buffer
      ensures n == |Hashed(chunks)| && totals[..] == Accumulate(old(totals[..]), md5(Hashed(chunks)))
      ensures buffer[..] == Overlaid(old(buffer[..]), chunks)
    {
      var data: seq<Byte> := [];
      var k := 0;
      while k < |chunks|
        invariant 0 <= k <= |chunks|
        invariant Overlaid(buffer[..], chunks[k..]) == Overlaid(old(buffer[..]), chunks)
        invariant data == Flatten(chunks[..k])
        invariant totals[..] == old(totals[..])
      {
        var count := |chunks[k]|;
        Read(chunks[k]);
        data := data + buffer[..count];
        assert chunks[..k + 1][..k] == chunks[..k];
        k := k + 1;
      }
      assert chunks[..k] == chunks && chunks[k..] == [];
      if |data| >= 2 && data[0] == 0xFF && data[1] == 0xFE {
        data := data[2..];
      }
      AddToMd5Total(md5(data));
      n := |data|;
    }

    /** Add(Stream) as written: the byte-order mark test of AsWrittenRead. */
    method AddStreamAsWritten(chunks: seq<seq<Byte>>) returns (r: Result<int, HashFault>)
      requires Valid() && Readable(chunks, BufferSize)
      modifies totals, buffer
      ensures var w := AsWrittenRead(chunks, old(buffer[..]), Progress(0, []));
        && (w.Success? ==> r == Success(w.value.total) && totals[..] == Accumulate(old(totals[..]), md5(w.value.data)))
        && (w.Failure? ==> r == Failure(w.error) && totals[..] == old(totals[..]))
      ensures buffer[..] == Overlaid(old(buffer[..]), chunks[..AsWrittenReads(chunks, old(buffer[..]), Progress(0, []))])
    {
      var total := 0;
      var data: seq<Byte> := [];
      var k := 0;
      while k < |chunks|
        invariant 0 <= k <= |chunks|
        invariant AsWrittenRead(chunks[k..], buffer[..], Progress(total, data))
               == AsWrittenRead(chunks, old(buffer[..]), Progress(0, []))
        invariant k + AsWrittenReads(chunks[k..], buffer[..], Progress(total, data))
               == AsWrittenReads(chunks, old(buffer[..]), Progress(0, []))
        invariant buffer[..] == Overlaid(old(buffer[..]), chunks[..k])
        invariant totals[..] == old(totals[..])
      {
        var count := |chunks[k]|;
        OverlaidSnoc(old(buffer[..]), chunks, k);
        Read(chunks[k]);
        var skip := if total == 0 && buffer[0] == 0xFF && buffer[1] == 0xFE then 2 else 0;
        if count - skip < 0 {
          return Failure(InputCountOutOfRange);
        }
        total := total + count - skip;
        data := data + buffer[skip..count];
        k := k + 1;
      }
      assert chunks[..k] == chunks;
      AddToMd5Total(md5(data));
      r := Success(total);
    }

    /** The final hash: MD5 of the ASCII bytes of the totals in decimal, one after the other. */
    method TotalHash() returns (h: Digest)
      requires Valid()
      ensures h == md5(Ascii(TotalText(totals[..])))
    {
      var text := "";
      for i := 0 to DigestSize
        invariant text == TotalText(totals[..i])
      {
        assert totals[..i + 1][..i] == totals[..i];
        text := text + Decimal(totals[i]);
      }
      assert totals[..DigestSize] == totals[..];
      h := md5(Ascii(text));
    }

    /** The final hash as 32 lowercase hexadecimal digits. */
    method ToString() returns (s: string)
      requires Valid()
      ensures s == Hex(md5(Ascii(TotalText(totals[..]))))
    {
      var bytes := TotalHash();
      s := "";
      for i := 0 to |bytes|
        invariant s == Hex(bytes[..i])
      {
        assert bytes[..i + 1][..i] == bytes[..i];
        s := s + [HexDigit(bytes[i] / 16), HexDigit(bytes[i] % 16)];
      }
      assert bytes[..|bytes|] == bytes;
    }
  }
}
