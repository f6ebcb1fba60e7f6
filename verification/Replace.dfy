/** `str::replace` (library/alloc/src/str.rs). */
module Replace {
  import opened Utf8
  import opened StringBuf

  /** A pattern is a single ASCII character, or anything else. */
  datatype Pattern = AsciiByte(x: Byte) | General

  /** The matches of a single byte. */
  function ByteMatches(b: seq<Byte>, x: Byte, from: nat): seq<Range>
    requires from <= |b|
    decreases |b| - from
  {
    if from == |b| then []
    else if b[from] == x then [(from, from + 1)] + ByteMatches(b, x, from + 1)
    else ByteMatches(b, x, from + 1)
  }

  function ReplaceAscii(b: seq<Byte>, x: Byte, y: Byte): seq<Byte> {
    seq(|b|, i requires 0 <= i < |b| => if b[i] == x then y else b[i])
  }

  lemma {:induction false} ByteMatchesOrdered(b: seq<Byte>, x: Byte, from: nat, start: nat)
    requires start <= from <= |b|
    ensures Ordered(ByteMatches(b, x, from), start, |b|)
    decreases |b| - from
  {
    if from < |b| {
      if b[from] == x {
        ByteMatchesOrdered(b, x, from + 1, from + 1);
      } else {
        ByteMatchesOrdered(b, x, from + 1, start);
      }
    }
  }

  lemma ReplaceAsciiSplit(a: seq<Byte>, b: seq<Byte>, x: Byte, y: Byte)
    ensures ReplaceAscii(a + b, x, y) == ReplaceAscii(a, x, y) + ReplaceAscii(b, x, y)
  {
  }

  /** The fast path: where no byte in `b[start..from]` matches. */
  lemma {:induction false} FastPathAgrees(b: seq<Byte>, x: Byte, y: Byte, start: nat, from: nat)
    requires start <= from <= |b| && x !in b[start..from]
    ensures Ordered(ByteMatches(b, x, from), start, |b|)
    ensures Replaced(b, ByteMatches(b, x, from), start, [y]) == ReplaceAscii(b[start..], x, y)
    decreases |b| - from
  {
    hide ReplaceAscii;
    ByteMatchesOrdered(b, x, from, start);
    if from == |b| {
      assert b[start..] == b[start..from];
      NothingToReplace(b[start..from], x, y);
    } else if b[from] == x {
      assert b[start..] == b[start..from] + ([x] + b[from + 1..]);
      ReplaceAsciiSplit(b[start..from], [x] + b[from + 1..], x, y);
      ReplaceAsciiSplit([x], b[from + 1..], x, y);
      NothingToReplace(b[start..from], x, y);
      ReplacedOne(x, y);
      FastPathAgrees(b, x, y, from + 1, from + 1);
    } else {
      assert b[start..from + 1] == b[start..from] + [b[from]];
      FastPathAgrees(b, x, y, start, from + 1);
    }
  }

  lemma NothingToReplace(b: seq<Byte>, x: Byte, y: Byte)
    requires x !in b
    ensures ReplaceAscii(b, x, y) == b
  {
  }

  lemma ReplacedOne(x: Byte, y: Byte)
    ensures ReplaceAscii([x], x, y) == [y]
  {
  }

  /** `rest` is still to be done, from `lastEnd` on. */
  ghost predicate Built(b: seq<Byte>, ms: seq<Range>, to: seq<Byte>, rest: seq<Range>, lastEnd: nat,
                        result: seq<Byte>)
  {
    && Ordered(ms, 0, |b|) && Ordered(rest, lastEnd, |b|)
    && Replaced(b, ms, 0, to) == result + Replaced(b, rest, lastEnd, to)
  }

  lemma BuiltMore(b: seq<Byte>, ms: seq<Range>, to: seq<Byte>, rest: seq<Range>, lastEnd: nat, result: seq<Byte>)
    requires Built(b, ms, to, rest, lastEnd, result)
    ensures lastEnd <= |b|
    ensures rest == [] ==> result + b[lastEnd..] == Replaced(b, ms, 0, to)
    ensures rest != [] ==>
              && lastEnd <= rest[0].0 <= rest[0].1 <= |b|
              && Built(b, ms, to, rest[1..], rest[0].1, (result + b[lastEnd..rest[0].0]) + to)
  {
    OrderedInside(rest, lastEnd, |b|);
    if rest != [] {
      OrderedInside(rest[1..], rest[0].1, |b|);
      var head, tail := b[lastEnd..rest[0].0], Replaced(b, rest[1..], rest[0].1, to);
      Regroup(result, head, to, tail);
    }
  }

  lemma Regroup(a: seq<Byte>, b: seq<Byte>, c: seq<Byte>, d: seq<Byte>)
    ensures a + (b + c + d) == ((a + b) + c) + d
  {
  }

  /** `ms` are the matches that the searcher reports. */
  method Replace(b: seq<Byte>, pattern: Pattern, ms: seq<Range>, to: seq<Byte>) returns (result: seq<Byte>)
    requires Ordered(ms, 0, |b|)
    requires pattern.AsciiByte? ==> ms == ByteMatches(b, pattern.x, 0)
    ensures result == Replaced(b, ms, 0, to)
  {
    if pattern.AsciiByte? && |to| == 1 {
      FastPathAgrees(b, pattern.x, to[0], 0, 0);
      assert b[0..] == b && to == [to[0]];
      return ReplaceAscii(b, pattern.x, to[0]);
    }
    result := [];
    var lastEnd: nat := 0;
    assert ms[0..] == ms && [] + Replaced(b, ms, 0, to) == Replaced(b, ms, 0, to);
    hide Replaced, ByteMatches;
    for j := 0 to |ms|
      invariant Built(b, ms, to, ms[j..], lastEnd, result)
    {
      BuiltMore(b, ms, to, ms[j..], lastEnd, result);
      assert ms[j..][1..] == ms[j + 1..];
      hide Built;
      result := result + b[lastEnd..ms[j].0];
      result := result + to;
      lastEnd := ms[j].1;
    }
    BuiltMore(b, ms, to, ms[|ms|..], lastEnd, result);
    result := result + b[lastEnd..];
  }

  // ---------- the result is a string ----------

  lemma ValidAppend(a: seq<Byte>, b: seq<Byte>)
    requires Valid(a) && Valid(b)
    ensures Valid(a + b)
  {
    EncodesDecodedAll(a);
    EncodesDecodedAll(b);
    EncodeAppend(DecodeAll(a), DecodeAll(b));
    DecodesEncodedAll(DecodeAll(a) + DecodeAll(b));
  }

  /** The matches lie on character boundaries: what is between them is UTF-8. */
  predicate OnBoundaries(b: seq<Byte>, ms: seq<Range>, from: nat)
    requires Ordered(ms, from, |b|)
  {
    OrderedInside(ms, from, |b|);
    if ms == [] then Valid(b[from..]) else Valid(b[from..ms[0].0]) && OnBoundaries(b, ms[1..], ms[0].1)
  }

  lemma {:induction false} ReplacedIsUtf8(b: seq<Byte>, ms: seq<Range>, from: nat, to: seq<Byte>)
    requires Ordered(ms, from, |b|) && OnBoundaries(b, ms, from) && Valid(to)
    ensures Valid(Replaced(b, ms, from, to))
    decreases |ms|
  {
    hide Valid;
    OrderedInside(ms, from, |b|);
    if ms != [] {
      ReplacedIsUtf8(b, ms[1..], ms[0].1, to);
      ValidAppend(b[from..ms[0].0], to);
      ValidAppend(b[from..ms[0].0] + to, Replaced(b, ms[1..], ms[0].1, to));
    }
  }
}
