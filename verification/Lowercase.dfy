/** `str::to_lowercase` (library/alloc/src/str.rs): a fast pass over the ASCII prefix, then character by
    character. */
module Lowercase {
  import opened Utf8
  import opened Memory
  import opened FinalSigma

  // ---------- the single-pass definition ----------

  function AsciiLower(b: Byte): Byte { if 0x41 <= b <= 0x5A then b + 0x20 else b }

  /** The characters of a NUL-padded answer of the case table. */
  function Expansion(m: (Char, Char, Char)): seq<Char> {
    if m.1 == 0 then [m.0] else if m.2 == 0 then [m.0, m.1] else [m.0, m.1, m.2]
  }

  function Padded(m: (Char, Char, Char)): seq<Char> { [m.0, m.1, m.2] }

  /** Only padding is lost: at least one character is kept, all that follow it are not NUL, and the first one
      left out is. */
  lemma ExpansionIsAllButPadding(m: (Char, Char, Char))
    ensures var e := Expansion(m);
            && 1 <= |e| <= 3 && e == Padded(m)[..|e|]
            && (forall j | 1 <= j < |e| :: e[j] != 0)
            && (|e| < 3 ==> Padded(m)[|e|] == 0)
  {
  }

  /** The lower case of the k-th character, in the context of the whole string. */
  function LowerAt(t: Tables, cs: seq<Char>, k: nat): seq<Char>
    requires k < |cs|
  {
    if cs[k] != SIGMA then Expansion(t.lower(cs[k]))
    else [if IsWordFinal(t, cs[..k], cs[k + 1..]) then SMALL_FINAL_SIGMA else SMALL_SIGMA]
  }

  function LowerFrom(t: Tables, cs: seq<Char>, k: nat): seq<Char>
    requires k <= |cs|
    decreases |cs| - k
  {
    if k == |cs| then [] else LowerAt(t, cs, k) + LowerFrom(t, cs, k + 1)
  }

  /** On ASCII the case table is the ASCII case mapping. */
  ghost predicate AgreesOnAscii(t: Tables) {
    forall c: Char | c < 0x80 :: t.lower(c) == (AsciiLower(c), 0, 0)
  }

  // ---------- the ASCII prefix ----------

  /** The length of the longest ASCII prefix. */
  function AsciiPrefix(s: seq<Byte>): (n: nat)
    ensures n <= |s|
  {
    if s == [] || s[0] > 127 then 0 else 1 + AsciiPrefix(s[1..])
  }

  function Converted(s: seq<Byte>): (r: seq<Byte>)
    ensures |r| == |s|
  {
    seq(|s|, i requires 0 <= i < |s| => AsciiLower(s[i]))
  }

  lemma {:induction false} AsciiPrefixLongest(s: seq<Byte>, n: nat)
    requires n <= |s| && (forall i | 0 <= i < n :: s[i] <= 127) && (n < |s| ==> s[n] > 127)
    ensures AsciiPrefix(s) == n
  {
    if n > 0 {
      AsciiPrefixLongest(s[1..], n - 1);
    }
  }

  /** `n` bytes have been converted into `out`. */
  ghost predicate Copied(s: seq<Byte>, out: seq<Slot<Byte>>, n: nat) {
    && n <= |s| == |out| && (forall i | 0 <= i < n :: s[i] <= 127)
    && out[..n] == Filled(Converted(s[..n]))
  }

  lemma CopiedMore(s: seq<Byte>, out: seq<Slot<Byte>>, n: nat, out': seq<Slot<Byte>>, n': nat)
    requires Copied(s, out, n) && n <= n' <= |s| && |out'| == |out| && out'[..n] == out[..n]
    requires forall i | n <= i < n' :: s[i] <= 127 && out'[i] == Full(AsciiLower(s[i]))
    ensures Copied(s, out', n')
  {
    forall i | 0 <= i < n' ensures out'[..n'][i] == Filled(Converted(s[..n']))[i] {
      if i < n {
        assert out'[..n][i] == out[..n][i] == Filled(Converted(s[..n]))[i];
      }
    }
  }

  lemma CopiedAll(s: seq<Byte>, out: seq<Slot<Byte>>, n: nat)
    requires Copied(s, out, n) && (n < |s| ==> s[n] > 127)
    ensures n <= |out| && IsFilled(out[..n]) && n == AsciiPrefix(s) && Values(out[..n]) == Converted(s[..n])
  {
    AsciiPrefixLongest(s, n);
    ValuesFilled(Converted(s[..n]));
  }

  const N := 16

  /** The test of one chunk: N comparisons, whose sum tells whether all hold. */
  method ChunkIsAscii(chunk: seq<Byte>, isAscii: array<bool>) returns (all: bool)
    requires |chunk| == N == isAscii.Length
    modifies isAscii
    ensures all <==> forall j | 0 <= j < N :: chunk[j] <= 127
  {
    for j := 0 to N
      invariant forall i | 0 <= i < j :: isAscii[i] == (chunk[i] <= 127)
    {
      isAscii[j] := chunk[j] <= 127;
    }
    var sum := 0;
    for j := 0 to N
      invariant 0 <= sum <= j && (sum == j <==> forall i | 0 <= i < j :: isAscii[i])
    {
      sum := sum + if isAscii[j] then 1 else 0;
    }
    all := sum == N;
    assert all <==> forall i | 0 <= i < N :: isAscii[i];
  }

  /** Converts `count` bytes of `s` from `at` on. */
  method ConvertChunk(s: seq<Byte>, out: array<Slot<Byte>>, at: nat, count: nat)
    requires at + count <= |s| == out.Length
    requires Copied(s, out[..], at) && forall i | at <= i < at + count :: s[i] <= 127
    modifies out
    ensures Copied(s, out[..], at + count)
  {
    ghost var before := out[..];
    hide Copied;
    for j := 0 to count
      invariant out[..at] == before[..at]
      invariant forall i | at <= i < at + j :: out[i] == Full(AsciiLower(s[i]))
    {
      out[at + j] := Full(AsciiLower(s[at + j]));
    }
    CopiedMore(s, before, at, out[..], at + count);
  }

  method ConvertWhileAscii(s: seq<Byte>) returns (prefix: seq<Byte>, rest: seq<Byte>)
    ensures prefix == Converted(s[..AsciiPrefix(s)]) && rest == s[AsciiPrefix(s)..]
  {
    var out := new Slot<Byte>[|s|](_ => Blank);
    var isAscii := new bool[N](_ => false);
    var n: nat := 0;
    assert Copied(s, out[..], 0);
    hide Copied, AsciiPrefix, Converted;
    while |s| - n >= N
      invariant n <= |s| && Copied(s, out[..], n)
    {
      var chunk := s[n..n + N];
      var ascii := ChunkIsAscii(chunk, isAscii);
      if !ascii {
        break;
      }
      assert forall i | n <= i < n + N :: s[i] == chunk[i - n];
      ConvertChunk(s, out, n, N);
      n := n + N;
    }
    while n < |s| && s[n] <= 127
      invariant n <= |s| && Copied(s, out[..], n)
      decreases |s| - n
    {
      ConvertChunk(s, out, n, 1);
      n := n + 1;
    }
    CopiedAll(s, out[..], n);
    assert out[..][..n] == out[..n];
    return Values(out[..n]), s[n..];
  }

  // ---------- character by character ----------

  /** The k-th character of `s` starts at byte `p`. */
  predicate Position(s: seq<Byte>, cs: seq<Char>, k: nat, p: nat) {
    && k <= |cs| && p <= |s|
    && s[..p] == EncodeAll(cs[..k]) && s[p..] == EncodeAll(cs[k..])
  }

  lemma PositionFirst(s: seq<Byte>)
    requires Valid(s)
    ensures Position(s, DecodeAll(s), 0, 0)
  {
    EncodesDecodedAll(s);
    var cs := DecodeAll(s);
    assert cs[0..] == cs && s[0..] == s && cs[..0] == [];
  }

  lemma FirstOf(cs: seq<Char>, k: nat)
    requires k < |cs|
    ensures EncodeAll(cs[k..]) == Encode(cs[k]) + EncodeAll(cs[k + 1..])
    ensures EncodeAll(cs[..k + 1]) == EncodeAll(cs[..k]) + Encode(cs[k])
  {
    hide Encode;
    assert cs[k..][0] == cs[k] && cs[k..][1..] == cs[k + 1..];
    EncodeAppend(cs[..k], [cs[k]]);
    EncodeOne(cs[k]);
    assert cs[..k + 1] == cs[..k] + [cs[k]];
  }

  lemma MoveCut(s: seq<Byte>, p: nat, e: seq<Byte>, rest: seq<Byte>)
    requires p <= |s| && s[p..] == e + rest
    ensures p + |e| <= |s| && s[..p + |e|] == s[..p] + e && s[p + |e|..] == rest
  {
    assert s == s[..p] + e + rest;
  }

  lemma PositionNext(s: seq<Byte>, cs: seq<Char>, k: nat, p: nat)
    requires Position(s, cs, k, p)
    ensures p == |s| <==> k == |cs|
    ensures k < |cs| ==> StartsChar(s[p..]) && DecodeOne(s[p..]) == cs[k] && p + |Encode(cs[k])| <= |s|
    ensures k < |cs| ==> Position(s, cs, k + 1, p + |Encode(cs[k])|)
  {
    hide Encode, StartsChar, DecodeOne;
    if k < |cs| {
      var rest := EncodeAll(cs[k + 1..]);
      FirstOf(cs, k);
      DecodesEncoded(cs[k], rest);
      MoveCut(s, p, Encode(cs[k]), rest);
    }
  }

  lemma SameContext(t: Tables, s: seq<Byte>, cs: seq<Char>, k: nat, p: nat)
    requires Position(s, cs, k, p) && k < |cs| && cs[k] == SIGMA
    ensures p + 2 <= |s| && Valid(s[..p]) && Valid(s[p + 2..]) && [MapUppercaseSigma(t, s, p)] == LowerAt(t, cs, k)
  {
    PositionNext(s, cs, k, p);
    assert |Encode(SIGMA)| == 2;
    DecodesEncodedAll(cs[..k]);
    DecodesEncodedAll(cs[k + 1..]);
    hide Position, Encode, IsWordFinal;
    PositionMeans(s, cs, k, p);
    PositionMeans(s, cs, k + 1, p + 2);
  }

  lemma PositionMeans(s: seq<Byte>, cs: seq<Char>, k: nat, p: nat)
    requires Position(s, cs, k, p)
    ensures k <= |cs| && p <= |s| && s[..p] == EncodeAll(cs[..k]) && s[p..] == EncodeAll(cs[k..])
  {
  }

  // ---------- the whole string ----------

  /** The characters below `k`, which end at byte `p`, are done. */
  ghost predicate Lowering(t: Tables, s: seq<Byte>, cs: seq<Char>, k: nat, p: nat, r: seq<Byte>) {
    && Position(s, cs, k, p)
    && r + EncodeAll(LowerFrom(t, cs, k)) == EncodeAll(LowerFrom(t, cs, 0))
  }

  lemma LoweringFirst(t: Tables, s: seq<Byte>)
    requires Valid(s)
    ensures Lowering(t, s, DecodeAll(s), 0, 0, [])
  {
    PositionFirst(s);
    hide Position, Valid, DecodeAll;
    var all := EncodeAll(LowerFrom(t, DecodeAll(s), 0));
    assert [] + all == all;
  }

  lemma LoweringNext(t: Tables, s: seq<Byte>, cs: seq<Char>, k: nat, p: nat, r: seq<Byte>)
    requires Lowering(t, s, cs, k, p, r) && k < |cs|
    ensures Lowering(t, s, cs, k + 1, p + |Encode(cs[k])|, r + EncodeAll(LowerAt(t, cs, k)))
  {
    PositionNext(s, cs, k, p);
    hide Position, Encode, LowerAt;
    EncodeAppend(LowerAt(t, cs, k), LowerFrom(t, cs, k + 1));
    var now, later := EncodeAll(LowerAt(t, cs, k)), EncodeAll(LowerFrom(t, cs, k + 1));
    assert r + (now + later) == (r + now) + later;
  }

  lemma LoweringDone(t: Tables, s: seq<Byte>, cs: seq<Char>, p: nat, r: seq<Byte>)
    requires Lowering(t, s, cs, |cs|, p, r)
    ensures r == EncodeAll(LowerFrom(t, cs, 0))
  {
    assert r + [] == r;
  }

  /** An ASCII byte is a character of its own, and the table agrees with the conversion of the fast pass. */
  lemma LoweringAscii(t: Tables, s: seq<Byte>, cs: seq<Char>, k: nat, r: seq<Byte>)
    requires AgreesOnAscii(t) && Lowering(t, s, cs, k, k, r) && k < |s| && s[k] <= 127
    ensures Lowering(t, s, cs, k + 1, k + 1, r + [AsciiLower(s[k])])
  {
    PositionNext(s, cs, k, k);
    hide Position, EncodeAll;
    assert DecodeOne(s[k..]) == s[k];
    assert cs[k] == s[k] && |Encode(cs[k])| == 1;
    LoweringNext(t, s, cs, k, k, r);
    EncodeOne(AsciiLower(s[k]));
    assert LowerAt(t, cs, k) == [AsciiLower(s[k])];
  }

  lemma {:induction false} LoweringPrefix(t: Tables, s: seq<Byte>, n: nat)
    requires AgreesOnAscii(t) && Valid(s) && n <= AsciiPrefix(s)
    ensures Lowering(t, s, DecodeAll(s), n, n, Converted(s[..n]))
  {
    hide Lowering, AgreesOnAscii, DecodeAll, Valid;
    if n == 0 {
      LoweringFirst(t, s);
    } else {
      AsciiPrefixAt(s, n - 1);
      LoweringPrefix(t, s, n - 1);
      LoweringAscii(t, s, DecodeAll(s), n - 1, Converted(s[..n - 1]));
      assert Converted(s[..n]) == Converted(s[..n - 1]) + [AsciiLower(s[n - 1])];
    }
  }

  lemma {:induction false} AsciiPrefixAt(s: seq<Byte>, i: nat)
    requires i < AsciiPrefix(s)
    ensures s[i] <= 127
  {
    if i > 0 {
      AsciiPrefixAt(s[1..], i - 1);
    }
  }

  lemma LowerPlain(t: Tables, cs: seq<Char>, k: nat)
    requires k < |cs| && cs[k] != SIGMA
    ensures LowerAt(t, cs, k) == Expansion(t.lower(cs[k]))
  {
  }

  /** `r` is the result for the characters that end at byte `p`. */
  ghost predicate Running(t: Tables, s: seq<Byte>, p: nat, r: seq<Byte>) {
    Valid(s) && exists k :: Lowering(t, s, DecodeAll(s), k, p, r)
  }

  lemma RunningFirst(t: Tables, s: seq<Byte>)
    requires Valid(s) && AgreesOnAscii(t)
    ensures Running(t, s, AsciiPrefix(s), Converted(s[..AsciiPrefix(s)]))
  {
    hide Valid, DecodeAll, Lowering, AgreesOnAscii;
    LoweringPrefix(t, s, AsciiPrefix(s));
  }

  lemma RunningReads(t: Tables, s: seq<Byte>, p: nat, r: seq<Byte>)
    requires Running(t, s, p, r) && p < |s|
    ensures StartsChar(s[p..]) && p + |Encode(DecodeOne(s[p..]))| <= |s|
    ensures DecodeOne(s[p..]) == SIGMA ==> p + 2 <= |s| && Valid(s[..p]) && Valid(s[p + 2..])
  {
    hide Valid, DecodeAll, Lowering, Position, StartsChar, DecodeOne, Encode;
    var k :| Lowering(t, s, DecodeAll(s), k, p, r);
    LoweringEnd(t, s, DecodeAll(s), k, p, r);
    LoweringReads(t, s, DecodeAll(s), k, p, r);
    if DecodeOne(s[p..]) == SIGMA {
      SameContext(t, s, DecodeAll(s), k, p);
    }
  }

  lemma RunningSigma(t: Tables, s: seq<Byte>, p: nat, r: seq<Byte>, sigma: Char, p': nat)
    requires Running(t, s, p, r) && p + 2 <= |s| && Valid(s[..p]) && Valid(s[p + 2..]) && StartsChar(s[p..])
    requires DecodeOne(s[p..]) == SIGMA && sigma == MapUppercaseSigma(t, s, p) && p' == p + |Encode(SIGMA)|
    ensures Running(t, s, p', r + Encode(sigma))
  {
    hide Valid, DecodeAll, Lowering, Position, StartsChar, DecodeOne, Encode, MapUppercaseSigma, EncodeAll, LowerAt;
    var k :| Lowering(t, s, DecodeAll(s), k, p, r);
    LoweringEnd(t, s, DecodeAll(s), k, p, r);
    LoweringReads(t, s, DecodeAll(s), k, p, r);
    SameContext(t, s, DecodeAll(s), k, p);
    EncodeOne(sigma);
  }

  lemma RunningPlain(t: Tables, s: seq<Byte>, p: nat, r: seq<Byte>, c: Char, p': nat)
    requires Running(t, s, p, r) && p < |s| && StartsChar(s[p..])
    requires c == DecodeOne(s[p..]) != SIGMA && p' == p + |Encode(c)|
    ensures Running(t, s, p', r + EncodeAll(Expansion(t.lower(c))))
  {
    hide Valid, DecodeAll, Lowering, Position, StartsChar, DecodeOne, Encode, EncodeAll, LowerAt, Expansion;
    var k :| Lowering(t, s, DecodeAll(s), k, p, r);
    LoweringEnd(t, s, DecodeAll(s), k, p, r);
    LoweringReads(t, s, DecodeAll(s), k, p, r);
    LowerPlain(t, DecodeAll(s), k);
  }

  lemma LoweringEnd(t: Tables, s: seq<Byte>, cs: seq<Char>, k: nat, p: nat, r: seq<Byte>)
    requires Lowering(t, s, cs, k, p, r)
    ensures k <= |cs| && p <= |s| && (p == |s| <==> k == |cs|)
  {
    PositionNext(s, cs, k, p);
  }

  lemma LoweringReads(t: Tables, s: seq<Byte>, cs: seq<Char>, k: nat, p: nat, r: seq<Byte>)
    requires Lowering(t, s, cs, k, p, r) && k < |cs|
    ensures p < |s| && StartsChar(s[p..]) && DecodeOne(s[p..]) == cs[k] && p + |Encode(cs[k])| <= |s|
    ensures Position(s, cs, k, p)
    ensures Lowering(t, s, cs, k + 1, p + |Encode(cs[k])|, r + EncodeAll(LowerAt(t, cs, k)))
  {
    PositionNext(s, cs, k, p);
    LoweringNext(t, s, cs, k, p, r);
  }

  lemma RunningDone(t: Tables, s: seq<Byte>, r: seq<Byte>)
    requires Running(t, s, |s|, r)
    ensures Valid(s) && r == EncodeAll(LowerFrom(t, DecodeAll(s), 0))
  {
    hide Valid, DecodeAll, Lowering, LowerFrom;
    var k :| Lowering(t, s, DecodeAll(s), k, |s|, r);
    LoweringEnd(t, s, DecodeAll(s), k, |s|, r);
    LoweringDone(t, s, DecodeAll(s), |s|, r);
  }

  /** The characters of `rest`, which follows the ASCII prefix of `s`. */
  method LowerRest(t: Tables, s: seq<Byte>, prefix: seq<Byte>, rest: seq<Byte>) returns (r: seq<Byte>)
    requires |prefix| <= |s| && rest == s[|prefix|..] && Running(t, s, |prefix|, prefix)
    ensures Valid(s) && r == EncodeAll(LowerFrom(t, DecodeAll(s), 0))
  {
    hide *;
    r := prefix;
    var prefixLen: nat := |prefix|;
    var i: nat := 0;
    ghost var p: nat := prefixLen;
    while i < |rest|
      invariant i <= |rest| == |s| - prefixLen && p == prefixLen + i && Running(t, s, p, r)
      decreases |rest| - i
    {
      SliceOf(s, rest, prefixLen, i, p);
      RunningReads(t, s, p, r);
      var c := DecodeOne(rest[i..]);
      ghost var next: nat := p + |Encode(c)|;
      if c == SIGMA {
        var sigma := MapUppercaseSigma(t, s, prefixLen + i);
        RunningSigma(t, s, p, r, sigma, next);
        r := r + Encode(sigma);
      } else {
        RunningPlain(t, s, p, r, c, next);
        r := r + EncodeAll(Expansion(t.lower(c)));
      }
      i, p := i + |Encode(c)|, next;
    }
    RunningDone(t, s, r);
  }

  lemma SliceOf(s: seq<Byte>, rest: seq<Byte>, n: nat, i: nat, p: nat)
    requires n <= |s| && rest == s[n..] && i <= |rest| && p == n + i
    ensures rest[i..] == s[p..]
  {
  }

  method ToLowercase(t: Tables, s: seq<Byte>) returns (r: seq<Byte>)
    requires Valid(s) && AgreesOnAscii(t)
    ensures r == EncodeAll(LowerFrom(t, DecodeAll(s), 0))
  {
    hide Running, Valid, AgreesOnAscii, LowerFrom, EncodeAll, DecodeAll, AsciiPrefix;
    var prefix, rest := ConvertWhileAscii(s);
    RunningFirst(t, s);
    r := LowerRest(t, s, prefix, rest);
  }

  // ---------- where each character's lower case is ----------

  /** The number of characters before the lower case of the k-th one. */
  function LowerOffset(t: Tables, cs: seq<Char>, k: nat): nat
    requires k <= |cs|
  {
    if k == 0 then 0 else LowerOffset(t, cs, k - 1) + |LowerAt(t, cs, k - 1)|
  }

  lemma {:induction false} LowerStands(t: Tables, cs: seq<Char>, j: nat, k: nat)
    requires j <= k < |cs|
    ensures var r := LowerFrom(t, cs, j);
            var o := LowerOffset(t, cs, k) - LowerOffset(t, cs, j);
            0 <= o <= o + |LowerAt(t, cs, k)| <= |r| && r[o..o + |LowerAt(t, cs, k)|] == LowerAt(t, cs, k)
    decreases k - j
  {
    hide LowerAt;
    var here, rest := LowerAt(t, cs, j), LowerFrom(t, cs, j + 1);
    if j < k {
      LowerStands(t, cs, j + 1, k);
      var o := LowerOffset(t, cs, k) - LowerOffset(t, cs, j + 1);
      assert (here + rest)[|here| + o..|here| + o + |LowerAt(t, cs, k)|] == rest[o..o + |LowerAt(t, cs, k)|];
    } else {
      assert (here + rest)[0..|here|] == here;
    }
  }

  lemma {:induction false} LowerLength(t: Tables, cs: seq<Char>, j: nat)
    requires j <= |cs|
    ensures |LowerFrom(t, cs, j)| == LowerOffset(t, cs, |cs|) - LowerOffset(t, cs, j)
    decreases |cs| - j
  {
    hide LowerAt;
    if j < |cs| {
      LowerLength(t, cs, j + 1);
    }
  }

  /** The characters that `e` begins with, read as a NUL-padded answer of the table. */
  predicate Begins(e: seq<Char>, m: (Char, Char, Char)) {
    && e != [] && e[0] == m.0
    && (m.1 != 0 ==> |e| >= 2 && e[1] == m.1)
    && (m.1 != 0 && m.2 != 0 ==> |e| >= 3 && e[2] == m.2)
  }

  /** The lower case of a string, decoded: nothing but the answers of the table without their padding, one
      behind the other, and for a capital sigma one of the two small ones: U+03C2 at the end of a word,
      U+03C3 elsewhere. */
  lemma LowerIsTableAnswers(t: Tables, s: seq<Byte>, r: seq<Byte>, k: nat)
    requires Valid(s) && r == EncodeAll(LowerFrom(t, DecodeAll(s), 0)) && k < |DecodeAll(s)|
    ensures Valid(r) && |DecodeAll(r)| == LowerOffset(t, DecodeAll(s), |DecodeAll(s)|)
    ensures var cs, out := DecodeAll(s), DecodeAll(r);
            var from, to := LowerOffset(t, cs, k), LowerOffset(t, cs, k + 1);
            from < to <= |out| && IsLowerOf(t, cs, k, out[from..to])
  {
    hide *;
    DecodesEncodedAll(LowerFrom(t, DecodeAll(s), 0));
    LowerPiece(t, DecodeAll(s), k);
  }

  lemma LowerPiece(t: Tables, cs: seq<Char>, k: nat)
    requires k < |cs|
    ensures var out, from, to := LowerFrom(t, cs, 0), LowerOffset(t, cs, k), LowerOffset(t, cs, k + 1);
            && |out| == LowerOffset(t, cs, |cs|)
            && from < to <= |out| && IsLowerOf(t, cs, k, out[from..to])
  {
    hide LowerFrom, LowerAt, IsLowerOf;
    LowerStands(t, cs, 0, k);
    LowerLength(t, cs, 0);
    LowerAtIsLower(t, cs, k);
    NextOffset(t, cs, k);
    hide LowerOffset;
  }

  lemma NextOffset(t: Tables, cs: seq<Char>, k: nat)
    requires k < |cs|
    ensures LowerOffset(t, cs, k + 1) == LowerOffset(t, cs, k) + |LowerAt(t, cs, k)| && LowerOffset(t, cs, 0) == 0
  {
  }

  /** `e` is what the table, or the rule for the sigma, gives for the k-th character. */
  predicate IsLowerOf(t: Tables, cs: seq<Char>, k: nat, e: seq<Char>)
    requires k < |cs|
  {
    if cs[k] != 0x3A3 then
      Begins(e, t.lower(cs[k])) && |e| <= 3 && e == Padded(t.lower(cs[k]))[..|e|]
      && forall j | 1 <= j < |e| :: e[j] != 0
    else e == [if IsWordFinal(t, cs[..k], cs[k + 1..]) then 0x3C2 else 0x3C3]
  }

  lemma LowerAtIsLower(t: Tables, cs: seq<Char>, k: nat)
    requires k < |cs|
    ensures IsLowerOf(t, cs, k, LowerAt(t, cs, k)) && LowerAt(t, cs, k) != []
  {
    if cs[k] != SIGMA {
      ExpansionIsAllButPadding(t.lower(cs[k]));
    }
    hide IsWordFinal;
  }

  /** The ASCII mapping: the k-th capital letter goes to the k-th small one, and nothing else changes. */
  lemma AsciiLowerIsTheAlphabet(b: Byte, k: nat)
    ensures k < 26 && b == 'A' as int + k ==> AsciiLower(b) == 'a' as int + k
    ensures b < 'A' as int || b > 'Z' as int ==> AsciiLower(b) == b
  {
  }
}
