/** What the specifications of `String::retain`, `String::remove_matches` and `str::replace` say: which characters
    and bytes are in the result, and where. */
module StringSpecs {
  import opened Utf8
  import opened StringBuf

  // ---------- retain ----------

  predicate NoPanicUpto(vs: seq<Verdict>, k: nat) { forall i | 0 <= i <= k && i < |vs| :: !vs[i].Panic? }

  predicate Ascending(p: seq<nat>) { forall i, j | 0 <= i < j < |p| :: p[i] < p[j] }

  /** `p` lists the calls that kept their character, in order. */
  ghost predicate IsSelection(p: seq<nat>, cs: seq<Char>, vs: seq<Verdict>, kept: seq<Char>)
    requires |cs| <= |vs|
  {
    && |p| == |kept| && Ascending(p)
    && (forall j | 0 <= j < |p| :: p[j] < |cs| && kept[j] == cs[p[j]])
    && (forall k: nat | k < |cs| :: k in p <==> vs[k].Keep? && NoPanicUpto(vs, k))
  }

  function Shifted(p: seq<nat>): seq<nat> { seq(|p|, j requires 0 <= j < |p| => p[j] + 1) }

  lemma ShiftedHas(p: seq<nat>, k: nat)
    ensures k in Shifted(p) <==> k > 0 && k - 1 in p
  {
    if k > 0 && k - 1 in p {
      var j :| 0 <= j < |p| && p[j] == k - 1;
      assert Shifted(p)[j] == k;
    }
  }

  lemma NoPanicNext(vs: seq<Verdict>, k: nat)
    requires vs != [] && !vs[0].Panic?
    ensures NoPanicUpto(vs, 0) && (k > 0 ==> (NoPanicUpto(vs, k) <==> NoPanicUpto(vs[1..], k - 1)))
  {
    if k > 0 && NoPanicUpto(vs, k) {
      assert forall i | 0 <= i <= k - 1 && i < |vs[1..]| :: vs[1..][i] == vs[i + 1];
    }
    if k > 0 && NoPanicUpto(vs[1..], k - 1) {
      forall i | 0 <= i <= k && i < |vs| ensures !vs[i].Panic? {
        if i > 0 { assert vs[1..][i - 1] == vs[i]; }
      }
    }
  }

  lemma ShiftedAscends(q: seq<nat>)
    requires Ascending(q)
    ensures Ascending(Shifted(q)) && Ascending([0] + Shifted(q))
  {
  }

  lemma CharsFollow(p: seq<nat>, q: seq<nat>, cs: seq<Char>, kept: seq<Char>, first: bool)
    requires cs != [] && |q| == |kept| && (forall j | 0 <= j < |q| :: q[j] < |cs| - 1 && kept[j] == cs[1..][q[j]])
    requires p == if first then [0] + Shifted(q) else Shifted(q)
    ensures var all := if first then [cs[0]] + kept else kept;
            |p| == |all| && forall j | 0 <= j < |p| :: p[j] < |cs| && all[j] == cs[p[j]]
  {
  }

  lemma CallsFollow(p: seq<nat>, q: seq<nat>, n: nat, vs: seq<Verdict>, k: nat)
    requires 0 < n <= |vs| && !vs[0].Panic? && k < n
    requires forall j: nat | j < n - 1 :: j in q <==> vs[1..][j].Keep? && NoPanicUpto(vs[1..], j)
    requires p == if vs[0].Keep? then [0] + Shifted(q) else Shifted(q)
    ensures k in p <==> vs[k].Keep? && NoPanicUpto(vs, k)
  {
    hide NoPanicUpto, Shifted;
    ShiftedHas(q, k);
    ShiftedHas(q, 0);
    NoPanicNext(vs, k);
    if k > 0 {
      assert vs[1..][k - 1] == vs[k];
    }
  }

  /** Exactly the characters whose calls said so are kept, those before the first panic, and in order. */
  lemma {:induction false} KeptIsSelection(cs: seq<Char>, vs: seq<Verdict>) returns (p: seq<nat>)
    requires |cs| <= |vs|
    ensures IsSelection(p, cs, vs, Kept(cs, vs))
  {
    if cs == [] || vs[0].Panic? {
      p := [];
      assert cs != [] ==> forall k: nat :: !NoPanicUpto(vs, k);
    } else {
      var q := KeptIsSelection(cs[1..], vs[1..]);
      p := if vs[0].Keep? then [0] + Shifted(q) else Shifted(q);
      KeptNext(cs, vs);
      ShiftedAscends(q);
      CharsFollow(p, q, cs, Kept(cs[1..], vs[1..]), vs[0].Keep?);
      forall k: nat | k < |cs| ensures k in p <==> vs[k].Keep? && NoPanicUpto(vs, k) {
        CallsFollow(p, q, |cs|, vs, k);
      }
      hide NoPanicUpto, Kept, Shifted, Ascending;
    }
  }

  lemma KeptNext(cs: seq<Char>, vs: seq<Verdict>)
    requires 0 < |cs| <= |vs| && !vs[0].Panic?
    ensures Kept(cs, vs) == if vs[0].Keep? then [cs[0]] + Kept(cs[1..], vs[1..]) else Kept(cs[1..], vs[1..])
  {
  }

  // ---------- remove_matches and replace ----------

  /** Where the byte `x` outside all matches is in the result, when each match is replaced by `n` elements. */
  function PlaceOf(ms: seq<Range>, from: nat, n: nat, x: nat): int {
    if ms == [] || x < ms[0].0 then x - from else ms[0].0 - from + n + PlaceOf(ms[1..], ms[0].1, n, x)
  }

  /** Where the replacement of the k-th match is. */
  function MatchPlace(ms: seq<Range>, from: nat, n: nat, k: nat): int
    requires k < |ms|
  {
    ms[0].0 - from + if k == 0 then 0 else n + MatchPlace(ms[1..], ms[0].1, n, k - 1)
  }

  function Matched(ms: seq<Range>): int {
    if ms == [] then 0 else ms[0].1 - ms[0].0 + Matched(ms[1..])
  }

  predicate Outside(ms: seq<Range>, x: nat) { forall k | 0 <= k < |ms| :: !(ms[k].0 <= x < ms[k].1) }

  /** No byte outside the matches is lost or moved to a wrong place. */
  lemma {:induction false} ReplacedKeepsByte<T>(b: seq<T>, ms: seq<Range>, from: nat, to: seq<T>, x: nat)
    requires Ordered(ms, from, |b|) && from <= x < |b| && Outside(ms, x)
    ensures 0 <= PlaceOf(ms, from, |to|, x) < |Replaced(b, ms, from, to)|
    ensures Replaced(b, ms, from, to)[PlaceOf(ms, from, |to|, x)] == b[x]
    decreases |ms|
  {
    OrderedInside(ms, from, |b|);
    if ms != [] && x >= ms[0].0 {
      assert Outside(ms[1..], x) by {
        assert forall k | 0 <= k < |ms[1..]| :: ms[1..][k] == ms[k + 1];
      }
      ReplacedKeepsByte(b, ms[1..], ms[0].1, to, x);
    }
  }

  /** Every match is replaced. */
  lemma {:induction false} ReplacedHasReplacement<T>(b: seq<T>, ms: seq<Range>, from: nat, to: seq<T>, k: nat)
    requires Ordered(ms, from, |b|) && k < |ms|
    ensures var o := MatchPlace(ms, from, |to|, k);
            0 <= o <= o + |to| <= |Replaced(b, ms, from, to)| && Replaced(b, ms, from, to)[o..o + |to|] == to
    decreases |ms|
  {
    OrderedInside(ms, from, |b|);
    hide Ordered;
    if k > 0 {
      ReplacedHasReplacement(b, ms[1..], ms[0].1, to, k - 1);
      var rest, o := Replaced(b, ms[1..], ms[0].1, to), MatchPlace(ms[1..], ms[0].1, |to|, k - 1);
      SliceBehind(b[from..ms[0].0] + to, rest, o, |to|);
    } else {
      SliceBetween(b[from..ms[0].0], to, Replaced(b, ms[1..], ms[0].1, to));
    }
  }

  lemma SliceBehind<T>(a: seq<T>, r: seq<T>, o: nat, n: nat)
    requires o + n <= |r|
    ensures (a + r)[|a| + o..|a| + o + n] == r[o..o + n]
  {
  }

  lemma SliceBetween<T>(a: seq<T>, m: seq<T>, r: seq<T>)
    ensures (a + m + r)[|a|..|a| + |m|] == m
  {
  }

  /** And there is nothing else in the result. */
  lemma {:induction false} ReplacedLength<T>(b: seq<T>, ms: seq<Range>, from: nat, to: seq<T>)
    requires Ordered(ms, from, |b|)
    ensures |Replaced(b, ms, from, to)| == |b| - from - Matched(ms) + |ms| * |to|
    decreases |ms|
  {
    OrderedInside(ms, from, |b|);
    if ms != [] {
      ReplacedLength(b, ms[1..], ms[0].1, to);
      assert |ms| * |to| == |to| + (|ms| - 1) * |to|;
    }
  }
}
