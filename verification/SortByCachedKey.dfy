/** `sort_by_cached_key` (library/alloc/src/slice.rs): sort an array of (key, index) pairs, then apply the
    resulting permutation to the slice by swaps, overwriting the index array on the way.

    A key is an integer: only its order matters, and the keys of one slice are finitely many. */
module SortByCachedKey {

  type Key = int
  type Pair = (Key, nat)

  // ---------- permutations ----------

  predicate InRange(p: seq<nat>, n: nat) { forall i | 0 <= i < |p| :: p[i] < n }

  predicate Injective(p: seq<nat>) { forall i, j | 0 <= i < j < |p| :: p[i] != p[j] }

  predicate IsPermutation(p: seq<nat>, n: nat) { |p| == n && InRange(p, n) && Injective(p) }

  function Permuted<T>(s: seq<T>, p: seq<nat>): (r: seq<T>)
    requires InRange(p, |s|)
  {
    seq(|p|, i requires 0 <= i < |p| => s[p[i]])
  }

  function Upto(n: nat): set<nat> {
    if n == 0 then {} else Upto(n - 1) + {n - 1}
  }

  lemma {:induction false} UptoSize(n: nat)
    ensures |Upto(n)| == n && forall x: nat :: x in Upto(n) <==> x < n
  {
    if n > 0 {
      UptoSize(n - 1);
    }
  }

  function Image(p: seq<nat>): set<nat> { set i | 0 <= i < |p| :: p[i] }

  lemma ImageLast(p: seq<nat>)
    requires p != []
    ensures Image(p) == Image(p[..|p| - 1]) + {p[|p| - 1]}
  {
    var q := p[..|p| - 1];
    forall x | x in Image(p) ensures x in Image(q) || x == p[|p| - 1] {
      var i :| 0 <= i < |p| && p[i] == x;
      if i < |q| { assert q[i] == x; }
    }
    forall x | x in Image(q) ensures x in Image(p) {
      var i :| 0 <= i < |q| && q[i] == x;
      assert p[i] == x;
    }
  }

  lemma {:induction false} ImageSize(p: seq<nat>)
    requires Injective(p)
    ensures |Image(p)| == |p|
    decreases |p|
  {
    if p != [] {
      ImageSize(p[..|p| - 1]);
      ImageLast(p);
      assert p[|p| - 1] !in Image(p[..|p| - 1]);
    } else {
      assert Image(p) == {};
    }
  }

  lemma SubsetSize(a: set<nat>, b: set<nat>)
    requires a <= b
    ensures |a| <= |b| && (a != b ==> |a| < |b|)
  {
    assert b == a + (b - a);
    if a != b {
      var x :| x in b - a;
      assert |b - a| > 0;
    }
  }

  lemma PermutationReaches(p: seq<nat>, n: nat, x: nat) returns (j: nat)
    requires IsPermutation(p, n) && x < n
    ensures j < n && p[j] == x
  {
    ImageSize(p);
    UptoSize(n);
    SubsetSize(Image(p), Upto(n));
    assert x in Image(p);
    j :| 0 <= j < |p| && p[j] == x;
  }

  // ---------- the order that a stable sort by key gives ----------

  /** `a` comes before `b`: smaller key, or equal keys and smaller index. */
  predicate Before(keys: seq<Key>, a: nat, b: nat)
    requires a < |keys| && b < |keys|
  {
    keys[a] < keys[b] || (keys[a] == keys[b] && a < b)
  }

  /** `p` lists the indices in the order of a stable sort by key. */
  predicate IsStableOrder(keys: seq<Key>, p: seq<nat>) {
    && IsPermutation(p, |keys|)
    && forall i, j | 0 <= i < j < |p| :: Before(keys, p[i], p[j])
  }

  function Predecessors(keys: seq<Key>, m: nat): set<nat>
    requires m < |keys|
  {
    set x: nat | x < |keys| && Before(keys, x, m)
  }

  /** In a stable order, the position of an index is the number of its predecessors. */
  lemma Rank(keys: seq<Key>, p: seq<nat>, i: nat)
    requires IsStableOrder(keys, p) && i < |p|
    ensures |Predecessors(keys, p[i])| == i
  {
    var first := p[..i];
    ImageSize(first);
    forall x | x in Predecessors(keys, p[i]) ensures x in Image(first) {
      var j := PermutationReaches(p, |keys|, x);
      assert first[j] == x;
    }
    forall j | 0 <= j < i ensures first[j] in Predecessors(keys, p[i]) {
      assert Before(keys, p[j], p[i]);
    }
    assert Predecessors(keys, p[i]) == Image(first);
  }

  /** There is only one. */
  lemma StableOrderIsUnique(keys: seq<Key>, p: seq<nat>, q: seq<nat>)
    requires IsStableOrder(keys, p) && IsStableOrder(keys, q)
    ensures p == q
  {
    forall i | 0 <= i < |p| ensures p[i] == q[i] {
      Rank(keys, p, i);
      Rank(keys, q, i);
      if Before(keys, p[i], q[i]) {
        assert p[i] !in Predecessors(keys, p[i]);
        SubsetSize(Predecessors(keys, p[i]), Predecessors(keys, q[i]));
      } else if Before(keys, q[i], p[i]) {
        assert q[i] !in Predecessors(keys, q[i]);
        SubsetSize(Predecessors(keys, q[i]), Predecessors(keys, p[i]));
      }
    }
  }

  // ---------- a reference definition: insert one element after another ----------

  /** Puts index `m` behind all indices whose key is not larger. */
  function Insert(keys: seq<Key>, p: seq<nat>, m: nat): seq<nat>
    requires InRange(p, |keys|) && m < |keys|
  {
    if p != [] && keys[m] < keys[p[|p| - 1]] then Insert(keys, p[..|p| - 1], m) + [p[|p| - 1]] else p + [m]
  }

  function StableOrderUpto(keys: seq<Key>, n: nat): (p: seq<nat>)
    requires n <= |keys|
    ensures InRange(p, |keys|)
  {
    if n == 0 then [] else Inserted(keys, StableOrderUpto(keys, n - 1), n - 1)
  }

  function Inserted(keys: seq<Key>, p: seq<nat>, m: nat): (r: seq<nat>)
    requires InRange(p, |keys|) && m < |keys|
    ensures InRange(r, |keys|)
  {
    InsertInRange(keys, p, m);
    Insert(keys, p, m)
  }

  lemma {:induction false} InsertInRange(keys: seq<Key>, p: seq<nat>, m: nat)
    requires InRange(p, |keys|) && m < |keys|
    ensures |Insert(keys, p, m)| == |p| + 1
    ensures forall i | 0 <= i <= |p| :: Insert(keys, p, m)[i] == m || Insert(keys, p, m)[i] in p
    ensures InRange(Insert(keys, p, m), |keys|)
    decreases |p|
  {
    if p != [] && keys[m] < keys[p[|p| - 1]] {
      InsertInRange(keys, p[..|p| - 1], m);
    }
  }

  /** The indices of `keys` in the order of a stable sort. */
  function StableOrder(keys: seq<Key>): (p: seq<nat>)
    ensures InRange(p, |keys|)
  {
    StableOrderUpto(keys, |keys|)
  }

  predicate Ascending(keys: seq<Key>, p: seq<nat>)
    requires InRange(p, |keys|)
  {
    forall i, j | 0 <= i < j < |p| :: Before(keys, p[i], p[j])
  }

  lemma {:induction false} InsertKeepsOrder(keys: seq<Key>, p: seq<nat>, m: nat)
    requires m < |keys| && InRange(p, m) && InRange(p, |keys|) && Ascending(keys, p)
    ensures InRange(Insert(keys, p, m), |keys|) && Ascending(keys, Insert(keys, p, m))
    decreases |p|
  {
    InsertInRange(keys, p, m);
    if p != [] && keys[m] < keys[p[|p| - 1]] {
      var q := p[..|p| - 1];
      InsertInRange(keys, q, m);
      InsertKeepsOrder(keys, q, m);
      var r := Insert(keys, q, m);
      forall i | 0 <= i < |r| ensures Before(keys, r[i], p[|p| - 1]) {
        if r[i] != m {
          var j :| 0 <= j < |q| && q[j] == r[i];
          assert p[j] == r[i];
        }
      }
    }
  }

  lemma {:induction false} UptoIsStable(keys: seq<Key>, n: nat)
    requires n <= |keys|
    ensures var p := StableOrderUpto(keys, n); |p| == n && InRange(p, n) && Ascending(keys, p)
    decreases n
  {
    if n > 0 {
      UptoIsStable(keys, n - 1);
      InsertKeepsOrder(keys, StableOrderUpto(keys, n - 1), n - 1);
      InsertInRange(keys, StableOrderUpto(keys, n - 1), n - 1);
    }
  }

  lemma StableOrderIsStable(keys: seq<Key>)
    ensures IsStableOrder(keys, StableOrder(keys))
  {
    UptoIsStable(keys, |keys|);
  }

  /** Smaller keys first, and equal ones as they were. */
  lemma StableOrderSorts(keys: seq<Key>, i: nat, j: nat)
    requires i < j < |keys|
    ensures var p := StableOrder(keys);
            |p| == |keys| && keys[p[i]] <= keys[p[j]] && (keys[p[i]] == keys[p[j]] ==> p[i] < p[j])
  {
    StableOrderIsStable(keys);
    assert Before(keys, StableOrder(keys)[i], StableOrder(keys)[j]);
    hide StableOrder;
  }

  // ---------- the pairs ----------

  predicate PairLe(a: Pair, b: Pair) { a.0 < b.0 || (a.0 == b.0 && a.1 <= b.1) }

  predicate Sorted(s: seq<Pair>) { forall i, j | 0 <= i < j < |s| :: PairLe(s[i], s[j]) }

  /** What `iter().map(f).enumerate()` yields, with the index narrowed to a type of `width` values. */
  function Enumerated(keys: seq<Key>, width: nat): seq<Pair>
    requires width > 0
  {
    seq(|keys|, i requires 0 <= i < |keys| => (keys[i], i % width))
  }

  function Indices(s: seq<Pair>): seq<nat> { seq(|s|, i requires 0 <= i < |s| => s[i].1) }

  lemma {:induction false} CountOnce<T>(s: seq<T>, i: nat)
    requires i < |s| && forall j, k | 0 <= j < k < |s| :: s[j] != s[k]
    ensures multiset(s)[s[i]] == 1
    decreases |s|
  {
    assert s == s[..i] + [s[i]] + s[i + 1..];
    assert s[i] !in s[..i] && s[i] !in s[i + 1..];
  }

  lemma CountTwice<T>(s: seq<T>, i: nat, j: nat)
    requires i < j < |s| && s[i] == s[j]
    ensures multiset(s)[s[i]] >= 2
  {
    assert s == s[..i] + [s[i]] + s[i + 1..j] + [s[j]] + s[j + 1..];
  }

  lemma EnumeratedDistinct(keys: seq<Key>, width: nat, k: nat)
    requires |keys| <= width && width > 0 && k < |keys|
    ensures multiset(Enumerated(keys, width))[(keys[k], k)] == 1
  {
    var e := Enumerated(keys, width);
    assert forall i | 0 <= i < |e| :: e[i] == (keys[i], i);
    CountOnce(e, k);
  }

  lemma PairsKnown(keys: seq<Key>, s: seq<Pair>, width: nat, i: nat)
    requires |keys| <= width && width > 0 && i < |s|
    requires multiset(s) == multiset(Enumerated(keys, width))
    ensures s[i].1 < |keys| && s[i].0 == keys[s[i].1]
  {
    var k := MemberOf(s, Enumerated(keys, width), i);
    assert Enumerated(keys, width)[k] == (keys[k], k);
  }

  lemma MemberOf<T>(s: seq<T>, e: seq<T>, i: nat) returns (k: nat)
    requires multiset(s) == multiset(e) && i < |s|
    ensures k < |e| && e[k] == s[i]
  {
    assert s[i] in multiset(s);
    assert s[i] in e;
    k :| 0 <= k < |e| && e[k] == s[i];
  }

  lemma PairsDistinct(keys: seq<Key>, s: seq<Pair>, width: nat, i: nat, j: nat)
    requires |keys| <= width && width > 0 && i < j < |s|
    requires multiset(s) == multiset(Enumerated(keys, width))
    ensures s[i].1 != s[j].1
  {
    PairsKnown(keys, s, width, i);
    PairsKnown(keys, s, width, j);
    if s[i].1 == s[j].1 {
      CountTwice(s, i, j);
      EnumeratedDistinct(keys, width, s[i].1);
    }
  }

  lemma IndicesPermute(keys: seq<Key>, s: seq<Pair>, width: nat)
    requires |keys| <= width && width > 0
    requires multiset(s) == multiset(Enumerated(keys, width))
    ensures IsPermutation(Indices(s), |keys|)
  {
    assert |s| == |multiset(s)| && |Enumerated(keys, width)| == |multiset(Enumerated(keys, width))|;
    hide Enumerated;
    forall i | 0 <= i < |s| ensures s[i].1 < |keys| {
      PairsKnown(keys, s, width, i);
    }
    forall i, j | 0 <= i < j < |s| ensures s[i].1 != s[j].1 {
      PairsDistinct(keys, s, width, i, j);
    }
  }

  /** Sorting the pairs by any algorithm gives the stable order by key, as long as no index was cut off. */
  lemma SortedPairsAreStable(keys: seq<Key>, s: seq<Pair>, width: nat)
    requires |keys| <= width && width > 0
    requires Sorted(s) && multiset(s) == multiset(Enumerated(keys, width))
    ensures Indices(s) == StableOrder(keys)
  {
    hide Enumerated, IsPermutation, StableOrder;
    var p := Indices(s);
    IndicesPermute(keys, s, width);
    SameLength(keys, p);
    forall i, j | 0 <= i < j < |s| ensures Before(keys, p[i], p[j]) {
      assert PairLe(s[i], s[j]);
      PairsKnown(keys, s, width, i);
      PairsKnown(keys, s, width, j);
    }
    StableOrderIsStable(keys);
    StableOrderIsUnique(keys, p, StableOrder(keys));
  }

  /** Narrowing the indices loses nothing exactly when there are no more elements than index values. */
  lemma NarrowingIsSafe(keys: seq<Key>, s: seq<Pair>, width: nat)
    requires width > 0 && multiset(s) == multiset(Enumerated(keys, width))
    ensures IsPermutation(Indices(s), |keys|) <==> |keys| <= width
  {
    if |keys| <= width {
      IndicesPermute(keys, s, width);
    } else if IsPermutation(Indices(s), |keys|) {
      var j := PermutationReaches(Indices(s), |keys|, |keys| - 1);
      IndexBelowWidth(keys, s, width, j);
    }
  }

  lemma IndexBelowWidth(keys: seq<Key>, s: seq<Pair>, width: nat, j: nat)
    requires width > 0 && multiset(s) == multiset(Enumerated(keys, width)) && j < |s|
    ensures s[j].1 < width
  {
    var k := MemberOf(s, Enumerated(keys, width), j);
    assert Enumerated(keys, width)[k].1 < width;
  }

  lemma SameLength(keys: seq<Key>, p: seq<nat>)
    requires IsPermutation(p, |keys|)
    ensures |p| == |keys| && InRange(p, |keys|) && Injective(p)
  {
  }

  /** Stands for `sort_unstable`; only its contract is used. */
  method SortUnstable(pairs: array<Pair>)
    modifies pairs
    ensures Sorted(pairs[..]) && multiset(pairs[..]) == multiset(old(pairs[..]))
  {
    var i := 0;
    while i < pairs.Length
      invariant 0 <= i <= pairs.Length
      invariant Sorted(pairs[..i])
      invariant multiset(pairs[..]) == multiset(old(pairs[..]))
    {
      var j := i;
      while j > 0 && !PairLe(pairs[j - 1], pairs[j])
        invariant 0 <= j <= i
        invariant forall x, y | 0 <= x < y <= i && y != j :: PairLe(pairs[x], pairs[y])
        invariant multiset(pairs[..]) == multiset(old(pairs[..]))
      {
        pairs[j - 1], pairs[j] := pairs[j], pairs[j - 1];
        j := j - 1;
      }
      i := i + 1;
    }
  }

  // ---------- following the chain of earlier swaps ----------

  /** Where the chain that starts at `x` leaves the positions below `i`.  An entry that points to itself ends
      the chain. */
  function Follow(q: seq<nat>, i: nat, x: nat): nat
    requires i <= |q|
    decreases i - x
  {
    if x < i && x < q[x] then Follow(q, i, q[x]) else x
  }

  lemma {:induction false} FollowMore(q: seq<nat>, i: nat, x: nat, y: nat)
    requires i < |q| && i <= y && Follow(q, i, x) >= i
    ensures Follow(q[i := y], i + 1, x) == if Follow(q, i, x) == i then y else Follow(q, i, x)
    decreases i - x
  {
    if x < i {
      FollowMore(q, i, q[x], y);
    }
  }

  /** The swaps of the positions below `i`, `a` being where each element of the slice came from, and `pos`
      where each one went. */
  predicate Swapped(p: seq<nat>, q: seq<nat>, a: seq<nat>, pos: seq<nat>, i: nat) {
    && |q| == |a| == |pos| == |p| && i <= |p|
    && (forall x | 0 <= x < |a| :: a[x] < |p| && pos[a[x]] == x)
    && (forall x | 0 <= x < |a| :: pos[x] < |p| && a[pos[x]] == x)
    && (forall x | 0 <= x < i :: a[x] == p[x] && x <= q[x] < |p|)
    && (forall x | i <= x < |p| :: q[x] == p[x] && Follow(q, i, a[x]) == x)
  }

  /** The chain from `p[i]` leads to where the element `p[i]` is now. */
  lemma ChainFinds(p: seq<nat>, q: seq<nat>, a: seq<nat>, pos: seq<nat>, i: nat)
    requires IsPermutation(p, |p|) && Swapped(p, q, a, pos, i) && i < |p|
    ensures |q| == |a| == |pos| == |p| && InRange(a, |p|) && InRange(q, |p|) && q[i] == p[i]
    ensures i <= pos[p[i]] < |p| && a[pos[p[i]]] == p[i] && Follow(q, i, p[i]) == pos[p[i]]
  {
    var y := pos[p[i]];
    assert a[y] == p[i];
  }

  lemma SwapOnce(p: seq<nat>, q: seq<nat>, a: seq<nat>, pos: seq<nat>, i: nat)
    requires IsPermutation(p, |p|) && Swapped(p, q, a, pos, i) && i < |p|
    ensures |a| == |pos| == |p| && |q| == |p| && pos[p[i]] < |p| && a[i] < |p|
    ensures var y := pos[p[i]];
            Swapped(p, q[i := y], a[i := p[i]][y := a[i]], pos[p[i] := i][a[i] := y], i + 1)
  {
    ChainFinds(p, q, a, pos, i);
    var y := pos[p[i]];
    var q', a' := q[i := y], a[i := p[i]][y := a[i]];
    forall x | i < x < |p| ensures Follow(q', i + 1, a'[x]) == x {
      if x == y {
        FollowMore(q, i, a[i], y);
      } else {
        FollowMore(q, i, a[x], y);
      }
    }
  }

  function Identity(n: nat): seq<nat> { seq(n, i requires 0 <= i < n => i) }

  lemma SwappedStart<T>(p: seq<nat>, s: seq<T>)
    requires InRange(p, |p|) && |s| == |p|
    ensures Swapped(p, p, Identity(|p|), Identity(|p|), 0) && Permuted(s, Identity(|p|)) == s
  {
  }

  lemma SwappedEnd(p: seq<nat>, q: seq<nat>, a: seq<nat>, pos: seq<nat>)
    requires Swapped(p, q, a, pos, |p|)
    ensures a == p
  {
  }

  lemma PermutedSwap<T>(s: seq<T>, a: seq<nat>, i: nat, j: nat)
    requires InRange(a, |s|) && i < |a| && j < |a|
    ensures InRange(a[i := a[j]][j := a[i]], |s|)
    ensures |Permuted(s, a)| == |a|
    ensures var r := Permuted(s, a); Permuted(s, a[i := a[j]][j := a[i]]) == r[i := r[j]][j := r[i]]
  {
  }

  lemma FollowStep(q: seq<nat>, i: nat, x: nat)
    requires i <= |q| && x < i <= Follow(q, i, x)
    ensures x < q[x] && Follow(q, i, q[x]) == Follow(q, i, x)
  {
  }

  lemma IndicesUpdate(s: seq<Pair>, i: nat, x: nat)
    requires i < |s|
    ensures Indices(s[i := (s[i].0, x)]) == Indices(s)[i := x]
  {
  }

  lemma IndicesAt(s: seq<Pair>, i: nat)
    requires i < |s|
    ensures |Indices(s)| == |s| && Indices(s)[i] == s[i].1
  {
  }

  lemma FollowEnd(q: seq<nat>, i: nat, x: nat)
    requires i <= x && i <= |q|
    ensures Follow(q, i, x) == x
  {
  }

  /** Both arrays after the positions below `i` are done; `was` and `p` are what they held at the start. */
  ghost predicate Progress<T>(was: seq<T>, p: seq<nat>, slice: seq<T>, pairs: seq<Pair>, i: nat) {
    && |was| == |slice| == |pairs| == |p| && IsPermutation(p, |p|)
    && exists a, pos :: Swapped(p, Indices(pairs), a, pos, i) && InRange(a, |was|) && slice == Permuted(was, a)
  }

  lemma ProgressStart<T>(was: seq<T>, pairs: seq<Pair>)
    requires |was| == |pairs| && IsPermutation(Indices(pairs), |was|)
    ensures Progress(was, Indices(pairs), was, pairs, 0)
  {
    SwappedStart(Indices(pairs), was);
  }

  lemma ProgressEnd<T>(was: seq<T>, p: seq<nat>, slice: seq<T>, pairs: seq<Pair>)
    requires Progress(was, p, slice, pairs, |p|)
    ensures InRange(p, |was|) && slice == Permuted(was, p)
  {
    var a, pos :| Swapped(p, Indices(pairs), a, pos, |p|) && InRange(a, |was|) && slice == Permuted(was, a);
    SwappedEnd(p, Indices(pairs), a, pos);
  }

  /** One more position: `y` is where the chain from the i-th index leads. */
  lemma ProgressStep<T>(was: seq<T>, p: seq<nat>, slice: seq<T>, pairs: seq<Pair>, i: nat) returns (y: nat)
    requires Progress(was, p, slice, pairs, i) && i < |p|
    ensures |p| == |slice| == |pairs| == |Indices(pairs)| && InRange(Indices(pairs), |p|)
    ensures i <= y < |p| && Follow(Indices(pairs), i, pairs[i].1) == y
    ensures Progress(was, p, slice[i := slice[y]][y := slice[i]], pairs[i := (pairs[i].0, y)], i + 1)
  {
    hide Swapped, IsPermutation, Permuted, Follow, Indices;
    var a, pos :| Swapped(p, Indices(pairs), a, pos, i) && InRange(a, |was|) && slice == Permuted(was, a);
    PermutationInRange(p);
    ChainFinds(p, Indices(pairs), a, pos, i);
    IndicesAt(pairs, i);
    y := pos[p[i]];
    SwapOnce(p, Indices(pairs), a, pos, i);
    IndicesUpdate(pairs, i, y);
    PermutedSwap(was, a, i, y);
  }

  lemma PermutationInRange(p: seq<nat>)
    requires IsPermutation(p, |p|)
    ensures InRange(p, |p|)
  {
  }

  method Swap<T>(slice: array<T>, i: nat, j: nat)
    requires i < slice.Length && j < slice.Length
    modifies slice
    ensures slice[..] == old(slice[..])[i := old(slice[j])][j := old(slice[i])]
  {
    slice[i], slice[j] := slice[j], slice[i];
  }

  /** The inner loop: it ends because an entry that points to itself is never on the chain. */
  method FollowChain(indices: array<Pair>, i: nat) returns (index: nat)
    requires i < indices.Length == |Indices(indices[..])| && InRange(Indices(indices[..]), indices.Length)
    requires i <= Follow(Indices(indices[..]), i, indices[i].1)
    ensures index == Follow(Indices(indices[..]), i, indices[i].1)
  {
    hide Follow, Indices;
    ghost var q: seq<nat> := Indices(indices[..]);
    IndicesAt(indices[..], i);
    index := indices[i].1;
    while index < i
      invariant index < indices.Length && Follow(q, i, index) == Follow(q, i, indices[i].1)
      decreases i - index
    {
      IndicesAt(indices[..], index);
      FollowStep(q, i, index);
      index := indices[index].1;
    }
    FollowEnd(q, i, index);
  }

  /** Applies the permutation in the second components of `indices` by swaps, overwriting `indices`. */
  method ApplyBySwaps<T>(slice: array<T>, indices: array<Pair>)
    requires slice as object != indices as object
    requires slice.Length == indices.Length && IsPermutation(Indices(indices[..]), slice.Length)
    modifies slice, indices
    ensures slice[..] == Permuted(old(slice[..]), old(Indices(indices[..])))
  {
    ghost var was := slice[..];
    ghost var p: seq<nat> := Indices(indices[..]);
    ProgressStart(was, indices[..]);
    hide Progress, Swapped, IsPermutation, Permuted, Follow, Indices;
    IndicesSize(indices[..]);
    for i := 0 to slice.Length
      invariant Progress(was, p, slice[..], indices[..], i)
    {
      ghost var before := indices[..];
      ghost var elems := slice[..];
      ghost var y := ProgressStep(was, p, elems, before, i);
      var index := FollowChain(indices, i);
      indices[i] := (indices[i].0, index);
      Swap(slice, i, index);
    }
    ProgressEnd(was, p, slice[..], indices[..]);
  }

  lemma ShortIsSorted<T>(s: seq<T>, keys: seq<Key>)
    requires |s| == |keys| < 2
    ensures Permuted(s, StableOrder(keys)) == s
  {
    StableOrderIsStable(keys);
  }

  /** `keys[i]` is what the key function returns for the i-th element; it is called once for each.  `helpful`
      says whether pairs with u32 indices are smaller than pairs with usize indices. */
  method SortByCachedKey<T>(slice: array<T>, keys: seq<Key>, helpful: bool, usizeMax: nat)
    requires |keys| == slice.Length <= usizeMax
    modifies slice
    ensures slice[..] == Permuted(old(slice[..]), StableOrder(keys))
  {
    var len := slice.Length;
    if len < 2 {
      ShortIsSorted(slice[..], keys);
      return;
    }
    if helpful && len <= 0xFFFF_FFFF {
      SortWithIndices(slice, keys, 0x1_0000_0000);
    } else {
      SortWithIndices(slice, keys, usizeMax + 1);
    }
  }

  /** The macro `sort_by_key!` for an index type of `width` values. */
  method SortWithIndices<T>(slice: array<T>, keys: seq<Key>, width: nat)
    requires |keys| == slice.Length <= width && width > 0
    modifies slice
    ensures slice[..] == Permuted(old(slice[..]), StableOrder(keys))
  {
    var indices := new Pair[|keys|](i requires 0 <= i < |keys| => (keys[i], i % width));
    assert indices[..] == Enumerated(keys, width);
    SortUnstable(indices);
    SortedPairsAreStable(keys, indices[..], width);
    StableOrderIsStable(keys);
    ApplyBySwaps(slice, indices);
  }

  lemma IndicesSize(s: seq<Pair>)
    ensures |Indices(s)| == |s|
  {
  }
}
