/** `[T]::repeat` (library/alloc/src/slice.rs): n-fold repetition by doubling. */
module Repeat {
  import opened Memory

  function Times<T>(s: seq<T>, n: nat): seq<T> {
    if n == 0 then [] else s + Times(s, n - 1)
  }

  lemma {:induction false} TimesSize<T>(s: seq<T>, n: nat)
    ensures |Times(s, n)| == |s| * n
  {
    if n > 0 {
      TimesSize(s, n - 1);
    }
  }

  /** The i-th element of the j-th repetition. */
  lemma {:induction false} TimesAt<T>(s: seq<T>, n: nat, j: nat, i: nat)
    requires j < n && i < |s|
    ensures j * |s| + i < |Times(s, n)| && Times(s, n)[j * |s| + i] == s[i]
  {
    if j > 0 {
      TimesAt(s, n - 1, j - 1, i);
      assert j * |s| == |s| + (j - 1) * |s|;
    }
  }

  lemma {:induction false} TimesAdd<T>(s: seq<T>, a: nat, b: nat)
    ensures Times(s, a + b) == Times(s, a) + Times(s, b)
  {
    if a > 0 {
      TimesAdd(s, a - 1, b);
    } else {
      assert [] + Times(s, b) == Times(s, b);
    }
  }

  lemma TimesPrefix<T>(s: seq<T>, a: nat, b: nat)
    requires a <= b
    ensures |s| * a <= |Times(s, b)| && Times(s, b)[..|s| * a] == Times(s, a)
  {
    TimesAdd(s, a, b - a);
    TimesSize(s, a);
    TimesSize(s, b - a);
  }

  // ---------- the arithmetic of doubling ----------

  /** `m` is the quotient of `n` by twice the number `reps` of repetitions in the buffer. */
  predicate Doubled(n: nat, reps: nat, m: nat) {
    0 < reps <= n && m * (2 * reps) <= n < (m + 1) * (2 * reps)
  }

  lemma DoubleAgain(n: nat, reps: nat, m: nat, twice: nat, half: nat)
    requires Doubled(n, reps, m) && m > 0 && twice == 2 * reps && half == m / 2
    ensures twice <= n && Doubled(n, twice, half)
  {
    var q, p := m / 2, m % 2;
    assert m * (2 * reps) == q * (4 * reps) + p * (2 * reps);
    assert (m + 1) * (2 * reps) == (q + 1) * (4 * reps) + (p - 1) * (2 * reps);
    assert p * (2 * reps) >= 0 && (p - 1) * (2 * reps) <= 0;
    assert m * (2 * reps) == 2 * reps + (m - 1) * (2 * reps);
  }

  lemma DoubledEnough(n: nat, reps: nat)
    requires Doubled(n, reps, 0)
    ensures reps <= n && n - reps < reps
  {
  }

  // ---------- the buffer ----------

  /** The buffer holds `reps` repetitions of `s`, in a capacity for `n`. */
  ghost predicate Holds<T>(b: seq<Slot<T>>, s: seq<T>, n: nat, reps: nat, len: nat) {
    && |b| == |s| * n && reps <= n && len == |s| * reps <= |b|
    && b[..len] == Filled(Times(s, reps))
  }

  lemma HoldsFirst<T>(b: seq<Slot<T>>, s: seq<T>, n: nat)
    requires n > 0 && |b| == |s| * n && |s| <= |b| && b[..|s|] == Filled(s)
    ensures Holds(b, s, n, 1, |s|)
  {
    assert Times(s, 1) == s + Times(s, 0) == s;
  }

  lemma Fits(k: nat, a: nat, b: nat)
    requires a <= b
    ensures k * a <= k * b && k * (b - a) == k * b - k * a
  {
  }

  /** A copy of the first `more` repetitions behind the `reps` that are there. */
  lemma HoldsMore<T>(b: seq<Slot<T>>, s: seq<T>, n: nat, reps: nat, len: nat, more: nat, count: nat)
    requires Holds(b, s, n, reps, len) && more <= reps && reps + more <= n && count == |s| * more
    ensures count <= len && len + count <= |b| && IsFilled(b[..count])
    ensures Holds(b[..len] + b[..count] + b[len + count..], s, n, reps + more, len + count)
  {
    Fits(|s|, more, reps);
    Fits(|s|, reps + more, n);
    assert |s| * (reps + more) == len + count;
    var t := Times(s, reps);
    TimesSize(s, reps);
    TimesPrefix(s, more, reps);
    TimesAdd(s, reps, more);
    FilledAppend(t, Times(s, more));
    assert b[..count] == b[..len][..count] == Filled(t)[..count] == Filled(t[..count]);
    var b' := b[..len] + b[..count] + b[len + count..];
    assert b'[..len + count] == b[..len] + b[..count];
  }

  /** Doubles the contents of `buf` as often as `n` allows. */
  method DoubleUp<T>(buf: array<Slot<T>>, ghost s: seq<T>, n: nat, first: nat) returns (len: nat, ghost reps: nat)
    requires n > 0 && Holds(buf[..], s, n, 1, first)
    modifies buf
    ensures n - reps < reps <= n && Holds(buf[..], s, n, reps, len)
  {
    hide Holds, Doubled;
    len, reps := first, 1;
    var m: nat := n / 2;
    DoubledFirst(n);
    while m > 0
      invariant Holds(buf[..], s, n, reps, len) && Doubled(n, reps, m)
    {
      ghost var before, twice := buf[..], 2 * reps;
      DoubleAgain(n, reps, m, twice, m / 2);
      HoldsSize(before, s, n, reps, len);
      CopyNonoverlapping(buf, 0, len, len);
      Doubles(before, buf[..], s, n, reps, len, twice, 2 * len);
      reps, len, m := twice, 2 * len, m / 2;
    }
    DoubledEnough(n, reps);
  }

  /** `vecMax` is the largest capacity that `Vec::with_capacity` accepts: isize::MAX bytes of elements, or any
      number of elements without a size. */
  method Repeat<T>(s: seq<T>, n: nat, usizeMax: nat, vecMax: nat) returns (r: Outcome<seq<T>>)
    ensures r.Panicked? <==> |s| * n > usizeMax || |s| * n > vecMax
    ensures r.Done? ==> r.v == Times(s, n)
  {
    hide Holds, Times;
    if n == 0 {
      TimesNone(s);
      return Done([]);
    }
    var capacity := |s| * n;
    if capacity > usizeMax {
      return Panicked;
    }
    if capacity > vecMax {
      return Panicked;
    }
    Fits(|s|, 1, n);
    var buf := new Slot<T>[capacity](_ => Blank);
    CopyFrom(buf, 0, s);
    HoldsFirst(buf[..], s, n);
    var len, reps := DoubleUp(buf, s, n, |s|);
    HoldsSize(buf[..], s, n, reps, len);
    var rem: nat := capacity - len;
    ghost var before := buf[..];
    RestFits(before, s, n, reps, len, rem);
    if rem > 0 {
      CopyNonoverlapping(buf, 0, len, rem);
    }
    Completes(before, buf[..], s, n, reps, len, rem);
    r := Done(Values(buf[..]));
  }

  lemma TimesNone<T>(s: seq<T>)
    ensures Times(s, 0) == [] && |s| * 0 == 0
  {
  }

  lemma DoubledFirst(n: nat)
    requires n > 0
    ensures Doubled(n, 1, n / 2)
  {
  }

  lemma HoldsSize<T>(b: seq<Slot<T>>, s: seq<T>, n: nat, reps: nat, len: nat)
    requires Holds(b, s, n, reps, len)
    ensures reps <= n && len <= |b| == |s| * n && |b| - len == |s| * (n - reps)
    ensures IsFilled(b[0..0 + len]) && (2 * reps <= n ==> 2 * len <= |b|)
  {
    assert b[0..0 + len] == b[..len];
    if 2 * reps <= n {
      Fits(|s|, 2 * reps, n);
      assert |s| * (2 * reps) == 2 * len;
    }
    Fits(|s|, reps, n);
  }

  lemma HoldsAll<T>(b: seq<Slot<T>>, s: seq<T>, n: nat)
    requires Holds(b, s, n, n, |b|)
    ensures IsFilled(b) && Values(b) == Times(s, n)
  {
    assert b[..|b|] == b;
    ValuesFilled(Times(s, n));
  }

  lemma Doubles<T>(b: seq<Slot<T>>, b': seq<Slot<T>>, s: seq<T>, n: nat, reps: nat, len: nat, twice: nat, len': nat)
    requires Holds(b, s, n, reps, len) && twice == 2 * reps <= n && len' == 2 * len <= |b|
    requires b' == b[..len] + b[0..0 + len] + b[len + len..]
    ensures Holds(b', s, n, twice, len')
  {
    HoldsMore(b, s, n, reps, len, reps, len);
    assert b[0..0 + len] == b[..len];
  }

  lemma RestFits<T>(b: seq<Slot<T>>, s: seq<T>, n: nat, reps: nat, len: nat, rem: nat)
    requires Holds(b, s, n, reps, len) && n - reps < reps <= n && rem == |s| * n - len
    ensures rem <= len && len + rem == |b| && IsFilled(b[0..0 + rem])
  {
    HoldsSize(b, s, n, reps, len);
    HoldsMore(b, s, n, reps, len, n - reps, rem);
    assert b[0..0 + rem] == b[..rem];
  }

  lemma Completes<T>(b: seq<Slot<T>>, b': seq<Slot<T>>, s: seq<T>, n: nat, reps: nat, len: nat, rem: nat)
    requires Holds(b, s, n, reps, len) && n - reps < reps <= n && rem == |s| * n - len && len + rem == |b| && rem <= len
    requires if rem == 0 then b' == b else b' == b[..len] + b[0..0 + rem] + b[len + rem..]
    ensures IsFilled(b') && Values(b') == Times(s, n)
  {
    HoldsSize(b, s, n, reps, len);
    HoldsMore(b, s, n, reps, len, n - reps, rem);
    assert b[0..0 + rem] == b[..rem];
    assert b' == b[..len] + b[..rem] + b[len + rem..];
    HoldsAll(b', s, n);
  }
}
