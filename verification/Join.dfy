/** `join_generic_copy` (library/alloc/src/str.rs): join slices into a buffer that is reserved beforehand.

    `Borrow` may give a different slice every time: `once[i]` is what element i gives when the length is
    computed, `again[i]` what it gives when its contents are copied.  The first element is borrowed once. */
module Join {
  import opened Memory

  /** The parts, with the separator between them. */
  function Joined<T>(parts: seq<seq<T>>, sep: seq<T>): seq<T> {
    if parts == [] then []
    else if |parts| == 1 then parts[0]
    else Joined(parts[..|parts| - 1], sep) + sep + parts[|parts| - 1]
  }

  function TotalLength<T>(parts: seq<seq<T>>): nat {
    if parts == [] then 0 else TotalLength(parts[..|parts| - 1]) + |parts[|parts| - 1]|
  }

  /** Where the k-th part begins, by the lengths of the parts and separators before it. */
  function Offset<T>(parts: seq<seq<T>>, sep: seq<T>, k: nat): nat
    requires k <= |parts|
  {
    TotalLength(parts[..k]) + |sep| * k
  }

  /** From `at` on, `r` holds `part`. */
  ghost predicate Stands<T>(r: seq<T>, at: int, part: seq<T>) {
    0 <= at <= at + |part| <= |r| && r[at..at + |part|] == part
  }

  function JoinLength<T>(parts: seq<seq<T>>, sep: seq<T>): nat {
    TotalLength(parts) + |sep| * (if parts == [] then 0 else |parts| - 1)
  }

  /** `r` consists of the parts, each but the first behind a separator, and of nothing else. */
  ghost predicate IsJoin<T>(r: seq<T>, parts: seq<seq<T>>, sep: seq<T>) {
    && |r| == JoinLength(parts, sep)
    && (forall k | 0 <= k < |parts| :: Stands(r, Offset(parts, sep, k), parts[k]))
    && (forall k | 0 < k < |parts| :: Stands(r, Offset(parts, sep, k) - |sep|, sep))
  }

  lemma OffsetOfFront<T>(parts: seq<seq<T>>, sep: seq<T>, k: nat)
    requires k < |parts|
    ensures Offset(parts[..|parts| - 1], sep, k) == Offset(parts, sep, k)
  {
    assert parts[..|parts| - 1][..k] == parts[..k];
  }

  lemma LengthOfFront<T>(parts: seq<seq<T>>, sep: seq<T>)
    requires |parts| > 1
    ensures var n := |parts| - 1;
            && Offset(parts, sep, n) == JoinLength(parts[..n], sep) + |sep|
            && JoinLength(parts, sep) == Offset(parts, sep, n) + |parts[n]|
  {
    var n := |parts| - 1;
    assert |sep| * n == |sep| * (n - 1) + |sep|;
  }

  lemma StandsInFront<T>(r: seq<T>, more: seq<T>, at: int, part: seq<T>)
    requires Stands(r, at, part)
    ensures Stands(r + more, at, part)
  {
    assert (r + more)[at..at + |part|] == r[at..at + |part|];
  }

  lemma StandsBehind<T>(r: seq<T>, part: seq<T>, more: seq<T>)
    ensures Stands(r + part + more, |r|, part)
  {
    assert (r + part + more)[|r|..|r| + |part|] == part;
  }

  /** The last part and its separator, behind a join of the others. */
  lemma JoinOneMore<T>(r: seq<T>, parts: seq<seq<T>>, sep: seq<T>)
    requires |parts| > 1 && IsJoin(r, parts[..|parts| - 1], sep)
    ensures IsJoin(r + sep + parts[|parts| - 1], parts, sep)
  {
    hide Stands, Offset, JoinLength;
    var n := |parts| - 1;
    var front, last := parts[..n], parts[n];
    LengthOfFront(parts, sep);
    forall k | 0 <= k < |parts| ensures Stands(r + sep + last, Offset(parts, sep, k), parts[k]) {
      if k < n {
        OffsetOfFront(parts, sep, k);
        StandsInFront(r, sep, Offset(parts, sep, k), front[k]);
        StandsInFront(r + sep, last, Offset(parts, sep, k), front[k]);
      } else {
        StandsBehind(r + sep, last, []);
        assert r + sep + last + [] == r + sep + last;
      }
    }
    forall k | 0 < k < |parts| ensures Stands(r + sep + last, Offset(parts, sep, k) - |sep|, sep) {
      if k < n {
        OffsetOfFront(parts, sep, k);
        StandsInFront(r, sep, Offset(parts, sep, k) - |sep|, sep);
        StandsInFront(r + sep, last, Offset(parts, sep, k) - |sep|, sep);
      } else {
        StandsBehind(r, sep, last);
      }
    }
  }

  lemma {:induction false} JoinedIsJoin<T>(parts: seq<seq<T>>, sep: seq<T>)
    ensures IsJoin(Joined(parts, sep), parts, sep)
  {
    if |parts| > 1 {
      JoinedIsJoin(parts[..|parts| - 1], sep);
      JoinOneMore(Joined(parts[..|parts| - 1], sep), parts, sep);
    } else if |parts| == 1 {
      assert parts[..0] == [] && TotalLength(parts[..0]) == 0;
      assert TotalLength(parts) == |parts[0]|;
    }
  }

  /** What is copied in the end. */
  function Copied<T>(once: seq<seq<T>>, again: seq<seq<T>>): seq<seq<T>>
    requires |once| == |again|
  {
    if once == [] then [] else [once[0]] + again[1..]
  }

  function Reserved<T>(once: seq<seq<T>>, sep: seq<T>): nat
    requires once != []
  {
    |sep| * (|once| - 1) + TotalLength(once)
  }

  /** With consistent slices the reserved length is exact. */
  lemma {:induction false} JoinedSize<T>(parts: seq<seq<T>>, sep: seq<T>)
    requires parts != []
    ensures |Joined(parts, sep)| == Reserved(parts, sep)
  {
    if |parts| > 1 {
      JoinedSize(parts[..|parts| - 1], sep);
      assert |sep| * (|parts| - 1) == |sep| * (|parts| - 2) + |sep|;
    } else {
      assert TotalLength(parts[..0]) == 0;
    }
  }

  lemma {:induction false} JoinedGrows<T>(parts: seq<seq<T>>, sep: seq<T>, k: nat)
    requires 0 < k <= |parts|
    ensures |Joined(parts[..k], sep)| <= |Joined(parts, sep)|
    decreases |parts|
  {
    if k < |parts| {
      JoinedGrows(parts[..|parts| - 1], sep, k);
      assert parts[..|parts| - 1][..k] == parts[..k];
    } else {
      assert parts[..k] == parts;
    }
  }

  lemma {:induction false} TotalGrows<T>(parts: seq<seq<T>>, k: nat)
    requires k <= |parts|
    ensures TotalLength(parts[..k]) <= TotalLength(parts)
    decreases |parts|
  {
    if k < |parts| {
      TotalGrows(parts[..|parts| - 1], k);
      assert parts[..|parts| - 1][..k] == parts[..k];
    } else {
      assert parts[..k] == parts;
    }
  }

  lemma JoinedNext<T>(parts: seq<seq<T>>, sep: seq<T>, k: nat)
    requires 0 < k < |parts|
    ensures Joined(parts[..k + 1], sep) == Joined(parts[..k], sep) + sep + parts[k]
    ensures TotalLength(parts[..k + 1]) == TotalLength(parts[..k]) + |parts[k]|
  {
    assert parts[..k + 1][..k] == parts[..k];
  }

  /** The checked sums of the length computation. */
  method ReservedLength<T>(once: seq<seq<T>>, sep: seq<T>, usizeMax: nat) returns (r: Outcome<nat>)
    requires once != []
    ensures r == if Reserved(once, sep) <= usizeMax then Done(Reserved(once, sep)) else Panicked
  {
    var n: nat := |sep| * (|once| - 1);
    assert TotalLength(once[..1]) == |once[0]| by {
      assert once[..1][..0] == [];
    }
    TotalGrows(once, 1);
    if n > usizeMax || n + |once[0]| > usizeMax {
      return Panicked;
    }
    ghost var product := n;
    n := n + |once[0]|;
    for i := 1 to |once|
      invariant n == product + TotalLength(once[..i]) <= usizeMax
    {
      JoinedNext(once, sep, i);
      TotalGrows(once, i + 1);
      if n + |once[i]| > usizeMax {
        return Panicked;
      }
      n := n + |once[i]|;
    }
    assert once[..|once|] == once;
    r := Done(n);
  }

  /** The first `k` parts are in the buffer. */
  ghost predicate Holds<T>(b: seq<Slot<T>>, parts: seq<seq<T>>, sep: seq<T>, k: nat, pos: nat) {
    && 0 < k <= |parts| && pos <= |b|
    && b[..pos] == Filled(Joined(parts[..k], sep))
  }

  lemma HoldsFirst<T>(b: seq<Slot<T>>, parts: seq<seq<T>>, sep: seq<T>)
    requires parts != [] && |parts[0]| <= |b| && b[..|parts[0]|] == Filled(parts[0])
    ensures Holds(b, parts, sep, 1, |parts[0]|)
  {
    assert parts[..1] == [parts[0]];
  }

  /** Copying a separator and a part behind what is there, each if it fits. */
  lemma HoldsNext<T>(b: seq<Slot<T>>, parts: seq<seq<T>>, sep: seq<T>, k: nat, pos: nat)
    requires Holds(b, parts, sep, k, pos) && k < |parts|
    ensures pos == |Joined(parts[..k], sep)|
    ensures |Joined(parts, sep)| >= pos + |sep| + |parts[k]|
    ensures pos + |sep| <= |b| ==>
              var b1 := b[..pos] + Filled(sep) + b[pos + |sep|..];
              && |b1| == |b|
              && (pos + |sep| + |parts[k]| <= |b| ==>
                    Holds(b1[..pos + |sep|] + Filled(parts[k]) + b1[pos + |sep| + |parts[k]|..], parts, sep, k + 1,
                          pos + |sep| + |parts[k]|))
  {
    JoinedNext(parts, sep, k);
    JoinedGrows(parts, sep, k + 1);
    if pos + |sep| + |parts[k]| <= |b| {
      var j := Joined(parts[..k], sep);
      FilledAppend(j, sep);
      FilledAppend(j + sep, parts[k]);
      var b1 := b[..pos] + Filled(sep) + b[pos + |sep|..];
      assert b1[..pos + |sep|] == b[..pos] + Filled(sep);
      var b2 := b1[..pos + |sep|] + Filled(parts[k]) + b1[pos + |sep| + |parts[k]|..];
      assert b2[..pos + |sep| + |parts[k]|] == b1[..pos + |sep|] + Filled(parts[k]);
    }
  }

  lemma HoldsAll<T>(b: seq<Slot<T>>, parts: seq<seq<T>>, sep: seq<T>, pos: nat)
    requires Holds(b, parts, sep, |parts|, pos)
    ensures IsFilled(b[..pos]) && Values(b[..pos]) == Joined(parts, sep)
  {
    assert parts[..|parts|] == parts;
    ValuesFilled(Joined(parts, sep));
  }

  /** The loop of `specialize_for_lengths!`: `split_at_mut` panics when the rest of the reserved buffer is
      too short. */
  method CopyParts<T>(target: array<Slot<T>>, parts: seq<seq<T>>, sep: seq<T>, first: nat)
    returns (pos: nat, fits: bool)
    requires Holds(target[..], parts, sep, 1, first)
    modifies target
    ensures fits <==> |Joined(parts, sep)| <= target.Length
    ensures fits ==> Holds(target[..], parts, sep, |parts|, pos)
  {
    pos := first;
    hide Holds, Joined;
    HoldsSize(target[..], parts, sep, 1, first);
    for k := 1 to |parts|
      invariant Holds(target[..], parts, sep, k, pos) && pos <= target.Length
    {
      HoldsNext(target[..], parts, sep, k, pos);
      if |sep| > target.Length - pos {
        return pos, false;
      }
      CopyFrom(target, pos, sep);
      if |parts[k]| > target.Length - pos - |sep| {
        return pos, false;
      }
      CopyFrom(target, pos + |sep|, parts[k]);
      pos := pos + |sep| + |parts[k]|;
    }
    HoldsSize(target[..], parts, sep, |parts|, pos);
    fits := true;
  }

  lemma HoldsSize<T>(b: seq<Slot<T>>, parts: seq<seq<T>>, sep: seq<T>, k: nat, pos: nat)
    requires Holds(b, parts, sep, k, pos)
    ensures 0 < k <= |parts| && pos <= |b|
    ensures k == |parts| ==> pos == |Joined(parts, sep)|
  {
    assert parts[..|parts|] == parts;
  }

  predicate Outgrown<T>(once: seq<seq<T>>, again: seq<seq<T>>, sep: seq<T>)
    requires once != [] && |once| == |again|
  {
    |Joined(Copied(once, again), sep)| > Reserved(once, sep)
  }

  predicate CannotReserve<T>(once: seq<seq<T>>, sep: seq<T>, usizeMax: nat, vecMax: nat)
    requires once != []
  {
    Reserved(once, sep) > usizeMax || Reserved(once, sep) > vecMax
  }

  /** Either everything that the elements gave the second time is in the result, or the call panics: when the
      reserved length overflows, when it is more than the `vecMax` that `Vec::with_capacity` accepts, or when the
      slices have grown beyond it. */
  method JoinGenericCopy<T>(once: seq<seq<T>>, again: seq<seq<T>>, sep: seq<T>, usizeMax: nat, vecMax: nat)
    returns (r: Outcome<seq<T>>)
    requires |once| == |again|
    ensures r.Done? ==> IsJoin(r.v, Copied(once, again), sep) && r.v == Joined(Copied(once, again), sep)
    ensures r.Panicked? <==> once != [] && (CannotReserve(once, sep, usizeMax, vecMax) || Outgrown(once, again, sep))
  {
    JoinedIsJoin(Copied(once, again), sep);
    hide IsJoin;
    if once == [] {
      return Done([]);
    }
    var first := once[0];
    var n := ReservedLength(once, sep, usizeMax);
    if n.Panicked? {
      return Panicked;
    }
    FirstFits(once, sep);
    var reserved := n.v;
    if reserved > vecMax {
      return Panicked;
    }
    var result := new Slot<T>[reserved](_ => Blank);
    CopyFrom(result, 0, first);
    ghost var parts := Copied(once, again);
    HoldsFirst(result[..], parts, sep);
    hide Holds, Joined, Reserved;
    var pos, fits := CopyParts(result, [first] + again[1..], sep, |first|);
    if !fits {
      return Panicked;
    }
    HoldsAll(result[..], parts, sep, pos);
    HoldsSize(result[..], parts, sep, |parts|, pos);
    assert result[..][..pos] == result[..pos];
    r := Done(Values(result[..pos]));
  }

  lemma FirstFits<T>(once: seq<seq<T>>, sep: seq<T>)
    requires once != []
    ensures |once[0]| <= Reserved(once, sep)
  {
    TotalGrows(once, 1);
    assert once[..1][..0] == [];
    assert |sep| * (|once| - 1) >= 0;
  }

  /** Elements that give the same slice every time: no panic for that reason, and the buffer is filled. */
  lemma ConsistentFits<T>(once: seq<seq<T>>, sep: seq<T>)
    requires once != []
    ensures Copied(once, once) == once && |Joined(once, sep)| == Reserved(once, sep)
  {
    JoinedSize(once, sep);
  }
}
