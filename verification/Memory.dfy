/** Uninitialised buffers, as behind `Vec::with_capacity`. */
module Memory {

  /** One element of a buffer; `Blank` has not been written yet. */
  datatype Slot<T> = Blank | Full(v: T)

  datatype Outcome<T> = Done(v: T) | Panicked

  function Filled<T>(s: seq<T>): (r: seq<Slot<T>>)
    ensures |r| == |s|
  {
    seq(|s|, i requires 0 <= i < |s| => Full(s[i]))
  }

  predicate IsFilled<T>(b: seq<Slot<T>>) { forall i | 0 <= i < |b| :: b[i].Full? }

  /** The elements of an initialised buffer. */
  function Values<T>(b: seq<Slot<T>>): (r: seq<T>)
    requires IsFilled(b)
    ensures |r| == |b|
  {
    seq(|b|, i requires 0 <= i < |b| => b[i].v)
  }

  lemma ValuesFilled<T>(s: seq<T>)
    ensures IsFilled(Filled(s)) && Values(Filled(s)) == s
  {
  }

  lemma FilledAppend<T>(a: seq<T>, b: seq<T>)
    ensures Filled(a + b) == Filled(a) + Filled(b)
  {
  }

  // ---------- copying ----------

  /** `b` with `part` written over the elements from `at` on. */
  function Overwritten<T>(b: seq<T>, at: nat, part: seq<T>): seq<T>
    requires at + |part| <= |b|
  {
    b[..at] + part + b[at + |part|..]
  }

  lemma OverwrittenNext<T>(b: seq<T>, at: nat, part: seq<T>, i: nat)
    requires i < |part| && at + |part| <= |b|
    ensures |Overwritten(b, at, part[..i])| == |b|
    ensures Overwritten(b, at, part[..i])[at + i := part[i]] == Overwritten(b, at, part[..i + 1])
  {
  }

  /** What has not been overwritten yet. */
  lemma OverwrittenOutside<T>(b: seq<T>, at: nat, part: seq<T>, i: nat, k: nat)
    requires i <= |part| && at + |part| <= |b| && k < |b| && (k < at || at + i <= k)
    ensures |Overwritten(b, at, part[..i])| == |b| && Overwritten(b, at, part[..i])[k] == b[k]
  {
  }

  lemma OverwrittenEnds<T>(b: seq<T>, at: nat, part: seq<T>)
    requires at + |part| <= |b|
    ensures Overwritten(b, at, part[..0]) == b && part[..|part|] == part
  {
  }

  /** `ptr::copy_nonoverlapping` inside one buffer, forwards, from elements that have been written. */
  method CopyNonoverlapping<T>(buf: array<Slot<T>>, src: nat, dst: nat, count: nat)
    requires src + count <= dst && dst + count <= buf.Length
    requires IsFilled(buf[src..src + count])
    modifies buf
    ensures buf[..] == old(buf[..dst]) + old(buf[src..src + count]) + old(buf[dst + count..])
  {
    ghost var was := buf[..];
    ghost var part := buf[src..src + count];
    OverwrittenEnds(was, dst, part);
    for i := 0 to count
      invariant buf[..] == Overwritten(was, dst, part[..i])
    {
      OverwrittenNext(was, dst, part, i);
      hide Overwritten;
      OverwrittenOutside(was, dst, part, i, src + i);
      assert part[i] == was[src + i];
      buf[dst + i] := buf[src + i];
    }
  }

  /** Copies `s` to the elements from `at` on. */
  method CopyFrom<T>(buf: array<Slot<T>>, at: nat, s: seq<T>)
    requires at + |s| <= buf.Length
    modifies buf
    ensures buf[..] == old(buf[..at]) + Filled(s) + old(buf[at + |s|..])
  {
    WriteAt(buf, at, Filled(s));
  }

  /** `ptr::copy` towards the front; the ranges may overlap. */
  method CopyDown<T>(buf: array<T>, src: nat, dst: nat, count: nat)
    requires dst <= src && src + count <= buf.Length
    modifies buf
    ensures buf[..] == Overwritten(old(buf[..]), dst, old(buf[src..src + count]))
  {
    ghost var was := buf[..];
    ghost var part := buf[src..src + count];
    OverwrittenEnds(was, dst, part);
    for i := 0 to count
      invariant buf[..] == Overwritten(was, dst, part[..i])
    {
      OverwrittenNext(was, dst, part, i);
      OverwrittenOutside(was, dst, part, i, src + i);
      hide Overwritten;
      assert part[i] == was[src + i];
      buf[dst + i] := buf[src + i];
    }
  }

  /** Writes `s` to the elements from `at` on. */
  method WriteAt<T>(buf: array<T>, at: nat, s: seq<T>)
    requires at + |s| <= buf.Length
    modifies buf
    ensures buf[..] == Overwritten(old(buf[..]), at, s)
  {
    ghost var was := buf[..];
    OverwrittenEnds(was, at, s);
    for i := 0 to |s|
      invariant buf[..] == Overwritten(was, at, s[..i])
    {
      OverwrittenNext(was, at, s, i);
      hide Overwritten;
      buf[at + i] := s[i];
    }
  }
}
