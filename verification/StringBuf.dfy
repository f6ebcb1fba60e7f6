/** The in-place algorithms of `String` (library/alloc/src/string.rs) on its byte buffer. */
module StringBuf {
  import opened Utf8
  import opened Memory

  // ---------- retain, on characters ----------

  /** What the predicate does on one call. */
  datatype Verdict = Keep | Remove | Panic

  /** The characters kept; nothing after a panic. */
  function Kept(cs: seq<Char>, vs: seq<Verdict>): seq<Char>
    requires |cs| <= |vs|
  {
    if cs == [] || vs[0].Panic? then []
    else if vs[0].Keep? then [cs[0]] + Kept(cs[1..], vs[1..])
    else Kept(cs[1..], vs[1..])
  }

  predicate Panics(n: nat, vs: seq<Verdict>) { exists k | 0 <= k < n && k < |vs| :: vs[k].Panic? }

  // ---------- remove_matches, on bytes ----------

  type Range = (nat, nat)

  /** Ordered, disjoint, possibly empty ranges of a string of `n` bytes, none before `from`. */
  predicate Ordered(ms: seq<Range>, from: nat, n: nat) {
    if ms == [] then from <= n else from <= ms[0].0 <= ms[0].1 && Ordered(ms[1..], ms[0].1, n)
  }

  /** The bytes outside the matches, with `to` in the place of each match. */
  function Replaced<T>(b: seq<T>, ms: seq<Range>, from: nat, to: seq<T>): seq<T>
    requires Ordered(ms, from, |b|)
  {
    OrderedInside(ms, from, |b|);
    if ms == [] then b[from..] else b[from..ms[0].0] + to + Replaced(b, ms[1..], ms[0].1, to)
  }

  lemma {:induction false} OrderedInside(ms: seq<Range>, from: nat, n: nat)
    requires Ordered(ms, from, n)
    ensures from <= n && (ms != [] ==> ms[0].1 <= n)
  {
    if ms != [] {
      OrderedInside(ms[1..], ms[0].1, n);
    }
  }

  /** The ranges between the matches, as the searcher's matches are turned into them. */
  function Rejections(ms: seq<Range>, from: nat, n: nat): seq<Range> {
    if ms == [] then [(from, n)] else [(from, ms[0].0)] + Rejections(ms[1..], ms[0].1, n)
  }

  // ---------- the buffer while retain is at work ----------

  /** `done` is what has been kept, `rest` what has not been read; `del` bytes between them are spare. */
  predicate Half(b: seq<Byte>, n: nat, idx: nat, del: nat, done: seq<Char>, rest: seq<Char>) {
    del <= idx <= n <= |b| && b[..idx - del] == EncodeAll(done) && b[idx..n] == EncodeAll(rest)
  }

  lemma HalfStart(b: seq<Byte>, n: nat)
    requires n <= |b| && Valid(b[..n])
    ensures Half(b, n, 0, 0, [], DecodeAll(b[..n]))
  {
    EncodesDecodedAll(b[..n]);
    hide Valid, DecodeAll;
  }

  lemma HalfReads(b: seq<Byte>, n: nat, idx: nat, del: nat, done: seq<Char>, rest: seq<Char>)
    requires Half(b, n, idx, del, done, rest)
    ensures idx < n <==> rest != []
    ensures rest != [] ==>
              && StartsChar(b[idx..n]) && DecodeOne(b[idx..n]) == rest[0] && idx + |Encode(rest[0])| <= n
              && EncodeAll(rest) == Encode(rest[0]) + EncodeAll(rest[1..])
              && Half(b, n, idx + |Encode(rest[0])|, del + |Encode(rest[0])|, done, rest[1..])
  {
    NextChar(rest);
    hide StartsChar, DecodeOne, Encode, EncodeAll;
    if rest != [] {
      var w := |Encode(rest[0])|;
      assert b[idx..n][w..] == b[idx + w..n];
      assert idx + w - (del + w) == idx - del;
    }
  }

  /** Keeping a character: it is there already when nothing has been deleted, and is written otherwise, even
      where the write overlaps the place it was read from. */
  lemma HalfKeeps(b: seq<Byte>, n: nat, idx: nat, del: nat, done: seq<Char>, rest: seq<Char>)
    requires Half(b, n, idx, del, done, rest) && rest != []
    ensures var e := Encode(rest[0]);
            && idx + |e| <= n
            && (del == 0 ==> Half(b, n, idx + |e|, 0, done + [rest[0]], rest[1..]))
            && Half(b[..idx - del] + e + b[idx - del + |e|..], n, idx + |e|, del, done + [rest[0]], rest[1..])
  {
    hide Half, StartsChar, DecodeOne, Encode, EncodeAll;
    HalfReads(b, n, idx, del, done, rest);
    HalfKept(b, n, idx, del, done, rest);
    EncodeMore(done, rest[0]);
    HalfWrites(b, n, idx, del, done, rest, Encode(rest[0]));
    if del == 0 {
      HalfStays(b, n, idx, done, rest, Encode(rest[0]));
    }
  }

  lemma HalfStays(b: seq<Byte>, n: nat, idx: nat, done: seq<Char>, rest: seq<Char>, e: seq<Byte>)
    requires Half(b, n, idx, 0, done, rest) && rest != [] && EncodeAll(rest) == e + EncodeAll(rest[1..])
    requires Half(b, n, idx + |e|, |e|, done, rest[1..]) && EncodeAll(done + [rest[0]]) == EncodeAll(done) + e
    ensures Half(b, n, idx + |e|, 0, done + [rest[0]], rest[1..])
  {
    hide EncodeAll;
    assert b[idx..n][..|e|] == e;
    assert b[idx..idx + |e|] == e;
    assert b[..idx + |e|] == b[..idx] + b[idx..idx + |e|];
  }

  lemma HalfWrites(b: seq<Byte>, n: nat, idx: nat, del: nat, done: seq<Char>, rest: seq<Char>, e: seq<Byte>)
    requires Half(b, n, idx, del, done, rest) && rest != []
    requires Half(b, n, idx + |e|, del + |e|, done, rest[1..]) && EncodeAll(done + [rest[0]]) == EncodeAll(done) + e
    ensures Half(b[..idx - del] + e + b[idx - del + |e|..], n, idx + |e|, del, done + [rest[0]], rest[1..])
  {
    hide EncodeAll;
    var b' := b[..idx - del] + e + b[idx - del + |e|..];
    assert |b'| == |b|;
    assert b'[..idx + |e| - del] == b[..idx - del] + e;
    assert b'[idx + |e|..n] == b[idx + |e|..n];
  }

  /** `k` calls have been made, and `done` is what they kept. */
  predicate Called(cs: seq<Char>, vs: seq<Verdict>, k: nat, done: seq<Char>) {
    && k <= |cs| <= |vs|
    && Kept(cs, vs) == done + Kept(cs[k..], vs[k..])
    && forall j | 0 <= j < k :: !vs[j].Panic?
  }

  lemma CalledOnce(cs: seq<Char>, vs: seq<Verdict>, k: nat, done: seq<Char>)
    requires Called(cs, vs, k, done) && k < |cs|
    ensures k < |cs| <= |vs| && cs[k..][0] == cs[k] && cs[k..][1..] == cs[k + 1..]
    ensures vs[k].Panic? ==> Kept(cs, vs) == done && Panics(|cs|, vs)
    ensures vs[k].Remove? ==> Called(cs, vs, k + 1, done)
    ensures vs[k].Keep? ==> Called(cs, vs, k + 1, done + [cs[k]])
  {
    assert vs[k..][0] == vs[k] && vs[k..][1..] == vs[k + 1..];
    if vs[k].Panic? {
      assert done + [] == done;
    } else if vs[k].Keep? {
      assert done + ([cs[k]] + Kept(cs[k + 1..], vs[k + 1..])) == done + [cs[k]] + Kept(cs[k + 1..], vs[k + 1..]);
    }
  }

  lemma CalledAll(cs: seq<Char>, vs: seq<Verdict>, done: seq<Char>)
    requires Called(cs, vs, |cs|, done)
    ensures |cs| <= |vs| && Kept(cs, vs) == done && !Panics(|cs|, vs)
  {
    assert cs[|cs|..] == [];
    assert done + [] == done;
  }

  class StringBuf {
    var vec: array<Byte>
    var len: nat

    ghost predicate Fits()
      reads this
    {
      len <= vec.Length
    }

    ghost function Contents(): seq<Byte>
      reads this, vec
      requires Fits()
    {
      vec[..len]
    }

    /** `vs[k]` is what the predicate does on its k-th call.  The guard sets the length however the loop
        ends. */
    method Retain(vs: seq<Verdict>) returns (panicked: bool)
      requires Fits() && Valid(Contents()) && |DecodeAll(Contents())| <= |vs|
      modifies this`len, vec
      ensures Fits() && vec.Length == old(vec.Length)
      ensures Contents() == EncodeAll(Kept(old(DecodeAll(Contents())), vs))
      ensures panicked <==> Panics(old(|DecodeAll(Contents())|), vs)
    {
      var n := len;
      ghost var cs := DecodeAll(Contents());
      var idx: nat, del: nat, calls: nat := 0, 0, 0;
      assert vec[..][..n] == vec[..n];
      WorkStarts(vec[..], n, cs, vs);
      hide Encode, EncodeAll, DecodeAll, Valid, StartsChar, Kept, Panics, Working, Spliced;
      panicked := false;
      while idx < n
        invariant Working(vec[..], n, idx, del, cs, vs, calls)
        invariant del <= idx <= n <= vec.Length
      {
        WorkReads(vec[..], n, idx, del, cs, vs, calls);
        assert vec[..][idx..n] == vec[idx..n];
        var ch := DecodeOne(vec[idx..n]);
        label Read:
        if vs[calls].Panic? {
          panicked := true;
          break;
        }
        var idx', del' := PutBack(idx, del, ch, vs[calls].Keep?);
        WorkMoves(old@Read(vec[..]), n, idx, del, cs, vs, calls, vec[..], idx', del');
        idx, del, calls := idx', del', calls + 1;
      }
      WorkEnds(vec[..], n, idx, del, cs, vs, calls);
      len := idx - del;
      assert vec[..][..len] == vec[..len];
    }

    /** `ms` are the matches that the searcher reports. */
    method RemoveMatches(ms: seq<Range>)
      requires Fits() && Ordered(ms, 0, len)
      modifies this`len, vec
      ensures Fits() && Contents() == Replaced(old(Contents()), ms, 0, [])
    {
      ghost var orig := Contents();
      var rejections := Rejections(ms, 0, len);
      var kept: nat := 0;
      CompactStarts(vec[..], len, orig, ms);
      hide Compacting, Rejections, Replaced, Moved, Ordered, Overwritten;
      for j := 0 to |rejections|
        invariant Compacting(vec[..], orig, ms, kept, rejections[j..])
      {
        ghost var before, todo := vec[..], rejections[j..];
        CompactReads(before, orig, ms, kept, todo);
        assert todo[0] == rejections[j];
        var start: nat := rejections[j].0;
        var count: nat := rejections[j].1 - start;
        var next: nat := kept + count;
        MoveDown(start, kept, count);
        CompactMoves(before, orig, ms, kept, todo, vec[..], next, rejections[j + 1..]);
        kept := next;
      }
      CompactEnds(vec[..], orig, ms, kept);
      assert vec[..][..kept] == vec[..kept];
      len := kept;
    }

    method MoveDown(src: nat, dst: nat, count: nat)
      requires dst <= src && src + count <= vec.Length
      modifies vec
      ensures vec[..] == Moved(old(vec[..]), src, dst, count)
    {
      if src != dst {
        CopyDown(vec, src, dst, count);
      } else {
        MovedNowhere(vec[..], src, count);
      }
    }

    /** The character `ch` was read at `idx`, behind `del` spare bytes. */
    method PutBack(idx: nat, del: nat, ch: Char, keep: bool) returns (idx': nat, del': nat)
      requires del <= idx && idx + |Encode(ch)| <= vec.Length
      modifies vec
      ensures idx' == idx + |Encode(ch)| && del' == if keep then del else del + |Encode(ch)|
      ensures vec[..] == Spliced(old(vec[..]), idx, del, Encode(ch), keep)
    {
      hide Encode;
      idx', del' := idx + |Encode(ch)|, del;
      if !keep {
        del' := del + |Encode(ch)|;
      } else if del > 0 {
        WriteAt(vec, idx - del, Encode(ch));
      }
    }
  }

  // ---------- remove_matches at work ----------

  function Moved(b: seq<Byte>, src: nat, dst: nat, count: nat): seq<Byte>
    requires dst <= src && src + count <= |b|
  {
    Overwritten(b, dst, b[src..src + count])
  }

  lemma MovedNowhere(b: seq<Byte>, src: nat, count: nat)
    requires src + count <= |b|
    ensures Moved(b, src, src, count) == b
  {
  }

  /** Before the ranges `todo` are moved: what is already in place, followed by what is still to come, is the
      result, and the bytes still to be read are as they were. */
  ghost predicate Compacting(b: seq<Byte>, orig: seq<Byte>, ms: seq<Range>, kept: nat, todo: seq<Range>) {
    && |orig| <= |b| && kept <= |orig| && Ordered(ms, 0, |orig|)
    && if todo == [] then b[..kept] == Replaced(orig, ms, 0, [])
       else exists rest, from :: Awaiting(b, orig, ms, kept, todo, rest, from)
  }

  ghost predicate Awaiting(b: seq<Byte>, orig: seq<Byte>, ms: seq<Range>, kept: nat, todo: seq<Range>,
                           rest: seq<Range>, from: nat)
    requires |orig| <= |b| && kept <= |orig| && Ordered(ms, 0, |orig|)
  {
    && kept <= from <= |orig| && Ordered(rest, from, |orig|)
    && todo == Rejections(rest, from, |orig|)
    && b[from..|orig|] == orig[from..]
    && Replaced(orig, ms, 0, []) == b[..kept] + Replaced(orig, rest, from, [])
  }

  lemma CompactStarts(b: seq<Byte>, n: nat, orig: seq<Byte>, ms: seq<Range>)
    requires n <= |b| && orig == b[..n] && Ordered(ms, 0, n)
    ensures Compacting(b, orig, ms, 0, Rejections(ms, 0, n))
  {
    assert b[..0] + Replaced(orig, ms, 0, []) == Replaced(orig, ms, 0, []);
    assert Awaiting(b, orig, ms, 0, Rejections(ms, 0, n), ms, 0);
  }

  lemma CompactReads(b: seq<Byte>, orig: seq<Byte>, ms: seq<Range>, kept: nat, todo: seq<Range>)
    requires Compacting(b, orig, ms, kept, todo) && todo != []
    ensures kept <= todo[0].0 <= todo[0].1 <= |orig| <= |b|
  {
    var rest, from :| Awaiting(b, orig, ms, kept, todo, rest, from);
    OrderedInside(rest, from, |orig|);
  }

  lemma CompactMoves(b: seq<Byte>, orig: seq<Byte>, ms: seq<Range>, kept: nat, todo: seq<Range>,
                     b': seq<Byte>, kept': nat, todo': seq<Range>)
    requires Compacting(b, orig, ms, kept, todo) && todo != [] && todo' == todo[1..]
    requires kept <= todo[0].0 <= todo[0].1 <= |b|
    requires b' == Moved(b, todo[0].0, kept, todo[0].1 - todo[0].0) && kept' == kept + (todo[0].1 - todo[0].0)
    ensures Compacting(b', orig, ms, kept', todo')
  {
    var rest, from :| Awaiting(b, orig, ms, kept, todo, rest, from);
    OrderedInside(rest, from, |orig|);
    hide Compacting, Awaiting, Rejections, Replaced, Ordered, Moved;
    MoveResult(b, orig, ms, kept, todo, rest, from, b', kept');
  }

  lemma MovedBytes(b: seq<Byte>, orig: seq<Byte>, from: nat, start: nat, end: nat, kept: nat)
    requires kept <= start && from <= start <= end <= |orig| <= |b| && b[from..|orig|] == orig[from..]
    ensures var b' := Moved(b, start, kept, end - start);
            && |b'| == |b| && b'[..kept + (end - start)] == b[..kept] + orig[start..end]
            && forall k | end <= k < |orig| :: b'[k] == orig[k]
  {
    forall k | from <= k < |orig| ensures b[k] == orig[k] {
      assert b[from..|orig|][k - from] == orig[from..][k - from];
    }
    assert b[start..end] == orig[start..end];
  }

  lemma MoveResult(b: seq<Byte>, orig: seq<Byte>, ms: seq<Range>, kept: nat, todo: seq<Range>,
                   rest: seq<Range>, from: nat, b': seq<Byte>, kept': nat)
    requires |orig| <= |b| && kept <= |orig| && Ordered(ms, 0, |orig|) && todo != []
    requires Awaiting(b, orig, ms, kept, todo, rest, from) && kept <= todo[0].0 <= todo[0].1 <= |orig|
    requires b' == Moved(b, todo[0].0, kept, todo[0].1 - todo[0].0) && kept' == kept + (todo[0].1 - todo[0].0)
    ensures Compacting(b', orig, ms, kept', todo[1..])
  {
    hide Ordered, Moved, Replaced, Rejections;
    var start, end := todo[0].0, todo[0].1;
    RestReplaced(orig, rest, from);
    MovedBytes(b, orig, from, start, end, kept);
    if rest == [] {
      assert todo[1..] == [];
      assert b'[..kept'] == Replaced(orig, ms, 0, []);
    } else {
      RestOrdered(rest, from, |orig|);
      Joined(b[..kept], orig[start..end], Replaced(orig, rest[1..], rest[0].1, []));
      TailKept(b', orig, end, rest[0].1);
      RestReplaced(orig, rest[1..], rest[0].1);
      assert Awaiting(b', orig, ms, kept', todo[1..], rest[1..], rest[0].1);
    }
  }

  lemma Joined(a: seq<Byte>, b: seq<Byte>, c: seq<Byte>)
    ensures a + (b + c) == (a + b) + c
  {
  }

  lemma TailKept(b: seq<Byte>, orig: seq<Byte>, end: nat, next: nat)
    requires end <= next <= |orig| <= |b| && forall k | end <= k < |orig| :: b[k] == orig[k]
    ensures b[next..|orig|] == orig[next..]
  {
  }

  /** The first of the remaining ranges. */
  lemma RestReplaced(orig: seq<Byte>, rest: seq<Range>, from: nat)
    requires Ordered(rest, from, |orig|)
    ensures Rejections(rest, from, |orig|) != []
    ensures rest == [] ==> Rejections(rest, from, |orig|) == [(from, |orig|)]
    ensures rest == [] ==> Replaced(orig, rest, from, []) == orig[from..|orig|]
    ensures rest != [] ==> Rejections(rest, from, |orig|)[0] == (from, rest[0].0)
    ensures rest != [] ==>
              && Ordered(rest[1..], rest[0].1, |orig|) && from <= rest[0].0 <= |orig|
              && Rejections(rest, from, |orig|)[1..] == Rejections(rest[1..], rest[0].1, |orig|)
              && Replaced(orig, rest, from, [])
                 == orig[from..rest[0].0] + Replaced(orig, rest[1..], rest[0].1, [])
  {
    OrderedInside(rest, from, |orig|);
    assert orig[from..] == orig[from..|orig|];
    if rest != [] {
      RestOrdered(rest, from, |orig|);
      assert orig[from..rest[0].0] + [] == orig[from..rest[0].0];
    }
  }

  lemma RestOrdered(rest: seq<Range>, from: nat, n: nat)
    requires Ordered(rest, from, n) && rest != []
    ensures from <= rest[0].0 <= rest[0].1 <= n && Ordered(rest[1..], rest[0].1, n)
  {
    OrderedInside(rest, from, n);
  }

  lemma CompactEnds(b: seq<Byte>, orig: seq<Byte>, ms: seq<Range>, kept: nat)
    requires Compacting(b, orig, ms, kept, [])
    ensures kept <= |orig| <= |b| && Ordered(ms, 0, |orig|) && b[..kept] == Replaced(orig, ms, 0, [])
  {
  }

  function Spliced(b: seq<Byte>, idx: nat, del: nat, e: seq<Byte>, keep: bool): seq<Byte>
    requires del <= idx && idx + |e| <= |b|
  {
    if keep && del > 0 then Overwritten(b, idx - del, e) else b
  }

  /** The state of retain before its next call. */
  ghost predicate Working(b: seq<Byte>, n: nat, idx: nat, del: nat, cs: seq<Char>, vs: seq<Verdict>, k: nat) {
    k <= |cs| && exists done :: Called(cs, vs, k, done) && Half(b, n, idx, del, done, cs[k..])
  }

  lemma WorkStarts(b: seq<Byte>, n: nat, cs: seq<Char>, vs: seq<Verdict>)
    requires n <= |b| && Valid(b[..n]) && cs == DecodeAll(b[..n]) && |cs| <= |vs|
    ensures Working(b, n, 0, 0, cs, vs, 0)
  {
    hide Called, Half, Valid;
    Start(cs, vs);
    HalfStart(b, n);
  }

  lemma WorkReads(b: seq<Byte>, n: nat, idx: nat, del: nat, cs: seq<Char>, vs: seq<Verdict>, k: nat)
    requires Working(b, n, idx, del, cs, vs, k) && idx < n
    ensures k < |cs| <= |vs| && del <= idx < n <= |b|
    ensures StartsChar(b[idx..n]) && DecodeOne(b[idx..n]) == cs[k] && idx + |Encode(cs[k])| <= n
  {
    hide Called, Half, Encode, StartsChar, DecodeOne, EncodeAll;
    var done :| Called(cs, vs, k, done) && Half(b, n, idx, del, done, cs[k..]);
    HalfReads(b, n, idx, del, done, cs[k..]);
    HalfKept(b, n, idx, del, done, cs[k..]);
    CalledOnce(cs, vs, k, done);
  }

  lemma WorkMoves(b: seq<Byte>, n: nat, idx: nat, del: nat, cs: seq<Char>, vs: seq<Verdict>, k: nat,
                  b': seq<Byte>, idx': nat, del': nat)
    requires Working(b, n, idx, del, cs, vs, k) && del <= idx < n <= |b| && k < |cs| && k < |vs|
    requires !vs[k].Panic? && idx + |Encode(cs[k])| <= n
    requires b' == Spliced(b, idx, del, Encode(cs[k]), vs[k].Keep?)
    requires idx' == idx + |Encode(cs[k])| && del' == if vs[k].Keep? then del else del + |Encode(cs[k])|
    ensures Working(b', n, idx', del', cs, vs, k + 1) && del' <= idx' <= n
  {
    hide Called, Half, Encode, StartsChar, DecodeOne, EncodeAll;
    var done :| Called(cs, vs, k, done) && Half(b, n, idx, del, done, cs[k..]);
    HalfReads(b, n, idx, del, done, cs[k..]);
    HalfKeeps(b, n, idx, del, done, cs[k..]);
    CalledOnce(cs, vs, k, done);
  }

  lemma WorkEnds(b: seq<Byte>, n: nat, idx: nat, del: nat, cs: seq<Char>, vs: seq<Verdict>, k: nat)
    requires Working(b, n, idx, del, cs, vs, k)
    requires idx >= n || (k < |cs| && k < |vs| && vs[k].Panic?)
    ensures del <= idx <= n <= |b| && |cs| <= |vs| && b[..idx - del] == EncodeAll(Kept(cs, vs))
    ensures Panics(|cs|, vs) <==> idx < n
  {
    hide Called, Half, Encode, StartsChar, DecodeOne, EncodeAll, Panics;
    var done :| Called(cs, vs, k, done) && Half(b, n, idx, del, done, cs[k..]);
    HalfReads(b, n, idx, del, done, cs[k..]);
    HalfKept(b, n, idx, del, done, cs[k..]);
    if idx < n {
      CalledOnce(cs, vs, k, done);
    } else {
      CalledAll(cs, vs, done);
    }
  }

  lemma Start(cs: seq<Char>, vs: seq<Verdict>)
    requires |cs| <= |vs|
    ensures Called(cs, vs, 0, []) && cs[0..] == cs
  {
    assert cs[0..] == cs && vs[0..] == vs;
    assert [] + Kept(cs, vs) == Kept(cs, vs);
  }

  lemma HalfKept(b: seq<Byte>, n: nat, idx: nat, del: nat, done: seq<Char>, rest: seq<Char>)
    requires Half(b, n, idx, del, done, rest)
    ensures del <= idx <= n <= |b| && b[..idx - del] == EncodeAll(done)
  {
  }

  lemma EncodeMore(done: seq<Char>, c: Char)
    ensures EncodeAll(done + [c]) == EncodeAll(done) + Encode(c)
  {
    EncodeAppend(done, [c]);
    EncodeOne(c);
  }

  lemma NextChar(cs: seq<Char>)
    ensures EncodeAll(cs) == [] <==> cs == []
    ensures cs != [] ==>
              && StartsChar(EncodeAll(cs)) && DecodeOne(EncodeAll(cs)) == cs[0]
              && EncodeAll(cs) == Encode(cs[0]) + EncodeAll(cs[1..])
  {
    if cs != [] {
      DecodesEncoded(cs[0], EncodeAll(cs[1..]));
    }
  }

  // ---------- how many bytes are spare ----------

  /** The characters that the first calls removed. */
  function Dropped(cs: seq<Char>, vs: seq<Verdict>): seq<Char>
    requires |cs| <= |vs|
  {
    if cs == [] then []
    else if vs[0].Remove? then [cs[0]] + Dropped(cs[1..], vs[1..])
    else Dropped(cs[1..], vs[1..])
  }

  lemma {:induction false} KeptSplit(cs: seq<Char>, vs: seq<Verdict>, k: nat)
    requires k <= |cs| <= |vs| && forall j | 0 <= j < k :: !vs[j].Panic?
    ensures Kept(cs, vs) == Kept(cs[..k], vs[..k]) + Kept(cs[k..], vs[k..])
  {
    if k == 0 {
      assert cs[0..] == cs && vs[0..] == vs;
    } else {
      assert cs[..k][0] == cs[0] && cs[..k][1..] == cs[1..][..k - 1];
      assert vs[..k][0] == vs[0] && vs[..k][1..] == vs[1..][..k - 1];
      assert cs[1..][k - 1..] == cs[k..] && vs[1..][k - 1..] == vs[k..];
      KeptSplit(cs[1..], vs[1..], k - 1);
      var rest := Kept(cs[1..][..k - 1], vs[1..][..k - 1]);
      if vs[0].Keep? {
        assert [cs[0]] + (rest + Kept(cs[k..], vs[k..])) == ([cs[0]] + rest) + Kept(cs[k..], vs[k..]);
      }
    }
  }

  lemma {:induction false} KeptAndDropped(cs: seq<Char>, vs: seq<Verdict>)
    requires |cs| <= |vs| && forall j | 0 <= j < |cs| :: !vs[j].Panic?
    ensures |EncodeAll(cs)| == |EncodeAll(Kept(cs, vs))| + |EncodeAll(Dropped(cs, vs))|
  {
    hide Encode;
    if cs != [] {
      KeptAndDropped(cs[1..], vs[1..]);
      if vs[0].Keep? {
        EncodeAppend([cs[0]], Kept(cs[1..], vs[1..]));
      } else {
        EncodeAppend([cs[0]], Dropped(cs[1..], vs[1..]));
      }
      EncodeOne(cs[0]);
    }
  }

  /** Before the k-th call there are as many spare bytes as the characters removed so far took. */
  lemma SpareIsDropped(b: seq<Byte>, n: nat, idx: nat, del: nat, cs: seq<Char>, vs: seq<Verdict>, k: nat)
    requires Working(b, n, idx, del, cs, vs, k) && n == |EncodeAll(cs)|
    ensures k <= |cs| <= |vs| && del == |EncodeAll(Dropped(cs[..k], vs[..k]))|
  {
    hide EncodeAll;
    var done :| Called(cs, vs, k, done) && Half(b, n, idx, del, done, cs[k..]);
    KeptSplit(cs, vs, k);
    SameFront(done, Kept(cs[..k], vs[..k]), Kept(cs[k..], vs[k..]));
    KeptAndDropped(cs[..k], vs[..k]);
    EncodeAppend(cs[..k], cs[k..]);
    assert cs == cs[..k] + cs[k..];
    assert |b[idx..n]| == n - idx && |b[..idx - del]| == idx - del;
  }

  lemma SameFront(a: seq<Char>, b: seq<Char>, c: seq<Char>)
    requires a + c == b + c
    ensures a == b
  {
    assert |a| == |b|;
    assert a == (a + c)[..|a|] && b == (b + c)[..|b|];
  }

  /** So a kept character overlaps the place it was read from exactly when it is wider than all the removed
      ones together. */
  lemma OverlapsExactlyWhenWider(b: seq<Byte>, n: nat, idx: nat, del: nat, cs: seq<Char>, vs: seq<Verdict>, k: nat)
    requires Working(b, n, idx, del, cs, vs, k) && n == |EncodeAll(cs)| && k < |cs|
    ensures |cs| <= |vs|
    ensures del <= idx && (idx - del + |Encode(cs[k])| <= idx <==>
              |Encode(cs[k])| <= |EncodeAll(Dropped(cs[..k], vs[..k]))|)
  {
    SpareIsDropped(b, n, idx, del, cs, vs, k);
    WorkingBounds(b, n, idx, del, cs, vs, k);
    hide Working, EncodeAll, Encode, Dropped;
  }

  lemma WorkingBounds(b: seq<Byte>, n: nat, idx: nat, del: nat, cs: seq<Char>, vs: seq<Verdict>, k: nat)
    requires Working(b, n, idx, del, cs, vs, k)
    ensures del <= idx <= n
  {
    hide Called, EncodeAll;
  }

  /** Removing a one-byte character and keeping a three-byte one: one spare byte for three. */
  lemma SpareMayBeShort()
    ensures var cs: seq<Char> := [0x61, 0x20AC];
            Working(EncodeAll(cs), 4, 1, 1, cs, [Remove, Keep], 1) && |Encode(cs[1])| == 3
  {
    var cs: seq<Char> := [0x61, 0x20AC];
    var vs := [Remove, Keep];
    assert cs[1..] == [0x20AC] && vs[1..] == [Keep];
    EncodeOne(0x20AC);
    assert EncodeAll(cs) == Encode(0x61) + EncodeAll(cs[1..]);
    var b := EncodeAll(cs);
    assert b == [0x61] + Encode(0x20AC) && |Encode(0x20AC)| == 3;
    assert b[1..4] == Encode(0x20AC);
    assert b[..0] == EncodeAll([]);
    assert Half(b, 4, 1, 1, [], cs[1..]);
    assert Kept(cs, vs) == Kept(cs[1..], vs[1..]) == [] + Kept(cs[1..], vs[1..]);
    assert Called(cs, vs, 1, []);
  }
}
