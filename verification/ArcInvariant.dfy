/** The inductive invariant of the `Arc` protocol. */
module ArcInvariant {
  import opened ArcMachine
  import opened ArcLedger

  function StrongRefs(n: Nums): int { n.st.plain + n.st.excl + n.st.build }

  /** Holders that have the allocation to themselves. */
  function Owners(n: Nums): int { n.st.excl + n.st.build + n.so.sole + n.so.lone + n.so.seed }

  /** The implicit weak reference: held by all strong owners together, or by the one call that is
      taking the last owner apart, or by the handle that has not published the value yet. */
  function Implicit(n: Nums): int {
    (if StrongRefs(n) > 0 then 1 else 0) + n.so.sole + n.so.lone + n.so.seed + n.we.rel
  }

  /** The counters and the value of one allocation agree with what the entities hold. */
  predicate CellOk(maxRef: nat, c: Cell, n: Nums) {
    && AtMost(ZERO, n)
    && Implicit(n) <= 1
    // counters
    && c.strong == StrongRefs(n)
    && n.fl.lock <= 1
    && (n.fl.lock == 0 ==> c.weak == n.we.expl + Implicit(n))
    && (n.fl.lock == 1 ==> c.weak == 2 * maxRef + 1 && n.we.expl == 0 && StrongRefs(n) > 0)
    && StrongRefs(n) <= maxRef + 1 + n.fl.abS
    && n.we.expl + Implicit(n) <= maxRef + 1 + n.fl.abW
    // uniqueness
    && n.st.excl + n.st.build <= 1
    && (n.st.excl + n.st.build + n.so.lone > 0 ==> n.st.plain == 0 && n.we.expl == 0)
    // the value
    && (n.st.plain + n.st.excl + n.so.sole + n.so.lone > 0 ==> c.data.Live?)
    && (n.st.build + n.so.seed > 0 ==> c.data.Uninit?)
    && (StrongRefs(n) + n.so.sole + n.so.lone + n.so.seed == 0 ==> c.data.Gone?)
    && c.drops + c.handed + c.steals == (if c.data.Gone? then 1 else 0)
    // the memory
    && c.frees == (if c.freed then 1 else 0)
    && (c.freed ==> n.we.expl + Implicit(n) == 0)
    && n.we.dealloc == (if !c.freed && n.we.expl + Implicit(n) == 0 then 1 else 0)
  }

  predicate LocsOk(heap: map<Loc, Cell>, e: Ent) {
    e.l in heap && (Second(e).Some? ==> Second(e).value in heap && Second(e).value != e.l)
  }

  predicate BorrowOk(m: map<Id, Ent>, e: Ent) {
    Borrowed(e).Some? ==>
      var h := Borrowed(e).value;
      h in m && m[h].l == e.l && if e.UpgradeLoop? || e.WeakCountLoad? then IsWeakRef(m[h]) else m[h].Strong?
  }

  predicate Shows(heap: map<Loc, Cell>, l: Loc, v: Value) {
    l in heap && heap[l].data == Live(v)
  }

  /** The value a call remembers in its allocation. */
  function Remembered(e: Ent): Option<Value> {
    if e.MutRef? then Some(e.v)
    else if e.MakeClone? || e.MakeCloneInit? || e.MakeDropOld? || e.MakeWeakLoad? || e.MakeStore? || e.MakeSteal?
            || e.MakeMove? then Some(e.v0)
    else None
  }

  function ContCopy(k: Cont): Option<(Value, Value)> {
    if k.ThenMut? then Some((k.v0, k.got)) else None
  }

  /** The value `make_mut` was called on and the value it hands out in the second allocation. */
  function Copied(e: Ent): Option<(Value, Value)> {
    if e.MakeDropOld? then Some((e.v0, e.got))
    else if e.Destroy? || e.ReleaseWeak? || e.Dealloc? then ContCopy(e.k)
    else None
  }

  /** What a `Weak::weak_count` between its two loads knows: if the value was there at the first load, the
      implicit weak reference was counted; if the value was gone, it still is. */
  predicate CountKnown(heap: map<Loc, Cell>, e: Ent)
    requires e.WeakCountLoad?
  {
    && e.l in heap
    && (e.held ==> e.cur == e.seen + 1)
    && (!e.held ==> heap[e.l].data.Gone?)
  }

  /** The values that a call remembers are still there. */
  predicate ValuesOk(heap: map<Loc, Cell>, e: Ent) {
    && (Remembered(e).Some? ==> Shows(heap, e.l, Remembered(e).value))
    && (Copied(e).Some? ==> Second(e).Some? && Shows(heap, Second(e).value, Copied(e).value.1))
    && (e.WeakCountLoad? ==> CountKnown(heap, e))
  }

  predicate CopyOk(clones: set<(Value, Value)>, v0: Value, got: Value) {
    got == v0 || (v0, got) in clones
  }

  /** What `make_mut` hands out is the original value or a clone of it. */
  predicate CopiesOk(clones: set<(Value, Value)>, e: Ent) {
    && (Copied(e).Some? ==> CopyOk(clones, Copied(e).value.0, Copied(e).value.1))
    && (e.MutRef? ==> CopyOk(clones, e.v0, e.got))
  }

  predicate EntOk(s: State, i: Id) {
    && i in s.ents
    && i < s.next
    && LocsOk(s.heap, s.ents[i])
    && BorrowOk(s.ents, s.ents[i])
    && ValuesOk(s.heap, s.ents[i])
    && CopiesOk(s.clones, s.ents[i])
  }

  ghost predicate LedgerOk(s: State, l: Loc) {
    l in s.heap && l < s.next && CellOk(s.maxRef, s.heap[l], Total(s.ents, l))
  }

  ghost predicate Inv(s: State) {
    && 0 < s.maxRef
    && s.threads < s.maxRef
    && |Aborting(s.ents)| <= s.threads
    && !s.ub
    && (forall l {:trigger LedgerOk(s, l)} | l in s.heap :: LedgerOk(s, l))
    && (forall i {:trigger EntOk(s, i)} | i in s.ents :: EntOk(s, i))
  }

  // ---------- replacing or removing one entity ----------

  lemma NoLocNoPart(e: Ent, heap: map<Loc, Cell>, l: Loc)
    requires LocsOk(heap, e) && l !in heap
    ensures Contrib(e, l) == ZERO
  {
  }

  lemma FreshLoc(s: State, l: Loc)
    requires Inv(s) && l !in s.heap
    ensures Total(s.ents, l) == ZERO
  {
    forall i | i in s.ents ensures Contrib(s.ents[i], l) == ZERO {
      assert EntOk(s, i);
      NoLocNoPart(s.ents[i], s.heap, l);
    }
    TotalZero(s.ents, l);
  }

  lemma AbortingPut(m: map<Id, Ent>, i: Id, e: Ent)
    ensures |Aborting(m[i := e])| <= |Aborting(m)| + (if IsAbort(e) then 1 else 0)
  {
    var rest := Aborting(m) - {i};
    assert Aborting(m[i := e]) == if IsAbort(e) then rest + {i} else rest;
    assert |rest| <= |Aborting(m)|;
  }

  lemma AbortingDel(m: map<Id, Ent>, i: Id)
    ensures |Aborting(m - {i})| <= |Aborting(m)|
  {
    assert Aborting(m - {i}) == Aborting(m) - {i};
  }

  predicate SameConfig(s: State, t: State) {
    && t.maxRef == s.maxRef && t.threads == s.threads && s.next <= t.next && s.clones <= t.clones
  }

  /** Nothing but `l` and `n` changes, and only with respect to entity `i`. */
  ghost predicate Elsewhere(s: State, t: State, i: Id, l: Loc, n: Loc) {
    && s.heap.Keys <= t.heap.Keys
    && (forall x | x in t.heap && x != l && x != n ::
          x in s.heap && t.heap[x] == s.heap[x] && Held(t.ents, i, x) == Held(s.ents, i, x))
  }

  ghost predicate CellAfter(s: State, t: State, i: Id, x: Loc) {
    && x in t.heap && x < t.next
    && CellOk(t.maxRef, t.heap[x], Add(Sub(Total(s.ents, x), Held(s.ents, i, x)), Held(t.ents, i, x)))
  }

  /** The values that the other entities remember are still there. */
  ghost predicate OthersKeep(s: State, t: State, i: Id) {
    forall j | j in s.ents && j != i :: ValuesOk(t.heap, s.ents[j])
  }

  lemma LocsStay(heap: map<Loc, Cell>, heap': map<Loc, Cell>, e: Ent)
    requires LocsOk(heap, e) && heap.Keys <= heap'.Keys
    ensures LocsOk(heap', e)
  {
    hide Second;
  }

  lemma BorrowStays(m: map<Id, Ent>, m': map<Id, Ent>, i: Id, e: Ent)
    requires BorrowOk(m, e) && Borrowed(e) != Some(i)
    requires forall x | x in m && x != i :: x in m' && m'[x] == m[x]
    ensures BorrowOk(m', e)
  {
    hide Borrowed;
  }

  lemma CopiesStay(clones: set<(Value, Value)>, clones': set<(Value, Value)>, e: Ent)
    requires CopiesOk(clones, e) && clones <= clones'
    ensures CopiesOk(clones', e)
  {
    hide Copied;
  }

  /** Only handles are borrowed, so nothing borrows `i` here. */
  ghost predicate Free(s: State, i: Id) {
    i in s.ents ==> Unborrowed(s, i) || IsCall(s.ents[i]) || s.ents[i].Unique? || s.ents[i].MutRef?
  }

  lemma OnlyHandlesBorrowed(m: map<Id, Ent>, e: Ent, i: Id)
    requires BorrowOk(m, e) && Borrowed(e) == Some(i)
    ensures i in m && (m[i].Strong? || IsWeakRef(m[i]))
  {
    hide Borrowed;
  }

  lemma NotBorrowed(s: State, i: Id, j: Id)
    requires Inv(s) && Free(s, i) && j in s.ents
    ensures Borrowed(s.ents[j]) != Some(i)
  {
    hide LedgerOk, ValuesOk, CopiesOk, LocsOk, BorrowOk, Borrowed;
    assert EntOk(s, j);
    if Borrowed(s.ents[j]) == Some(i) {
      OnlyHandlesBorrowed(s.ents, s.ents[j], i);
    }
  }

  lemma OtherEnts(s: State, t: State, i: Id, j: Id)
    requires Inv(s) && SameConfig(s, t) && Free(s, i)
    requires j in s.ents && j != i && j in t.ents && t.ents[j] == s.ents[j]
    requires forall x | x in s.ents && x != i :: x in t.ents && t.ents[x] == s.ents[x]
    requires s.heap.Keys <= t.heap.Keys
    requires ValuesOk(t.heap, s.ents[j])
    ensures EntOk(t, j)
  {
    hide LocsOk, BorrowOk, ValuesOk, CopiesOk, Free, LedgerOk;
    assert EntOk(s, j);
    NotBorrowed(s, i, j);
    LocsStay(s.heap, t.heap, s.ents[j]);
    BorrowStays(s.ents, t.ents, i, s.ents[j]);
    CopiesStay(s.clones, t.clones, s.ents[j]);
  }

  lemma OtherCell(s: State, t: State, i: Id, x: Loc)
    requires LedgerOk(s, x) && SameConfig(s, t) && x in t.heap && t.heap[x] == s.heap[x]
    requires Held(t.ents, i, x) == Held(s.ents, i, x)
    ensures CellAfter(s, t, i, x)
  {
    hide CellOk, Held, Total;
    assert Add(Sub(Total(s.ents, x), Held(s.ents, i, x)), Held(t.ents, i, x)) == Total(s.ents, x);
  }

  lemma PutCells(s: State, t: State, i: Id, e: Ent, l: Loc, n: Loc, x: Loc)
    requires Inv(s) && SameConfig(s, t) && t.ents == s.ents[i := e] && x in t.heap
    requires Elsewhere(s, t, i, l, n) && CellAfter(s, t, i, l) && CellAfter(s, t, i, n)
    ensures LedgerOk(t, x)
  {
    hide CellOk, Contrib, Total, EntOk, Sub, Add;
    TotalPut(s.ents, i, e, x);
    if x != l && x != n {
      assert LedgerOk(s, x);
      OtherCell(s, t, i, x);
    }
  }

  lemma PutInv(s: State, t: State, i: Id, e: Ent, l: Loc, n: Loc)
    requires Inv(s) && SameConfig(s, t) && !t.ub && Free(s, i)
    requires t.ents == s.ents[i := e]
    requires IsAbort(e) ==> |Aborting(s.ents)| < s.threads
    requires EntOk(t, i) && OthersKeep(s, t, i)
    requires Elsewhere(s, t, i, l, n) && CellAfter(s, t, i, l) && CellAfter(s, t, i, n)
    ensures Inv(t)
  {
    hide CellAfter, LedgerOk, EntOk, ValuesOk, Free, Aborting, IsAbort;
    AbortingPut(s.ents, i, e);
    forall x | x in t.heap ensures LedgerOk(t, x) {
      PutCells(s, t, i, e, l, n, x);
    }
    forall j | j in t.ents ensures EntOk(t, j) {
      if j != i {
        OtherEnts(s, t, i, j);
      }
    }
  }

  lemma DelCells(s: State, t: State, i: Id, l: Loc, x: Loc)
    requires Inv(s) && SameConfig(s, t) && t.ents == s.ents - {i} && x in t.heap
    requires Elsewhere(s, t, i, l, l) && CellAfter(s, t, i, l)
    ensures LedgerOk(t, x)
  {
    hide CellOk, Contrib, Total, EntOk;
    TotalDel(s.ents, i, x);
    if x != l {
      assert LedgerOk(s, x);
      OtherCell(s, t, i, x);
    }
    assert Add(Sub(Total(s.ents, x), Held(s.ents, i, x)), ZERO) == Sub(Total(s.ents, x), Held(s.ents, i, x));
  }

  lemma DelInv(s: State, t: State, i: Id, l: Loc)
    requires Inv(s) && SameConfig(s, t) && !t.ub && Free(s, i)
    requires t.ents == s.ents - {i}
    requires OthersKeep(s, t, i)
    requires Elsewhere(s, t, i, l, l) && CellAfter(s, t, i, l)
    ensures Inv(t)
  {
    hide CellAfter, LedgerOk, EntOk, ValuesOk, Free, Aborting, IsAbort;
    AbortingDel(s.ents, i);
    forall x | x in t.heap ensures LedgerOk(t, x) {
      DelCells(s, t, i, l, x);
    }
    forall j | j in t.ents ensures EntOk(t, j) {
      OtherEnts(s, t, i, j);
    }
  }

  // ---------- why the other entities keep their values ----------

  lemma SameData(heap: map<Loc, Cell>, heap': map<Loc, Cell>, e: Ent)
    requires ValuesOk(heap, e)
    requires (Remembered(e).Some? || e.WeakCountLoad?) && e.l in heap ==>
               e.l in heap' && heap'[e.l].data == heap[e.l].data
    requires Copied(e).Some? && Second(e).Some? && Second(e).value in heap ==>
               Second(e).value in heap' && heap'[Second(e).value].data == heap[Second(e).value].data
    ensures ValuesOk(heap', e)
  {
    hide Remembered, Second, Copied;
  }

  lemma SameDataKeep(s: State, t: State, i: Id)
    requires Inv(s)
    requires forall x | x in s.heap :: x in t.heap && t.heap[x].data == s.heap[x].data
    ensures OthersKeep(s, t, i)
  {
    hide ValuesOk, LedgerOk, LocsOk, BorrowOk, CopiesOk;
    forall j | j in s.ents && j != i ensures ValuesOk(t.heap, s.ents[j]) {
      assert EntOk(s, j);
      SameData(s.heap, t.heap, s.ents[j]);
    }
  }

  lemma RememberedIsHeld(e: Ent)
    ensures Remembered(e).Some? ==>
              Contrib(e, e.l).st.plain + Contrib(e, e.l).st.excl + Contrib(e, e.l).so.sole + Contrib(e, e.l).so.lone > 0
  {
  }

  lemma CopiedIsHeld(e: Ent)
    requires Second(e) != Some(e.l)
    ensures Copied(e).Some? ==> Second(e).Some? && Contrib(e, Second(e).value).st.excl > 0
  {
  }

  lemma NumsAlone(maxRef: nat, c: Cell, n: Nums, a: Nums, b: Nums)
    requires CellOk(maxRef, c, n) && AtMost(Add(a, b), n) && AtMost(ZERO, a) && AtMost(ZERO, b)
    requires Owners(a) > 0
    ensures b.st.plain == 0 && Owners(b) == 0
  {
  }

  /** Whoever owns the value alone is the only one to have anything to do with it. */
  lemma OwnerAlone(s: State, i: Id, j: Id, l: Loc)
    requires LedgerOk(s, l) && i != j
    requires Owners(Held(s.ents, i, l)) > 0
    ensures Held(s.ents, j, l).st.plain == 0 && Owners(Held(s.ents, j, l)) == 0
    ensures AtMost(ZERO, Held(s.ents, j, l))
  {
    hide CellOk, Held, Total, AtMost, Add, Owners;
    TotalPair(s.ents, i, j, l);
    NumsAlone(s.maxRef, s.heap[l], Total(s.ents, l), Held(s.ents, i, l), Held(s.ents, j, l));
  }

  lemma SecondApart(heap: map<Loc, Cell>, e: Ent)
    requires LocsOk(heap, e)
    ensures Second(e) != Some(e.l)
  {
  }

  /** Only the one entity that owns a value may change it. */
  lemma OwnerKeeps(s: State, t: State, i: Id, l: Loc, n: Loc)
    requires Inv(s) && l in s.heap && n in s.heap && l in t.heap && n in t.heap
    requires forall x | x in s.heap && x != l && x != n :: x in t.heap && t.heap[x].data == s.heap[x].data
    requires Owners(Held(s.ents, i, l)) > 0 && Owners(Held(s.ents, i, n)) > 0
    ensures OthersKeep(s, t, i)
  {
    hide ValuesOk, LedgerOk, LocsOk, BorrowOk, CopiesOk, Contrib;
    forall j | j in s.ents && j != i ensures ValuesOk(t.heap, s.ents[j]) {
      assert EntOk(s, j);
      SecondApart(s.heap, s.ents[j]);
      assert LedgerOk(s, l) && LedgerOk(s, n);
      OwnerAlone(s, i, j, l);
      OwnerAlone(s, i, j, n);
      OwnedNotGone(s, i, l);
      OwnedNotGone(s, i, n);
      OtherKeeps(s.heap, t.heap, s.ents[j], l, n);
    }
  }

  lemma OwnedNotGone(s: State, i: Id, l: Loc)
    requires LedgerOk(s, l) && Owners(Held(s.ents, i, l)) > 0
    ensures !s.heap[l].data.Gone?
  {
    hide CellOk, Held, Total, AtMost, Owners;
    TotalHas(s.ents, i, l);
    OwnedNums(s.maxRef, s.heap[l], Total(s.ents, l), Held(s.ents, i, l));
  }

  lemma OwnedNums(maxRef: nat, c: Cell, n: Nums, a: Nums)
    requires CellOk(maxRef, c, n) && AtMost(a, n) && Owners(a) > 0
    ensures !c.data.Gone?
  {
  }

  lemma OtherKeeps(heap: map<Loc, Cell>, heap': map<Loc, Cell>, e: Ent, l: Loc, n: Loc)
    requires ValuesOk(heap, e) && Second(e) != Some(e.l)
    requires forall x | x in heap && x != l && x != n :: x in heap' && heap'[x].data == heap[x].data
    requires l in heap && n in heap && l in heap' && n in heap'
    requires !heap[l].data.Gone? && !heap[n].data.Gone?
    requires forall x | x == l || x == n ::
               Contrib(e, x).st.plain == 0 && Owners(Contrib(e, x)) == 0 && AtMost(ZERO, Contrib(e, x))
    ensures ValuesOk(heap', e)
  {
    hide Contrib, Remembered, Copied, Second;
    RememberedIsHeld(e);
    CopiedIsHeld(e);
  }

  lemma TwoPlain(n: Nums, a: Nums, b: Nums)
    requires AtMost(Add(a, b), n) && AtMost(ZERO, a) && AtMost(ZERO, b)
    requires StrongRefs(a) > 0 && StrongRefs(b) > 0
    ensures StrongRefs(n) > 1
  {
  }

  /** A holder of the lock owns or borrows a strong reference. */
  lemma LockedByOwner(s: State, i: Id, l: Loc) returns (j: Id)
    requires Inv(s) && Free(s, i) && Total(s.ents, l).fl.lock > 0
    requires Held(s.ents, i, l).fl.lock == 0
    ensures j != i && StrongRefs(Held(s.ents, j, l)) > 0
  {
    hide LedgerOk, ValuesOk, CopiesOk, LocsOk, Total, Free;
    j := LockHolder(s.ents, l);
    assert EntOk(s, j);
    NotBorrowed(s, i, j);
    if s.ents[j].UniqueLoad? || s.ents[j].UniqueStore? {
      j := s.ents[j].h;
    }
  }

  /** A strong owner that nobody borrows and that does not hold the lock itself cannot be the only one
      while the lock is held. */
  lemma LockNeedsAnother(s: State, i: Id, l: Loc)
    requires Inv(s) && Free(s, i) && Total(s.ents, l).fl.lock > 0
    requires StrongRefs(Held(s.ents, i, l)) > 0 && Held(s.ents, i, l).fl.lock == 0
    ensures StrongRefs(Total(s.ents, l)) > 1
  {
    hide *;
    var j := LockedByOwner(s, i, l);
    TotalPair(s.ents, i, j, l);
    TwoPlain(Total(s.ents, l), Held(s.ents, i, l), Held(s.ents, j, l));
  }
}
