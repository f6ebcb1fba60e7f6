/** The steps of `make_mut`, of writing through `&mut`, and of taking a value apart keep the
    invariant. */
module ArcMutSteps {
  import opened ArcMachine
  import opened ArcLedger
  import opened ArcInvariant
  import opened ArcSteps
  import opened ArcLockSteps

  // ---------- steps on two allocations ----------

  /** A call leaves its old allocation and hands out `&mut` into the new one. */
  lemma StepToMut(s: State, t: State, i: Id, n: Loc, v0: Value, got: Value, c: Cell)
    requires Inv(s) && SameConfig(s, t) && !t.ub && i in s.ents && IsCall(s.ents[i])
    requires t.ents == s.ents[i := MutRef(n, v0, got, got)]
    requires Second(s.ents[i]) == Some(n) && !Builds(s.ents[i]) && Copied(s.ents[i]) == Some((v0, got))
    requires s.ents[i].l in s.heap && t.heap == s.heap[s.ents[i].l := c] && c.data == s.heap[s.ents[i].l].data
    requires CellOk(s.maxRef, c, Add(Sub(Total(s.ents, s.ents[i].l), Contrib(s.ents[i], s.ents[i].l)), ZERO))
    ensures Inv(t)
  {
    hide CellOk, Total, AtMost, Free, OthersKeep, Add, Sub, Contrib, RoleOf, Second, Copied, EntOk, LedgerOk, IsCall;
    var was := s.ents[i];
    var l := was.l;
    var e := MutRef(n, v0, got, got);
    CallIsFree(s, i);
    ToMutOk(s, t, i, n, v0, got);
    LedgerAt(s, l);
    LedgerAt(s, n);
    SameDataKeep(s, t, i);
    ToMutParts(was, e, l);
    forall x | x in t.heap && x != l && x != n ensures Held(t.ents, i, x) == Held(s.ents, i, x) {
      ToMutParts(was, e, x);
    }
    ToMutParts(was, e, n);
    KeepNums(s.maxRef, s.heap[n], Total(s.ents, n), Contrib(e, n));
    PutInv(s, t, i, e, l, n);
  }

  lemma ToMutParts(was: Ent, e: Ent, x: Loc)
    requires e.MutRef? && Second(was) == Some(e.l) && !Builds(was) && was.l != e.l
    ensures x != was.l ==> Contrib(e, x) == Contrib(was, x)
    ensures x == was.l ==> Contrib(e, x) == ZERO
  {
    assert Contrib(e, x) == ZERO.(st := ZERO.st.(excl := if x == e.l then 1 else 0));
    if x != was.l {
      OnlyMainRole(was, x);
    }
  }

  lemma OnlyMainRole(e: Ent, x: Loc)
    requires x != e.l
    ensures Contrib(e, x) == if Second(e) != Some(x) then ZERO else if Builds(e) then BUILD else EXCL
  {
    hide Second, RoleOf;
  }

  lemma ToMutOk(s: State, t: State, i: Id, n: Loc, v0: Value, got: Value)
    requires Inv(s) && SameConfig(s, t) && i in s.ents
    requires t.ents == s.ents[i := MutRef(n, v0, got, got)]
    requires Second(s.ents[i]) == Some(n) && Copied(s.ents[i]) == Some((v0, got))
    requires s.ents[i].l in s.heap && t.heap.Keys == s.heap.Keys
    requires forall x | x in s.heap :: t.heap[x].data == s.heap[x].data
    ensures EntOk(t, i) && n in s.heap && n != s.ents[i].l
  {
    hide LedgerOk, Second, Copied, BorrowOk;
    assert EntOk(s, i);
    MutRefOk(t, i, MutRef(n, v0, got, got));
  }

  /** A call allocates memory for a new value. */
  lemma StepAlloc(s: State, t: State, i: Id, e: Ent)
    requires Inv(s) && SameConfig(s, t) && !t.ub && i in s.ents && IsCall(s.ents[i]) && t.next == s.next + 1
    requires t.ents == s.ents[i := e] && t.heap == s.heap[s.next := FreshCell(1, 1, Uninit)]
    requires e.l == s.ents[i].l && RoleOf(e) == RoleOf(s.ents[i]) && Second(s.ents[i]) == None
    requires Second(e) == Some(s.next) && Builds(e)
    requires RoleOf(e) != Freeing && !Locks(e) && !Locks(s.ents[i]) && !IsAbort(e) && !IsAbort(s.ents[i])
    requires EntOk(t, i)
    ensures Inv(t)
  {
    hide CellOk, Total, AtMost, Free, OthersKeep, Contrib, RoleOf, Second, EntOk, LedgerOk, IsCall, Builds, Locks,
      IsAbort;
    var n := s.next;
    NewId(s);
    CallIsFree(s, i);
    EntInHeap(s, i);
    forall x | x in t.heap && x != n ensures Held(t.ents, i, x) == Held(s.ents, i, x) {
      AllocParts(s.ents[i], e, x);
    }
    AllocCell(s, t, i, e);
    SameDataKeep(s, t, i);
    PutInv(s, t, i, e, n, n);
  }

  lemma AllocCell(s: State, t: State, i: Id, e: Ent)
    requires Inv(s) && i in s.ents && i in t.ents && t.ents[i] == e && t.next == s.next + 1 && t.maxRef == s.maxRef
    requires s.next in t.heap && t.heap[s.next] == FreshCell(1, 1, Uninit)
    requires e.l == s.ents[i].l && RoleOf(e) == RoleOf(s.ents[i]) && Second(s.ents[i]) == None
    requires Second(e) == Some(s.next) && Builds(e)
    requires !Locks(e) && !Locks(s.ents[i]) && !IsAbort(e) && !IsAbort(s.ents[i])
    ensures CellAfter(s, t, i, s.next)
  {
    hide CellOk, Total, AtMost, Contrib, RoleOf, Second, EntOk, LedgerOk, Builds, Locks, IsAbort, Inv;
    NewId(s);
    FreshLoc(s, s.next);
    InvConfig(s);
    EntInHeap(s, i);
    AllocParts(s.ents[i], e, s.next);
    BuildNums(s.maxRef);
    AddToNothing(BUILD);
  }

  lemma AddToNothing(a: Nums)
    ensures Add(Sub(ZERO, ZERO), a) == a
  {
  }

  lemma EntInHeap(s: State, i: Id)
    requires Inv(s) && i in s.ents
    ensures s.ents[i].l in s.heap && i < s.next
  {
    hide LedgerOk;
    assert EntOk(s, i);
  }

  lemma AllocParts(was: Ent, e: Ent, x: Loc)
    requires e.l == was.l && RoleOf(e) == RoleOf(was) && Second(was) == None && Second(e).Some? && Builds(e)
    requires !Locks(e) && !Locks(was) && !IsAbort(e) && !IsAbort(was) && Second(e).value != e.l
    ensures x != Second(e).value ==> Contrib(e, x) == Contrib(was, x)
    ensures x == Second(e).value ==> Contrib(e, x) == BUILD && Contrib(was, x) == ZERO
  {
    hide Second, RoleOf, Builds, Locks;
  }

  lemma BuildNums(maxRef: nat)
    requires 0 < maxRef
    ensures CellOk(maxRef, FreshCell(1, 1, Uninit), BUILD)
  {
    BuildCell(maxRef, FreshCell(1, 1, Uninit), BUILD);
  }

  lemma BuildCell(maxRef: nat, c: Cell, n: Nums)
    requires 0 < maxRef && c.data.Uninit? && c == FreshCell(1, 1, c.data)
    requires n.st.build == 1 && n == ZERO.(st := ZERO.st.(build := n.st.build))
    ensures CellOk(maxRef, c, n)
  {
  }

  // ---------- &mut ----------

  lemma WriteNums(maxRef: nat, c: Cell, n: Nums, a: Nums, v: Value)
    requires CellOk(maxRef, c, n) && n.st.excl + n.so.sole > 0
    ensures CellOk(maxRef, c.(data := Live(v)), Add(Sub(n, a), a)) && c.data.Live?
  {
  }

  lemma WriteInv(s: State, i: Id, v: Value)
    requires Inv(s) && i in s.ents && s.ents[i].MutRef?
    ensures Inv(DoWrite(s, i, s.ents[i], v).s)
  {
    hide Inv, CellOk, Total, EntOk, Add, Sub;
    Touch(s, i);
    Facts(s, i);
    MutCopy(s, i);
    var l := s.ents[i].l;
    var c := s.heap[l];
    var e := s.ents[i].(v := v);
    var t := DoWrite(s, i, s.ents[i], v).s;
    WriteNums(s.maxRef, c, Total(s.ents, l), EXCL, v);
    MutRefOk(t, i, e);
    StepPut(s, t, i, e, c.(data := Live(v)));
  }

  lemma MutCopy(s: State, i: Id)
    requires Inv(s) && i in s.ents && s.ents[i].MutRef?
    ensures CopyOk(s.clones, s.ents[i].v0, s.ents[i].got)
  {
    hide LedgerOk;
    assert EntOk(s, i);
  }

  lemma ShareNums(maxRef: nat, c: Cell, n: Nums)
    requires CellOk(maxRef, c, n) && n.st.excl > 0
    ensures CellOk(maxRef, c, Add(Sub(n, EXCL), PLAIN))
  {
  }

  lemma EndMutInv(s: State, i: Id)
    requires Inv(s) && i in s.ents && s.ents[i].MutRef?
    ensures Inv(Put(s, i, Strong(s.ents[i].l)))
  {
    hide Inv, CellOk, Total, EntOk, Add, Sub;
    Facts(s, i);
    var l := s.ents[i].l;
    var c := s.heap[l];
    var t := Put(s, i, Strong(l));
    ShareNums(s.maxRef, c, Total(s.ents, l));
    SimpleOk(t, i, Strong(l));
    assert t.heap == s.heap[l := c];
    StepPut(s, t, i, Strong(l), c);
  }

  // ---------- make_mut ----------

  lemma RemembersOk(t: State, i: Id, e: Ent)
    requires i in t.ents && t.ents[i] == e && i < t.next
    requires e.MakeClone? || e.MakeWeakLoad? || e.MakeStore? || e.MakeSteal?
    requires Shows(t.heap, e.l, e.v0)
    ensures EntOk(t, i)
  {
  }

  lemma Remembering(s: State, i: Id)
    requires Inv(s) && i in s.ents && Remembered(s.ents[i]).Some?
    ensures Shows(s.heap, s.ents[i].l, Remembered(s.ents[i]).value)
  {
    hide LedgerOk, Remembered;
    assert EntOk(s, i);
  }

  lemma NoWeakNums(maxRef: nat, c: Cell, n: Nums)
    requires CellOk(maxRef, c, n) && n.so.sole > 0 && c.weak == 1
    ensures CellOk(maxRef, c, Add(Sub(n, SOLE), LONE))
  {
  }

  lemma MakeWeakLoadInv(s: State, i: Id)
    requires Inv(s) && i in s.ents && s.ents[i].MakeWeakLoad?
    ensures Inv(DoMakeWeakLoad(s, i, s.ents[i].l, s.ents[i].v0).s)
  {
    hide Inv, CellOk, Total, EntOk, Add, Sub;
    Touch(s, i);
    Facts(s, i);
    Remembering(s, i);
    var MakeWeakLoad(l, v0) := s.ents[i];
    var c := s.heap[l];
    var t := DoMakeWeakLoad(s, i, l, v0).s;
    var e := if c.weak != 1 then MakeSteal(l, v0) else MakeStore(l, v0);
    if c.weak == 1 {
      NoWeakNums(s.maxRef, c, Total(s.ents, l));
    } else {
      KeepNums(s.maxRef, c, Total(s.ents, l), SOLE);
    }
    RemembersOk(t, i, e);
    StepPut(s, t, i, e, c);
  }

  lemma BackNums(maxRef: nat, c: Cell, n: Nums)
    requires CellOk(maxRef, c, n) && n.so.lone > 0
    ensures CellOk(maxRef, c.(strong := 1), Add(Sub(n, LONE), EXCL))
  {
  }

  lemma MakeStoreInv(s: State, i: Id)
    requires Inv(s) && i in s.ents && s.ents[i].MakeStore?
    ensures Inv(DoMakeStore(s, i, s.ents[i].l, s.ents[i].v0).s)
  {
    hide Inv, CellOk, Total, EntOk, Add, Sub;
    Touch(s, i);
    Facts(s, i);
    Remembering(s, i);
    var MakeStore(l, v0) := s.ents[i];
    var c := s.heap[l];
    var t := DoMakeStore(s, i, l, v0).s;
    BackNums(s.maxRef, c, Total(s.ents, l));
    MutRefOk(t, i, MutRef(l, v0, v0, v0));
    StepPut(s, t, i, MutRef(l, v0, v0, v0), c.(strong := 1));
  }

  lemma BuilderOk(t: State, i: Id, e: Ent)
    requires i in t.ents && t.ents[i] == e && i < t.next && Builds(e)
    requires e.n in t.heap && e.n != e.l && Shows(t.heap, e.l, e.v0)
    ensures EntOk(t, i)
  {
  }

  lemma MakeStealInv(s: State, i: Id)
    requires Inv(s) && i in s.ents && s.ents[i].MakeSteal?
    ensures Inv(DoMakeSteal(s, i, s.ents[i].l, s.ents[i].v0).s)
  {
    hide Inv, EntOk;
    Facts(s, i);
    NewId(s);
    Remembering(s, i);
    var MakeSteal(l, v0) := s.ents[i];
    var t := DoMakeSteal(s, i, l, v0).s;
    BuilderOk(t, i, MakeMove(l, s.next, v0));
    StepAlloc(s, t, i, MakeMove(l, s.next, v0));
  }

  lemma MakeCloneInv(s: State, i: Id)
    requires Inv(s) && i in s.ents && s.ents[i].MakeClone?
    ensures Inv(DoMakeClone(s, i, s.ents[i].l, s.ents[i].v0).s)
  {
    hide Inv, EntOk;
    Facts(s, i);
    NewId(s);
    Remembering(s, i);
    var MakeClone(l, v0) := s.ents[i];
    var t := DoMakeClone(s, i, l, v0).s;
    BuilderOk(t, i, MakeCloneInit(l, s.next, v0));
    StepAlloc(s, t, i, MakeCloneInit(l, s.next, v0));
  }

  /** A call that is writing the first value of a new allocation. */
  lemma BuilderFacts(s: State, i: Id)
    requires Inv(s) && i in s.ents && Builds(s.ents[i])
    ensures s.ents[i].n in s.heap && s.ents[i].n != s.ents[i].l && s.ents[i].n < s.next
    ensures CellOk(s.maxRef, s.heap[s.ents[i].n], Total(s.ents, s.ents[i].n))
    ensures Contrib(s.ents[i], s.ents[i].n) == BUILD && Total(s.ents, s.ents[i].n).st.build > 0
  {
    hide CellOk, Total;
    assert EntOk(s, i);
    var n := s.ents[i].n;
    LedgerAt(s, n);
    TotalHas(s.ents, i, n);
  }

  lemma BuiltNums(maxRef: nat, c: Cell, n: Nums, v: Value)
    requires CellOk(maxRef, c, n) && n.st.build > 0
    ensures !c.freed
    ensures CellOk(maxRef, c.(data := Live(v)), Add(Sub(n, BUILD), EXCL))
  {
  }

  lemma DropOldOk(t: State, i: Id, e: Ent)
    requires i in t.ents && t.ents[i] == e && i < t.next && e.MakeDropOld?
    requires e.n != e.l && Shows(t.heap, e.l, e.v0) && Shows(t.heap, e.n, e.got) && CopyOk(t.clones, e.v0, e.got)
    ensures EntOk(t, i)
  {
  }

  lemma MakeCloneInitInv(s: State, i: Id, copy: Value)
    requires Inv(s) && i in s.ents && s.ents[i].MakeCloneInit?
    ensures Inv(DoMakeCloneInit(s, i, s.ents[i].l, s.ents[i].n, s.ents[i].v0, copy).s)
  {
    hide Inv, CellOk, Total, EntOk, Add, Sub, Free, OthersKeep;
    Touch(s, i);
    Facts(s, i);
    Remembering(s, i);
    BuilderFacts(s, i);
    CallIsFree(s, i);
    var MakeCloneInit(l, n, v0) := s.ents[i];
    var e := MakeDropOld(l, n, v0, copy);
    var t := DoMakeCloneInit(s, i, l, n, v0, copy).s;
    BuiltNums(s.maxRef, s.heap[n], Total(s.ents, n), copy);
    assert t.heap == s.heap[n := s.heap[n].(data := Live(copy))];
    DropOldOk(t, i, e);
    OwnerKeeps(s, t, i, n, n);
    BuiltParts(s.ents[i], e, n);
    forall x | x in t.heap && x != n ensures Held(t.ents, i, x) == Held(s.ents, i, x) {
      BuiltParts(s.ents[i], e, x);
    }
    hide Contrib, RoleOf, Second;
    PutInv(s, t, i, e, n, n);
  }

  lemma BuiltParts(was: Ent, e: Ent, x: Loc)
    requires was.MakeCloneInit? && e.MakeDropOld? && e.l == was.l && e.n == was.n && was.n != was.l
    ensures x != was.n ==> Contrib(e, x) == Contrib(was, x)
    ensures x == was.n ==> Contrib(e, x) == EXCL
  {
  }

  lemma ContOk(t: State, i: Id, e: Ent)
    requires i in t.ents && t.ents[i] == e && i < t.next && e.l in t.heap
    requires e.Destroy? || e.ReleaseWeak? || e.Dealloc?
    requires e.k.ThenMut? ==> e.k.n != e.l && Shows(t.heap, e.k.n, e.k.got) && CopyOk(t.clones, e.k.v0, e.k.got)
    ensures EntOk(t, i)
  {
  }

  lemma DropOldFacts(s: State, i: Id)
    requires Inv(s) && i in s.ents && s.ents[i].MakeDropOld?
    ensures var e := s.ents[i];
            && e.n in s.heap && e.n != e.l && Shows(s.heap, e.n, e.got) && CopyOk(s.clones, e.v0, e.got)
            && Contrib(e, e.l) == PLAIN
            && (Total(s.ents, e.l).fl.lock > 0 ==> StrongRefs(Total(s.ents, e.l)) > 1)
  {
    hide Total, LedgerOk, Contrib;
    assert EntOk(s, i);
    StrongPlain(s.ents[i]);
    hide EntOk, Inv;
    CallIsFree(s, i);
    if Total(s.ents, s.ents[i].l).fl.lock > 0 {
      LockNeedsAnother(s, i, s.ents[i].l);
    }
  }

  lemma MakeDropOldInv(s: State, i: Id)
    requires Inv(s) && i in s.ents && s.ents[i].MakeDropOld?
    ensures Inv(DoMakeDropOld(s, i, s.ents[i].l, s.ents[i].n, s.ents[i].v0, s.ents[i].got).s)
  {
    hide Inv, CellOk, Total, EntOk, Add, Sub, Free;
    Touch(s, i);
    Facts(s, i);
    DropOldFacts(s, i);
    var MakeDropOld(l, n, v0, got) := s.ents[i];
    var c := s.heap[l];
    var t := DoMakeDropOld(s, i, l, n, v0, got).s;
    LastStrongNums(s.maxRef, c, Total(s.ents, l));
    hide Contrib;
    if c.strong != 1 {
      StepToMut(s, t, i, n, v0, got, c.(strong := c.strong - 1));
    } else {
      var e := Destroy(l, ThenMut(n, v0, got));
      CallIsFree(s, i);
      ContOk(t, i, e);
      SoleCont(e);
      StepPut(s, t, i, e, c.(strong := 0));
    }
  }

  lemma SoleCont(e: Ent)
    requires Second(e) != Some(e.l)
    ensures e.Destroy? ==> Contrib(e, e.l) == SOLE
    ensures e.ReleaseWeak? ==> Contrib(e, e.l) == REL
    ensures e.Dealloc? ==> Contrib(e, e.l) == DEALLOC
  {
    hide Second;
  }

  lemma EmptiedNums(maxRef: nat, c: Cell, c': Cell, n: Nums)
    requires CellOk(maxRef, c, n) && n.so.sole > 0
    requires c' == c.(data := Gone, drops := c'.drops, handed := c'.handed, steals := c'.steals)
    requires c'.drops + c'.handed + c'.steals == c.drops + c.handed + c.steals + 1
    ensures CellOk(maxRef, c', Add(Sub(n, SOLE), REL)) && c.data.Live?
  {
  }

  lemma MoveBytes(s: State, t: State, i: Id, l: Loc, n: Loc, v0: Value)
    requires Inv(s) && SameConfig(s, t) && !t.ub
    requires i in s.ents && s.ents[i] == MakeMove(l, n, v0) && n != l
    requires t.ents == s.ents[i := ReleaseWeak(l, ThenMut(n, v0, v0))]
    requires l in s.heap && n in s.heap && t.heap.Keys == s.heap.Keys && Shows(t.heap, n, v0)
    requires forall x | x in s.heap && x != l && x != n :: t.heap[x] == s.heap[x]
    requires CellAfter(s, t, i, l) && CellAfter(s, t, i, n)
    ensures Inv(t)
  {
    hide Inv, CellOk, Total, EntOk, Add, Sub, Free, OthersKeep, Contrib, RoleOf, Second, CellAfter, Elsewhere, Aborting,
      Owners, Shows, CopyOk;
    var e := ReleaseWeak(l, ThenMut(n, v0, v0));
    CallIsFree(s, i);
    MovedEnt(s, t, i, l, n, v0);
    MovedElsewhere(s, t, i, l, n, v0);
    MovedParts(s.ents[i], e, n);
    MovedParts(s.ents[i], e, l);
    MoverOwns(s, i, n);
    MoverOwns(s, i, l);
    OwnerKeeps(s, t, i, l, n);
    PutInv(s, t, i, e, l, n);
  }

  lemma MoverOwns(s: State, i: Id, x: Loc)
    requires i in s.ents && s.ents[i].MakeMove? && (x == s.ents[i].n || x == s.ents[i].l)
    requires s.ents[i].n != s.ents[i].l
    ensures Owners(Held(s.ents, i, x)) > 0
  {
    hide Contrib;
    MovedParts(s.ents[i], ReleaseWeak(s.ents[i].l, ThenMut(s.ents[i].n, s.ents[i].v0, s.ents[i].v0)), x);
  }

  lemma MovedEnt(s: State, t: State, i: Id, l: Loc, n: Loc, v0: Value)
    requires Inv(s) && SameConfig(s, t) && i in s.ents && n != l && l in t.heap && Shows(t.heap, n, v0)
    requires i in t.ents && t.ents[i] == ReleaseWeak(l, ThenMut(n, v0, v0))
    ensures EntOk(t, i)
  {
    hide Inv, EntOk, Shows;
    EntInHeap(s, i);
    ContOk(t, i, t.ents[i]);
  }

  lemma MovedElsewhere(s: State, t: State, i: Id, l: Loc, n: Loc, v0: Value)
    requires i in s.ents && s.ents[i] == MakeMove(l, n, v0) && n != l
    requires i in t.ents && t.ents[i] == ReleaseWeak(l, ThenMut(n, v0, v0))
    requires t.heap.Keys == s.heap.Keys && forall x | x in s.heap && x != l && x != n :: t.heap[x] == s.heap[x]
    ensures Elsewhere(s, t, i, l, n)
  {
    hide Contrib;
    forall x | x in t.heap && x != l && x != n ensures Held(t.ents, i, x) == Held(s.ents, i, x) {
      MovedParts(s.ents[i], t.ents[i], x);
    }
  }

  lemma MoveCells(s: State, t: State, i: Id, l: Loc, n: Loc, v0: Value)
    requires Inv(s) && i in s.ents && s.ents[i] == MakeMove(l, n, v0) && l in s.heap && n in s.heap && n != l
    requires SameConfig(s, t) && i in t.ents && t.ents[i] == ReleaseWeak(l, ThenMut(n, v0, v0))
    requires t.heap == s.heap[l := s.heap[l].(data := Gone, steals := s.heap[l].steals + 1)]
                             [n := s.heap[n].(data := Live(v0))]
    ensures CellAfter(s, t, i, l) && CellAfter(s, t, i, n)
    ensures s.heap[l].data.Live? && !s.heap[l].freed && !s.heap[n].freed
  {
    hide Inv, CellOk, Total, EntOk, Add, Sub, Contrib, RoleOf, Second;
    MovedParts(s.ents[i], t.ents[i], n);
    MovedParts(s.ents[i], t.ents[i], l);
    Facts(s, i);
    BuilderFacts(s, i);
    var c := s.heap[l].(data := Gone, steals := s.heap[l].steals + 1);
    BuiltNums(s.maxRef, s.heap[n], Total(s.ents, n), v0);
    EmptiedNums(s.maxRef, s.heap[l], c, Total(s.ents, l));
    HolderNotFreed(s.maxRef, s.heap[l], Total(s.ents, l), SOLE);
  }

  lemma MakeMoveInv(s: State, i: Id)
    requires Inv(s) && i in s.ents && s.ents[i].MakeMove?
    ensures Inv(DoMakeMove(s, i, s.ents[i].l, s.ents[i].n, s.ents[i].v0).s)
  {
    hide Inv, CellOk, Total, EntOk, Add, Sub, Contrib, RoleOf, Second, CellAfter;
    Facts(s, i);
    Remembering(s, i);
    BuilderFacts(s, i);
    InvConfig(s);
    var MakeMove(l, n, v0) := s.ents[i];
    var t := DoMakeMove(s, i, l, n, v0).s;
    MoveCells(s, t, i, l, n, v0);
    MoveBytes(s, t, i, l, n, v0);
  }

  lemma MovedParts(was: Ent, e: Ent, x: Loc)
    requires was.MakeMove? && e == ReleaseWeak(was.l, ThenMut(was.n, was.v0, was.v0)) && was.n != was.l
    ensures x != was.n && x != was.l ==> Contrib(e, x) == Contrib(was, x)
    ensures x == was.n ==> Contrib(e, x) == EXCL && Contrib(was, x) == BUILD
    ensures x == was.l ==> Contrib(e, x) == REL && Contrib(was, x) == SOLE
  {
  }

  // ---------- taking the value and the memory away ----------

  /** What a call with a continuation knows. */
  lemma ContFacts(s: State, i: Id)
    requires Inv(s) && i in s.ents && (s.ents[i].Destroy? || s.ents[i].ReleaseWeak? || s.ents[i].Dealloc?)
    ensures var e := s.ents[i]; Second(e) != Some(e.l) && (e.k.ThenMut? ==>
              e.k.n != e.l && Shows(s.heap, e.k.n, e.k.got) && CopyOk(s.clones, e.k.v0, e.k.got))
  {
    hide LedgerOk;
    assert EntOk(s, i);
  }

  lemma HasSole(n: Nums)
    requires AtMost(SOLE, n)
    ensures n.so.sole > 0 && Owners(SOLE) > 0
  {
  }

  lemma EndState(s: State, i: Id, l: Loc, c: Cell, e: Ent)
    requires l in s.heap && !s.heap[l].freed && s.heap[l].data.Live? && i < s.next && !s.ub
    ensures Put(DataAccess(s, l, c), i, e) == s.(heap := s.heap[l := c], ents := s.ents[i := e])
  {
  }

  /** A holder that has the value to itself takes it away, and goes on to release the implicit weak. */
  lemma EmptiedInv(s: State, i: Id, l: Loc, k: Cont, c: Cell)
    requires Inv(s) && i in s.ents && s.ents[i].l == l && RoleOf(s.ents[i]) != Nothing && Free(s, i)
    requires Contrib(s.ents[i], l) == SOLE && SameSecond(s.ents, i, ReleaseWeak(l, k))
    requires k.ThenMut? ==> k.n != l && Shows(s.heap, k.n, k.got) && CopyOk(s.clones, k.v0, k.got)
    requires l in s.heap
    requires c == s.heap[l].(data := Gone, drops := c.drops, handed := c.handed, steals := c.steals)
    requires c.drops + c.handed + c.steals == s.heap[l].drops + s.heap[l].handed + s.heap[l].steals + 1
    ensures Inv(Put(DataAccess(s, l, c), i, ReleaseWeak(l, k)))
  {
    hide Inv, CellOk, Total, EntOk, Add, Sub, Free, AtMost, SameSecond, CopyOk, Contrib, RoleOf, Put, DataAccess,
      Owners;
    var e := ReleaseWeak(l, k);
    Touch(s, i);
    Facts(s, i);
    HasSole(Total(s.ents, l));
    EmptiedNums(s.maxRef, s.heap[l], c, Total(s.ents, l));
    EndState(s, i, l, c, e);
    var t := s.(heap := s.heap[l := c], ents := s.ents[i := e]);
    ContOk(t, i, e);
    SoleCont(e);
    StepPut(s, t, i, e, c);
  }

  lemma DestroyInv(s: State, i: Id)
    requires Inv(s) && i in s.ents && s.ents[i].Destroy?
    ensures Inv(DoDestroy(s, i, s.ents[i].l, s.ents[i].k).s)
  {
    hide Inv, Free, Put, DataAccess, Contrib, Shows, CopyOk;
    ContFacts(s, i);
    CallIsFree(s, i);
    EntInHeap(s, i);
    SoleCont(s.ents[i]);
    var Destroy(l, k) := s.ents[i];
    AtIs(s, l);
    EmptiedInv(s, i, l, k, s.heap[l].(data := Gone, drops := s.heap[l].drops + 1));
  }

  lemma AtIs(s: State, l: Loc)
    requires l in s.heap
    ensures At(s, l) == s.heap[l]
  {
  }

  lemma DropUniqueInv(s: State, h: Id)
    requires Inv(s) && h in s.ents && s.ents[h].Unique?
    ensures Inv(DoDestroy(s, h, s.ents[h].l, Done).s)
  {
    hide Inv, Put, DataAccess, At;
    EntInHeap(s, h);
    var l := s.ents[h].l;
    AtIs(s, l);
    EmptiedInv(s, h, l, Done, s.heap[l].(data := Gone, drops := s.heap[l].drops + 1));
  }

  lemma MoveOutInv(s: State, i: Id)
    requires Inv(s) && i in s.ents && s.ents[i].MoveOut?
    ensures Inv(DoMoveOut(s, i, s.ents[i].l).s)
  {
    hide Inv, Put, DataAccess, At;
    CallIsFree(s, i);
    EntInHeap(s, i);
    var l := s.ents[i].l;
    AtIs(s, l);
    EmptiedInv(s, i, l, Return(Peek(s.heap[l].data)), s.heap[l].(data := Gone, handed := s.heap[l].handed + 1));
  }

  lemma ReleasedNums(maxRef: nat, c: Cell, n: Nums, a: Nums)
    requires CellOk(maxRef, c, n) && (a == REL || a == EXPL) && AtMost(a, n)
    ensures c.weak > 0 && !c.freed
    ensures c.weak != 1 ==> CellOk(maxRef, c.(weak := c.weak - 1), Add(Sub(n, a), ZERO))
  {
  }

  lemma LastReleasedNums(maxRef: nat, c: Cell, n: Nums, a: Nums)
    requires CellOk(maxRef, c, n) && (a == REL || a == EXPL) && AtMost(a, n)
    requires c.weak == 1
    ensures CellOk(maxRef, c.(weak := 0), Add(Sub(n, a), DEALLOC))
  {
  }

  lemma FinishInv(s: State, i: Id, c: Cell)
    requires Inv(s) && i in s.ents && (s.ents[i].ReleaseWeak? || s.ents[i].Dealloc?)
    requires s.ents[i].l in s.heap && c.data == s.heap[s.ents[i].l].data && !s.heap[s.ents[i].l].freed
    requires CellOk(s.maxRef, c, Add(Sub(Total(s.ents, s.ents[i].l), Contrib(s.ents[i], s.ents[i].l)), ZERO))
    ensures Inv(Finish(Access(s, s.ents[i].l, c), i, s.ents[i].k).s)
  {
    hide Inv, CellOk, Total, EntOk, Add, Sub, Free, Contrib;
    ContFacts(s, i);
    CallIsFree(s, i);
    InvConfig(s);
    EntInHeap(s, i);
    var t := Finish(Access(s, s.ents[i].l, c), i, s.ents[i].k).s;
    match s.ents[i].k
    case ThenMut(n, v0, got) => StepToMut(s, t, i, n, v0, got, c);
    case Done => StepDel(s, t, i, c);
    case Return(_) => StepDel(s, t, i, c);
  }

  lemma ReleaseWeakInv(s: State, i: Id)
    requires Inv(s) && i in s.ents && s.ents[i].ReleaseWeak?
    ensures Inv(DoReleaseWeak(s, i, s.ents[i].l, s.ents[i].k).s)
  {
    hide Inv, CellOk, Total, EntOk, Add, Sub, Free, Finish;
    Facts(s, i);
    ContFacts(s, i);
    CallIsFree(s, i);
    var ReleaseWeak(l, k) := s.ents[i];
    var c := s.heap[l];
    SoleCont(s.ents[i]);
    hide Contrib;
    ReleasedNums(s.maxRef, c, Total(s.ents, l), REL);
    if c.weak == 1 {
      LastReleasedNums(s.maxRef, c, Total(s.ents, l), REL);
      var t := DoReleaseWeak(s, i, l, k).s;
      ContOk(t, i, Dealloc(l, k));
      SoleCont(Dealloc(l, k));
      StepPut(s, t, i, Dealloc(l, k), c.(weak := 0));
    } else {
      FinishInv(s, i, c.(weak := c.weak - 1));
    }
  }

  lemma DropWeakInv(s: State, h: Id)
    requires Inv(s) && h in s.ents && s.ents[h].Weak? && Unborrowed(s, h)
    ensures Inv(DoDropWeak(s, h, s.ents[h].l).s)
  {
    hide Inv, CellOk, Total, EntOk, Add, Sub, Unborrowed;
    Facts(s, h);
    var l := s.ents[h].l;
    var c := s.heap[l];
    var t := DoDropWeak(s, h, l).s;
    ReleasedNums(s.maxRef, c, Total(s.ents, l), EXPL);
    if c.weak == 1 {
      LastReleasedNums(s.maxRef, c, Total(s.ents, l), EXPL);
      ContOk(t, h, Dealloc(l, Done));
      SoleCont(Dealloc(l, Done));
      StepPut(s, t, h, Dealloc(l, Done), c.(weak := 0));
    } else {
      StepDel(s, t, h, c.(weak := c.weak - 1));
    }
  }

  lemma FreedNums(maxRef: nat, c: Cell, n: Nums)
    requires CellOk(maxRef, c, n) && n.we.dealloc > 0
    ensures !c.freed
    ensures CellOk(maxRef, c.(freed := true, frees := c.frees + 1), Add(Sub(n, DEALLOC), ZERO))
  {
  }

  lemma DeallocInv(s: State, i: Id)
    requires Inv(s) && i in s.ents && s.ents[i].Dealloc?
    ensures Inv(DoDealloc(s, i, s.ents[i].l, s.ents[i].k).s)
  {
    hide Inv, CellOk, Total, EntOk, Add, Sub, Finish;
    Facts(s, i);
    ContFacts(s, i);
    var Dealloc(l, k) := s.ents[i];
    var c := s.heap[l];
    SoleCont(s.ents[i]);
    FreedNums(s.maxRef, c, Total(s.ents, l));
    FinishInv(s, i, c.(freed := true, frees := c.frees + 1));
  }
}
