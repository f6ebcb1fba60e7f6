/** The steps of `downgrade`, `upgrade`, `is_unique`, `get_mut` and the counts keep the invariant. */
module ArcLockSteps {
  import opened ArcMachine
  import opened ArcLedger
  import opened ArcInvariant
  import opened ArcCounting
  import opened ArcSteps

  predicate IsShared(e: Ent) {
    e.DowngradeLoop? || e.UpgradeLoop? || e.UniqueLoad? || e.UniqueStore? || e.WeakCountLoad?
  }

  lemma SharedOk(t: State, i: Id, e: Ent)
    requires i in t.ents && t.ents[i] == e && i < t.next && e.l in t.heap && IsShared(e)
    requires e.h in t.ents && t.ents[e.h].l == e.l
    requires if e.UpgradeLoop? || e.WeakCountLoad? then IsWeakRef(t.ents[e.h]) else t.ents[e.h].Strong?
    requires e.WeakCountLoad? ==> CountKnown(t.heap, e)
    ensures EntOk(t, i)
  {
  }

  /** What a shared call knows: its handle is there and keeps the allocation alive. */
  lemma SharedFacts(s: State, i: Id)
    requires Inv(s) && i in s.ents && IsShared(s.ents[i])
    ensures var e := s.ents[i];
            && e.h != i && e.h in s.ents && s.ents[e.h].l == e.l
            && (if e.UpgradeLoop? || e.WeakCountLoad? then IsWeakRef(s.ents[e.h]) else s.ents[e.h].Strong?)
            && e.l in s.heap && !s.heap[e.l].freed && Access(s, e.l, s.heap[e.l]) == s && i < s.next
  {
    hide LedgerOk, Access;
    assert EntOk(s, i);
    hide Inv, EntOk;
    Touch(s, s.ents[i].h);
  }

  lemma WeakRefHolds(s: State, h: Id)
    requires Inv(s) && h in s.ents && IsWeakRef(s.ents[h])
    ensures var n := Total(s.ents, s.ents[h].l); n.we.expl + n.so.seed > 0
  {
    hide Inv, Total, CellOk;
    Facts(s, h);
  }

  lemma StrongHolds(s: State, h: Id)
    requires Inv(s) && h in s.ents && s.ents[h].Strong?
    ensures Total(s.ents, s.ents[h].l).st.plain > 0
  {
    hide Inv, Total, CellOk;
    Facts(s, h);
  }

  /** A call that only starts, or moves on without changing its cell or its holdings. */
  lemma StepQuiet(s: State, t: State, i: Id, e: Ent)
    requires Inv(s) && i <= s.next && (i in s.ents <==> i != s.next)
    requires t == Put(s, i, e) && e.l in s.heap && IsShared(e) && !Locks(e)
    requires i in s.ents ==> IsShared(s.ents[i]) && !Locks(s.ents[i]) && s.ents[i].l == e.l
    requires e.h in s.ents && s.ents[e.h].l == e.l && e.h != i
    requires if e.UpgradeLoop? || e.WeakCountLoad? then IsWeakRef(s.ents[e.h]) else s.ents[e.h].Strong?
    requires e.WeakCountLoad? ==> CountKnown(s.heap, e)
    ensures Inv(t)
  {
    hide Inv, CellOk, Total, Add, Sub, EntOk, Free;
    var l := e.l;
    InvConfig(s);
    LedgerAt(s, l);
    SharedOk(t, i, e);
    if i in s.ents { assert Free(s, i) by { CallIsFree(s, i); } } else { NewId(s); }
    KeepNums(s.maxRef, s.heap[l], Total(s.ents, l), ZERO);
    assert t.heap == s.heap[l := s.heap[l]];
    StepPut(s, t, i, e, s.heap[l]);
  }

  lemma LedgerAt(s: State, l: Loc)
    requires Inv(s) && l in s.heap
    ensures CellOk(s.maxRef, s.heap[l], Total(s.ents, l)) && l < s.next
  {
    hide CellOk, Total, EntOk;
    assert LedgerOk(s, l);
  }

  lemma CallIsFree(s: State, i: Id)
    requires i in s.ents && IsCall(s.ents[i])
    ensures Free(s, i)
  {
  }

  lemma DelQuiet(s: State, i: Id)
    requires Inv(s) && i in s.ents && IsShared(s.ents[i]) && !Locks(s.ents[i])
    ensures Inv(Del(s, i))
  {
    hide Inv, CellOk, Total, Add, Sub, EntOk, Free;
    SharedFacts(s, i);
    CallIsFree(s, i);
    InvConfig(s);
    var l := s.ents[i].l;
    LedgerAt(s, l);
    KeepNums(s.maxRef, s.heap[l], Total(s.ents, l), ZERO);
    assert s.heap == s.heap[l := s.heap[l]];
    StepDel(s, Del(s, i), i, s.heap[l]);
  }

  // ---------- downgrade and upgrade ----------

  lemma DowngradeInv(s: State, h: Id)
    requires Inv(s) && Enabled(s, Downgrade(h))
    ensures Inv(DoDowngrade(s, h, s.ents[h].l).s)
  {
    hide Inv, CellOk, Total;
    Touch(s, h);
    NewId(s);
    var l := s.ents[h].l;
    StepQuiet(s, DoDowngrade(s, h, l).s, s.next, DowngradeLoop(h, l, s.heap[l].weak));
  }

  lemma UpgradeInv(s: State, h: Id)
    requires Inv(s) && Enabled(s, Upgrade(h))
    ensures Inv(DoUpgrade(s, h, s.ents[h].l).s)
  {
    hide Inv, CellOk, Total;
    Touch(s, h);
    NewId(s);
    var l := s.ents[h].l;
    StepQuiet(s, DoUpgrade(s, h, l).s, s.next, UpgradeLoop(h, l, s.heap[l].strong));
  }

  lemma AddWeakNums(maxRef: nat, c: Cell, n: Nums)
    requires CellOk(maxRef, c, n) && n.st.plain > 0 && c.weak <= maxRef
    ensures CellOk(maxRef, c.(weak := c.weak + 1), Add(Sub(n, ZERO), EXPL))
  {
  }

  lemma DowngradeLoopInv(s: State, i: Id, spurious: bool)
    requires Inv(s) && i in s.ents && s.ents[i].DowngradeLoop?
    ensures Inv(DoDowngradeLoop(s, i, s.ents[i].h, s.ents[i].l, s.ents[i].cur, spurious).s)
  {
    hide Inv, CellOk, Total, Add, Sub, EntOk, Free;
    SharedFacts(s, i);
    var DowngradeLoop(h, l, cur) := s.ents[i];
    var c := s.heap[l];
    var t := DoDowngradeLoop(s, i, h, l, cur, spurious).s;
    if cur != Max(s) && cur > s.maxRef {
      DelQuiet(s, i);
    } else if cur != Max(s) && c.weak == cur && !spurious {
      StrongHolds(s, h);
      LedgerAt(s, l);
      AddWeakNums(s.maxRef, c, Total(s.ents, l));
      CallIsFree(s, i);
      InvConfig(s);
      SimpleOk(t, i, Weak(l));
      StepPut(s, t, i, Weak(l), c.(weak := cur + 1));
    } else {
      StepQuiet(s, t, i, DowngradeLoop(h, l, c.weak));
    }
  }

  lemma AddStrongNums(maxRef: nat, c: Cell, n: Nums)
    requires CellOk(maxRef, c, n) && n.we.expl + n.so.seed > 0 && 0 < c.strong <= maxRef
    ensures CellOk(maxRef, c.(strong := c.strong + 1), Add(Sub(n, ZERO), PLAIN))
  {
  }

  lemma UpgradeLoopInv(s: State, i: Id, spurious: bool)
    requires Inv(s) && i in s.ents && s.ents[i].UpgradeLoop?
    ensures Inv(DoUpgradeLoop(s, i, s.ents[i].h, s.ents[i].l, s.ents[i].cur, spurious).s)
  {
    hide Inv, CellOk, Total, Add, Sub, EntOk, Free;
    SharedFacts(s, i);
    var UpgradeLoop(h, l, cur) := s.ents[i];
    var c := s.heap[l];
    var t := DoUpgradeLoop(s, i, h, l, cur, spurious).s;
    if cur == 0 || cur > s.maxRef {
      DelQuiet(s, i);
    } else if c.strong == cur && !spurious {
      WeakRefHolds(s, h);
      LedgerAt(s, l);
      AddStrongNums(s.maxRef, c, Total(s.ents, l));
      CallIsFree(s, i);
      InvConfig(s);
      SimpleOk(t, i, Strong(l));
      StepPut(s, t, i, Strong(l), c.(strong := cur + 1));
    } else {
      StepQuiet(s, t, i, UpgradeLoop(h, l, c.strong));
    }
  }

  // ---------- the lock in `weak` ----------

  lemma TakeLockNums(maxRef: nat, c: Cell, n: Nums, a: Nums)
    requires CellOk(maxRef, c, n) && 0 < maxRef && n.st.plain > 0 && c.weak == 1
    ensures n.fl.lock == 0 && n.we.expl == 0
    ensures CellOk(maxRef, c.(weak := 2 * maxRef + 1), Add(Sub(n, a), a.(fl := a.fl.(lock := a.fl.lock + 1))))
  {
  }

  lemma DropLockNums(maxRef: nat, c: Cell, n: Nums, a: Nums)
    requires CellOk(maxRef, c, n) && n.fl.lock > 0
    ensures CellOk(maxRef, c.(weak := 1), Add(Sub(n, a), a.(fl := a.fl.(lock := a.fl.lock - 1))))
  {
  }

  lemma MaxIs(s: State)
    ensures Max(s) == 2 * s.maxRef + 1
  {
  }

  lemma LockShared(s: State, h: Id, l: Loc, c: Cell, t: State)
    requires Inv(s) && h in s.ents && s.ents[h] == Strong(l)
    requires l in s.heap && c == s.heap[l] && c.weak == 1 && !c.freed
    requires t == Put(Access(s, l, c.(weak := Max(s))), s.next, UniqueLoad(h, l))
    ensures Inv(t)
  {
    hide Inv, CellOk, Total, EntOk, Free, Add, Sub, Max;
    Facts(s, h);
    NewId(s);
    MaxIs(s);
    TakeLockNums(s.maxRef, c, Total(s.ents, l), ZERO);
    SharedOk(t, s.next, UniqueLoad(h, l));
    StepPut(s, t, s.next, UniqueLoad(h, l), c.(weak := Max(s)));
  }

  lemma IsUniqueInv(s: State, h: Id)
    requires Inv(s) && Enabled(s, IsUnique(h))
    ensures Inv(DoIsUnique(s, h, s.ents[h].l).s)
  {
    hide Inv, CellOk, Total, EntOk, Free, Max, Put;
    Touch(s, h);
    var l := s.ents[h].l;
    if s.heap[l].weak == 1 {
      LockShared(s, h, l, s.heap[l], DoIsUnique(s, h, l).s);
    }
  }

  lemma UniqueLoadInv(s: State, i: Id)
    requires Inv(s) && i in s.ents && s.ents[i].UniqueLoad?
    ensures Inv(DoUniqueLoad(s, i, s.ents[i].h, s.ents[i].l).s)
  {
    hide Inv, CellOk, Total, EntOk, Free, Add, Sub;
    SharedFacts(s, i);
    var UniqueLoad(h, l) := s.ents[i];
    var c := s.heap[l];
    var t := DoUniqueLoad(s, i, h, l).s;
    LedgerAt(s, l);
    InvConfig(s);
    CallIsFree(s, i);
    KeepNums(s.maxRef, c, Total(s.ents, l), LOCK);
    SharedOk(t, i, UniqueStore(h, l, c.strong == 1));
    StepPut(s, t, i, UniqueStore(h, l, c.strong == 1), c);
  }

  lemma UniqueStoreInv(s: State, i: Id)
    requires Inv(s) && i in s.ents && s.ents[i].UniqueStore?
    ensures Inv(DoUniqueStore(s, i, s.ents[i].l, s.ents[i].unique).s)
  {
    hide Inv, CellOk, Total, EntOk, Free, Add, Sub;
    SharedFacts(s, i);
    Facts(s, i);
    var l := s.ents[i].l;
    var c := s.heap[l];
    CallIsFree(s, i);
    DropLockNums(s.maxRef, c, Total(s.ents, l), LOCK);
    StepDel(s, DoUniqueStore(s, i, l, s.ents[i].unique).s, i, c.(weak := 1));
  }

  lemma LockExclusive(s: State, h: Id, l: Loc, c: Cell, t: State)
    requires Inv(s) && h in s.ents && s.ents[h] == Strong(l) && Unborrowed(s, h)
    requires l in s.heap && c == s.heap[l] && c.weak == 1 && !c.freed
    requires t == Put(Access(s, l, c.(weak := Max(s))), h, GetMutLoad(l))
    ensures Inv(t)
  {
    hide Inv, CellOk, Total, EntOk, Free, Unborrowed, Add, Sub, Max;
    Facts(s, h);
    FreeStrong(s, h);
    MaxIs(s);
    TakeLockNums(s.maxRef, c, Total(s.ents, l), PLAIN);
    SimpleOk(t, h, GetMutLoad(l));
    StepPut(s, t, h, GetMutLoad(l), c.(weak := Max(s)));
  }

  lemma GetMutInv(s: State, h: Id)
    requires Inv(s) && Enabled(s, GetMut(h))
    ensures Inv(DoGetMut(s, h, s.ents[h].l).s)
  {
    hide Inv, CellOk, Total, EntOk, Free, Unborrowed, Max, Put;
    Touch(s, h);
    var l := s.ents[h].l;
    if s.heap[l].weak == 1 {
      LockExclusive(s, h, l, s.heap[l], DoGetMut(s, h, l).s);
    }
  }

  /** Under the lock, one strong reference means that there is no other reference of either kind. */
  lemma AloneNums(maxRef: nat, c: Cell, n: Nums)
    requires CellOk(maxRef, c, n) && n.st.plain > 0 && n.fl.lock > 0
    ensures c.strong == 1 ==>
              CellOk(maxRef, c, Add(Sub(n, PLAIN.(fl := PLAIN.fl.(lock := 1))), EXCL.(fl := EXCL.fl.(lock := 1))))
  {
  }

  lemma GetMutLoadInv(s: State, i: Id)
    requires Inv(s) && i in s.ents && s.ents[i].GetMutLoad?
    ensures Inv(DoGetMutLoad(s, i, s.ents[i].l).s)
  {
    hide Inv, CellOk, Total, EntOk, Free, Add, Sub;
    Touch(s, i);
    Facts(s, i);
    var l := s.ents[i].l;
    var c := s.heap[l];
    var n := Total(s.ents, l);
    var t := DoGetMutLoad(s, i, l).s;
    var e := GetMutStore(l, c.strong == 1);
    CallIsFree(s, i);
    SimpleOk(t, i, e);
    if c.strong == 1 {
      AloneNums(s.maxRef, c, n);
    } else {
      KeepNums(s.maxRef, c, n, PLAIN.(fl := PLAIN.fl.(lock := 1)));
    }
    StepPut(s, t, i, e, c);
  }

  lemma ExclIsLive(maxRef: nat, c: Cell, n: Nums)
    requires CellOk(maxRef, c, n) && n.st.plain + n.st.excl + n.so.sole + n.so.lone > 0
    ensures c.data.Live?
  {
  }

  lemma MutRefOk(t: State, i: Id, e: Ent)
    requires i in t.ents && t.ents[i] == e && i < t.next && e.MutRef?
    requires Shows(t.heap, e.l, e.v) && CopyOk(t.clones, e.v0, e.got)
    ensures EntOk(t, i)
  {
  }

  lemma UnlockExclusive(s: State, i: Id, l: Loc, c: Cell, e: Ent, t: State)
    requires Inv(s) && i in s.ents && s.ents[i] == GetMutStore(l, e.MutRef?)
    requires l in s.heap && c == s.heap[l] && !c.freed
    requires e == Strong(l) || (e.MutRef? && e == MutRef(l, Peek(c.data), Peek(c.data), Peek(c.data)))
    requires t == Put(Access(s, l, c.(weak := 1)), i, e)
    ensures Inv(t)
  {
    hide Inv, CellOk, Total, EntOk, Free, Add, Sub;
    Facts(s, i);
    CallIsFree(s, i);
    var a := Contrib(s.ents[i], l);
    DropLockNums(s.maxRef, c, Total(s.ents, l), a);
    assert Contrib(e, l) == a.(fl := a.fl.(lock := a.fl.lock - 1));
    if e.MutRef? {
      ExclIsLive(s.maxRef, c, Total(s.ents, l));
      MutRefOk(t, i, e);
    } else {
      SimpleOk(t, i, e);
    }
    hide Contrib, RoleOf;
    StepPut(s, t, i, e, c.(weak := 1));
  }

  lemma GetMutStoreInv(s: State, i: Id)
    requires Inv(s) && i in s.ents && s.ents[i].GetMutStore?
    ensures Inv(DoGetMutStore(s, i, s.ents[i].l, s.ents[i].unique).s)
  {
    hide Inv, CellOk, Total, EntOk, Free, Put;
    Touch(s, i);
    var GetMutStore(l, unique) := s.ents[i];
    var v := Peek(s.heap[l].data);
    var e := if unique then MutRef(l, v, v, v) else Strong(l);
    UnlockExclusive(s, i, l, s.heap[l], e, DoGetMutStore(s, i, l, unique).s);
  }

  // ---------- the two loads of Weak::weak_count ----------

  lemma HeldNums(maxRef: nat, c: Cell, n: Nums)
    requires CellOk(maxRef, c, n) && n.we.expl + n.so.seed > 0 && !c.data.Gone?
    ensures c.weak == n.we.expl + 1
  {
  }

  lemma WeakCountInv(s: State, h: Id)
    requires Inv(s) && Enabled(s, WeakCountOfWeak(h))
    ensures Inv(DoWeakCountOfWeak(s, h, s.ents[h].l).s)
  {
    hide Inv, CellOk, Total, WeakHandles;
    Touch(s, h);
    NewId(s);
    var l := s.ents[h].l;
    var seen := |WeakHandles(s.ents, l)|;
    LedgerAt(s, l);
    WeakRefHolds(s, h);
    ExplicitCounted(s.ents, l);
    if !s.heap[l].data.Gone? {
      HeldNums(s.maxRef, s.heap[l], Total(s.ents, l));
    }
    var e := WeakCountLoad(h, l, s.heap[l].weak, seen, !s.heap[l].data.Gone?);
    StepQuiet(s, DoWeakCountOfWeak(s, h, l).s, s.next, e);
  }

  lemma WeakCountLoadInv(s: State, i: Id)
    requires Inv(s) && i in s.ents && s.ents[i].WeakCountLoad?
    ensures Inv(DoWeakCountLoad(s, i, s.ents[i].l, s.ents[i].cur).s)
  {
    hide Inv, CellOk, Total;
    SharedFacts(s, i);
    DelQuiet(s, i);
  }
}
