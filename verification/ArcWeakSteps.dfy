/** The steps of `Weak::clone`, `UniqueArc` and `new_cyclic_in` keep the invariant; and so does every
    step of the machine. */
module ArcWeakSteps {
  import opened ArcMachine
  import opened ArcLedger
  import opened ArcInvariant
  import opened ArcSteps
  import opened ArcLockSteps
  import opened ArcMutSteps

  lemma CloneWeakNums(maxRef: nat, c: Cell, n: Nums)
    requires CellOk(maxRef, c, n) && n.we.expl + n.so.seed + n.so.sole > 0 && c.weak <= maxRef
    ensures !c.freed
    ensures CellOk(maxRef, c.(weak := c.weak + 1), Add(Sub(n, ZERO), EXPL))
  {
  }

  lemma CloneTooManyNums(maxRef: nat, c: Cell, n: Nums)
    requires CellOk(maxRef, c, n) && n.we.expl + n.so.seed + n.so.sole > 0 && n.fl.abW < maxRef
    ensures c.weak + 1 < 2 * maxRef + 2 && !c.freed
    ensures CellOk(maxRef, c.(weak := c.weak + 1), Add(Sub(n, ZERO), EXPL.(fl := EXPL.fl.(abW := 1))))
  {
  }

  lemma AddWeak(s: State, h: Id, l: Loc)
    requires Inv(s) && h in s.ents && s.ents[h].l == l
    requires s.ents[h].Unique? || IsWeakRef(s.ents[h])
    requires |Aborting(s.ents)| < s.threads
    ensures Inv(DoCloneWeak(s, l).s)
  {
    hide ValuesOk, CopiesOk, Aborting, Total, Inv, CellOk, Sub, Add, Free, BorrowOk, EntOk;
    Facts(s, h);
    NewId(s);
    var c := s.heap[l];
    var e := if c.weak > s.maxRef then AbortWeak(l) else Weak(l);
    CloneTooManyNums(s.maxRef, c, Total(s.ents, l));
    if c.weak <= s.maxRef {
      CloneWeakNums(s.maxRef, c, Total(s.ents, l));
    }
    var t := DoCloneWeak(s, l).s;
    assert t.heap == s.heap[l := c.(weak := c.weak + 1)];
    SimpleOk(t, s.next, e);
    StepPut(s, t, s.next, e, c.(weak := c.weak + 1));
  }

  lemma PublishNums(maxRef: nat, c: Cell, n: Nums)
    requires CellOk(maxRef, c, n) && n.so.sole > 0
    ensures c.strong == 0
    ensures CellOk(maxRef, c.(strong := 1), Add(Sub(n, SOLE), PLAIN))
  {
  }

  lemma IntoArcInv(s: State, h: Id)
    requires Inv(s) && h in s.ents && s.ents[h].Unique?
    ensures Inv(DoIntoArc(s, h, s.ents[h].l).s)
  {
    hide Inv, CellOk, Total, EntOk, Add, Sub;
    Touch(s, h);
    Facts(s, h);
    var l := s.ents[h].l;
    var c := s.heap[l];
    var t := DoIntoArc(s, h, l).s;
    PublishNums(s.maxRef, c, Total(s.ents, l));
    SimpleOk(t, h, Strong(l));
    StepPut(s, t, h, Strong(l), c.(strong := 1));
  }

  lemma CyclicPublishInv(s: State, i: Id)
    requires Inv(s) && i in s.ents && s.ents[i].CyclicPublish?
    ensures Inv(DoCyclicPublish(s, i, s.ents[i].l).s)
  {
    hide Inv, CellOk, Total, EntOk, Add, Sub;
    Touch(s, i);
    Facts(s, i);
    CallIsFree(s, i);
    var l := s.ents[i].l;
    var c := s.heap[l];
    var t := DoCyclicPublish(s, i, l).s;
    PublishNums(s.maxRef, c, Total(s.ents, l));
    SimpleOk(t, i, Strong(l));
    StepPut(s, t, i, Strong(l), c.(strong := 1));
  }

  lemma InitNums(maxRef: nat, c: Cell, n: Nums, v: Value)
    requires CellOk(maxRef, c, n) && n.so.seed > 0
    ensures CellOk(maxRef, c.(data := Live(v)), Add(Sub(n, SEED), SOLE))
  {
  }

  lemma CyclicInitInv(s: State, h: Id, v: Value)
    requires Inv(s) && h in s.ents && s.ents[h].Seed? && Unborrowed(s, h)
    ensures Inv(DoCyclicInit(s, h, s.ents[h].l, v).s)
  {
    hide Inv, CellOk, Total, EntOk, Add, Sub, Unborrowed;
    Touch(s, h);
    Facts(s, h);
    var l := s.ents[h].l;
    var c := s.heap[l];
    var t := DoCyclicInit(s, h, l, v).s;
    InitNums(s.maxRef, c, Total(s.ents, l), v);
    SimpleOk(t, h, CyclicPublish(l));
    StepPut(s, t, h, CyclicPublish(l), c.(data := Live(v)));
  }

  lemma UniqueWriteInv(s: State, h: Id, v: Value)
    requires Inv(s) && h in s.ents && s.ents[h].Unique?
    ensures Inv(DoUniqueWrite(s, s.ents[h].l, v).s)
  {
    hide Inv, CellOk, Total, EntOk, Add, Sub;
    Touch(s, h);
    Facts(s, h);
    var l := s.ents[h].l;
    var c := s.heap[l];
    var t := DoUniqueWrite(s, l, v).s;
    WriteNums(s.maxRef, c, Total(s.ents, l), SOLE, v);
    SimpleOk(t, h, Unique(l));
    assert t.ents == s.ents[h := Unique(l)];
    StepPut(s, t, h, Unique(l), c.(data := Live(v)));
  }

  /** Reading through a handle finds the value. */
  lemma ReadFinds(s: State, h: Id)
    requires Inv(s) && h in s.ents && (s.ents[h].Strong? || s.ents[h].Unique? || s.ents[h].MutRef?)
    ensures s.ents[h].l in s.heap && !s.heap[s.ents[h].l].freed && s.heap[s.ents[h].l].data.Live?
    ensures DoRead(s, s.ents[h].l).s == s
  {
    hide Inv, CellOk, Total, EntOk, Add, Sub;
    Touch(s, h);
    Facts(s, h);
    InvConfig(s);
    ExclIsLive(s.maxRef, s.heap[s.ents[h].l], Total(s.ents, s.ents[h].l));
  }

  lemma AbortInv(s: State)
    requires Inv(s)
    ensures Inv(s.(aborted := true))
  {
    var t := s.(aborted := true);
    forall l | l in t.heap ensures LedgerOk(t, l) { assert LedgerOk(s, l); }
    forall i | i in t.ents ensures EntOk(t, i) { assert EntOk(s, i); }
  }

  lemma ResumeInv(s: State, i: Id, spurious: bool, copy: Value)
    requires Inv(s) && i in s.ents && IsCall(s.ents[i])
    ensures Inv(DoResume(s, i, spurious, copy).s)
  {
    hide Inv, DoDowngradeLoop, DoUpgradeLoop, DoUniqueLoad, DoUniqueStore, DoWeakCountLoad, DoGetMutLoad,
      DoGetMutStore, DoMakeClone, DoMakeCloneInit, DoMakeDropOld, DoMakeWeakLoad, DoMakeStore, DoMakeSteal,
      DoMakeMove, DoDestroy, DoMoveOut, DoReleaseWeak, DoDealloc, DoCyclicPublish;
    match s.ents[i]
    case DowngradeLoop(_, _, _) => DowngradeLoopInv(s, i, spurious);
    case UpgradeLoop(_, _, _) => UpgradeLoopInv(s, i, spurious);
    case UniqueLoad(_, _) => UniqueLoadInv(s, i);
    case UniqueStore(_, _, _) => UniqueStoreInv(s, i);
    case WeakCountLoad(_, _, _, _, _) => WeakCountLoadInv(s, i);
    case AbortStrong(_) => AbortInv(s);
    case AbortWeak(_) => AbortInv(s);
    case GetMutLoad(_) => GetMutLoadInv(s, i);
    case GetMutStore(_, _) => GetMutStoreInv(s, i);
    case MakeClone(_, _) => MakeCloneInv(s, i);
    case MakeCloneInit(_, _, _) => MakeCloneInitInv(s, i, copy);
    case MakeDropOld(_, _, _, _) => MakeDropOldInv(s, i);
    case MakeWeakLoad(_, _) => MakeWeakLoadInv(s, i);
    case MakeStore(_, _) => MakeStoreInv(s, i);
    case MakeSteal(_, _) => MakeStealInv(s, i);
    case MakeMove(_, _, _) => MakeMoveInv(s, i);
    case Destroy(_, _) => DestroyInv(s, i);
    case MoveOut(_) => MoveOutInv(s, i);
    case ReleaseWeak(_, _) => ReleaseWeakInv(s, i);
    case Dealloc(_, _) => DeallocInv(s, i);
    case CyclicPublish(_) => CyclicPublishInv(s, i);
  }

  lemma NothingChanges(s: State, h: Id)
    requires Inv(s) && h in s.ents && (s.ents[h].Strong? || IsWeakRef(s.ents[h]))
    ensures DoStrongCount(s, s.ents[h].l).s == s && DoWeakCount(s, s.ents[h].l).s == s
  {
    hide Inv;
    Touch(s, h);
  }

  /** The invariant is inductive. */
  lemma StepInv(s: State, a: Action)
    requires Inv(s) && Enabled(s, a)
    ensures Inv(Step(s, a).s)
  {
    hide Inv, Unborrowed, Aborting, DoNew, DoCloneArc, DoDropArc, DoRead, DoStrongCount, DoWeakCount, DoDowngrade,
      DoIsUnique, DoGetMut, DoMakeMut, DoWrite, DoTryUnwrap, DoIntoInner, DoCloneWeak, DoDropWeak, DoUpgrade,
      DoWeakCountOfWeak, DoNewCyclic, DoCyclicInit, DoNewUnique, DoUniqueWrite, DoIntoArc, DoDestroy, DoResume, Put;
    match a
    case New(v) => NewInv(s, v);
    case CloneArc(h) => CloneArcInv(s, h);
    case DropArc(h) => DropArcInv(s, h);
    case Read(h) => ReadFinds(s, h);
    case StrongCount(h) => NothingChanges(s, h);
    case WeakCount(h) => NothingChanges(s, h);
    case Downgrade(h) => DowngradeInv(s, h);
    case IsUnique(h) => IsUniqueInv(s, h);
    case GetMut(h) => GetMutInv(s, h);
    case MakeMut(h) => MakeMutInv(s, h);
    case Write(h, v) => WriteInv(s, h, v);
    case EndMut(h) => EndMutInv(s, h);
    case TryUnwrap(h) => TryUnwrapInv(s, h);
    case IntoInner(h) => IntoInnerInv(s, h);
    case CloneWeak(h) => AddWeak(s, h, s.ents[h].l);
    case DropWeak(h) => DropWeakInv(s, h);
    case Upgrade(h) => UpgradeInv(s, h);
    case WeakCountOfWeak(h) => WeakCountInv(s, h);
    case NewCyclic => NewCyclicInv(s);
    case CyclicInit(h, v) => CyclicInitInv(s, h, v);
    case NewUnique(v) => NewUniqueInv(s, v);
    case UniqueDowngrade(h) => AddWeak(s, h, s.ents[h].l);
    case UniqueWrite(h, v) => UniqueWriteInv(s, h, v);
    case IntoArc(h) => IntoArcInv(s, h);
    case DropUnique(h) => DropUniqueInv(s, h);
    case Resume(h, spurious, copy) => ResumeInv(s, h, spurious, copy);
  }

  lemma InitInv(maxRef: nat, threads: nat)
    requires threads < maxRef
    ensures Inv(Init(maxRef, threads))
  {
    assert Aborting(map[]) == {};
  }

  /** Every reachable state satisfies the invariant. */
  lemma {:induction false} ExecInv(s: State, acts: seq<Action>)
    requires Inv(s) && Runs(s, acts)
    ensures Inv(Exec(s, acts))
    decreases |acts|
  {
    hide Inv, Enabled, Step;
    if acts != [] {
      StepInv(s, acts[0]);
      ExecInv(Step(s, acts[0]).s, acts[1..]);
    }
  }
}
