/** What the `Arc` protocol guarantees in every reachable state and over every run. */
module ArcSafety {
  import opened ArcMachine
  import opened ArcLedger
  import opened ArcInvariant
  import opened ArcCounting
  import opened ArcSteps
  import opened ArcLockSteps
  import opened ArcMutSteps
  import opened ArcWeakSteps

  /** Some run of some program on `threads` threads leads to `s`. */
  ghost predicate Reachable(s: State) {
    exists acts: seq<Action> ::
      && s.threads < s.maxRef
      && Runs(Init(s.maxRef, s.threads), acts)
      && Exec(Init(s.maxRef, s.threads), acts) == s
  }

  lemma ReachableInv(s: State)
    requires Reachable(s)
    ensures Inv(s)
  {
    hide Inv, Runs, Exec;
    var acts :| s.threads < s.maxRef && Runs(Init(s.maxRef, s.threads), acts)
      && Exec(Init(s.maxRef, s.threads), acts) == s;
    InitInv(s.maxRef, s.threads);
    ExecInv(Init(s.maxRef, s.threads), acts);
  }

  // ---------- the counters ----------

  lemma LockedCounted(m: map<Id, Ent>, l: Loc)
    ensures Locked(m, l) <==> Total(m, l).fl.lock > 0
  {
    hide Total, RoleOf, Second;
    if Total(m, l).fl.lock > 0 {
      var i := LockHolder(m, l);
    }
    if Locked(m, l) {
      var i :| i in m && Locks(m[i]) && m[i].l == l;
      TotalHas(m, i, l);
    }
  }

  /** `strong` is the number of strong owners.  `weak` is the number of explicit Weak handles plus one for
      the implicit weak reference, which exactly one party holds from creation until the memory is about
      to go; while a uniqueness check holds the lock, there is no explicit Weak handle. */
  lemma CountersCount(s: State, l: Loc)
    requires Reachable(s) && l in s.heap
    ensures s.heap[l].strong == |StrongOwners(s.ents, l)|
    ensures |ImplicitHolders(s.ents, l)| <= 1
    ensures StrongOwners(s.ents, l) != {} ==> ImplicitHolders(s.ents, l) == {}
    ensures Locked(s.ents, l) ==>
              s.heap[l].weak == Max(s) && WeakHandles(s.ents, l) == {} && StrongOwners(s.ents, l) != {}
    ensures !Locked(s.ents, l) ==>
              s.heap[l].weak == |WeakHandles(s.ents, l)|
                + if StrongOwners(s.ents, l) != {} || ImplicitHolders(s.ents, l) != {} then 1 else 0
  {
    hide Inv, Total, Locked, StrongOwners, WeakHandles, ImplicitHolders, Reachable;
    ReachableInv(s);
    LedgerAt(s, l);
    StrongCounted(s, l);
    ExplicitCounted(s.ents, l);
    ImplicitCounted(s.ents, l);
    LockedCounted(s.ents, l);
  }

  /** With fewer than isize::MAX threads no counter comes near wrapping, and `weak` reads usize::MAX only
      while it is locked. */
  lemma CountersDoNotWrap(s: State, l: Loc)
    requires Reachable(s) && l in s.heap
    ensures s.heap[l].strong <= s.maxRef + 1 + |Aborting(s.ents)| < Max(s)
    ensures s.heap[l].weak <= s.maxRef + 1 + |Aborting(s.ents)| || Locked(s.ents, l)
    ensures s.heap[l].weak == Max(s) <==> Locked(s.ents, l)
  {
    hide Inv, Total, Locked, Reachable, Aborting;
    ReachableInv(s);
    LedgerAt(s, l);
    LockedCounted(s.ents, l);
    TotalAborts(s.ents, l);
    AbortBound(s);
  }

  lemma AbortBound(s: State)
    requires Inv(s)
    ensures |Aborting(s.ents)| <= s.threads < s.maxRef
  {
    hide LedgerOk, EntOk;
  }

  // ---------- the value and the memory ----------

  /** No step ever touched freed memory or a missing value; every value left its allocation at most once,
      every allocation was freed at most once, and only after its value was gone. */
  lemma MemorySafe(s: State, l: Loc)
    requires Reachable(s)
    ensures !s.ub
    ensures l in s.heap ==> var c := s.heap[l];
              && c.drops + c.handed + c.steals <= 1
              && c.frees <= 1 && (c.freed <==> c.frees == 1)
              && (c.freed ==> c.drops + c.handed + c.steals == 1)
              && (c.drops + c.handed + c.steals == 1 <==> c.data.Gone?)
  {
    hide Inv, Total, Reachable;
    ReachableInv(s);
    InvConfig(s);
    if l in s.heap {
      LedgerAt(s, l);
    }
  }

  /** A handle at rest always finds its value. */
  lemma HandlesSeeTheValue(s: State, h: Id)
    requires Reachable(s) && h in s.ents && (s.ents[h].Strong? || s.ents[h].Unique? || s.ents[h].MutRef?)
    ensures s.ents[h].l in s.heap && s.heap[s.ents[h].l].data.Live? && !s.heap[s.ents[h].l].freed
  {
    hide Inv, Reachable;
    ReachableInv(s);
    ReadFinds(s, h);
  }

  lemma NoMentionNoPart(e: Ent, l: Loc)
    requires !Mentions(e, l)
    ensures Contrib(e, l) == ZERO
  {
    hide RoleOf, Second;
  }

  lemma NobodyNums(maxRef: nat, c: Cell, n: Nums)
    requires CellOk(maxRef, c, n) && n.we.dealloc == 0
    requires n.st.plain == n.st.excl == n.st.build == n.we.expl == n.so.sole == n.so.lone == n.so.seed == n.we.rel == 0
    ensures c.frees == 1 && c.drops + c.handed + c.steals == 1
  {
  }

  /** Once nobody refers to an allocation any more, its value has left it and its memory is freed. */
  lemma NothingLeaks(s: State, l: Loc)
    requires Reachable(s) && l in s.heap
    requires forall i | i in s.ents :: !Mentions(s.ents[i], l)
    ensures s.heap[l].frees == 1 && s.heap[l].drops + s.heap[l].handed + s.heap[l].steals == 1
  {
    hide Inv, Total, Reachable, CellOk, Contrib, Mentions;
    ReachableInv(s);
    LedgerAt(s, l);
    forall i | i in s.ents ensures Contrib(s.ents[i], l) == ZERO {
      NoMentionNoPart(s.ents[i], l);
    }
    TotalZero(s.ents, l);
    NobodyNums(s.maxRef, s.heap[l], Total(s.ents, l));
  }

  // ---------- uniqueness ----------

  lemma HeldByMention(s: State, j: Id, l: Loc) returns (k: Id)
    requires Inv(s) && j in s.ents && Mentions(s.ents[j], l)
    ensures k in s.ents && Mentions(s.ents[k], l)
    ensures k == j || s.ents[k].Strong? || IsWeakRef(s.ents[k])
    ensures var n := Contrib(s.ents[k], l); StrongRefs(n) + n.we.expl + OwnParts(n) + n.we.dealloc > 0
  {
    hide LedgerOk, ValuesOk, CopiesOk, LocsOk, BorrowOk;
    assert EntOk(s, j);
    k := j;
    if RoleOf(s.ents[j]) == Nothing {
      k := BorrowedHandle(s.ents, s.ents[j]);
    }
  }

  lemma BorrowedHandle(m: map<Id, Ent>, e: Ent) returns (k: Id)
    requires BorrowOk(m, e) && RoleOf(e) == Nothing
    ensures k in m && m[k].l == e.l && (m[k].Strong? || IsWeakRef(m[k])) && Second(e) == None
  {
    k := Borrowed(e).value;
  }

  lemma AloneInNums(maxRef: nat, c: Cell, n: Nums, a: Nums, b: Nums)
    requires CellOk(maxRef, c, n) && AtMost(Add(a, b), n) && AtMost(ZERO, a) && AtMost(ZERO, b)
    requires a.st.excl > 0
    ensures StrongRefs(b) + b.we.expl + OwnParts(b) + b.we.dealloc == 0
  {
  }

  /** While somebody holds `&mut T`, nothing else in the whole state refers to the allocation: no handle of
      any kind, and no other call in flight.  The value is what the holder put there. */
  lemma MutIsAlone(s: State, i: Id, j: Id)
    requires Reachable(s) && i in s.ents && s.ents[i].MutRef?
    requires j in s.ents && j != i
    ensures !Mentions(s.ents[j], s.ents[i].l)
  {
    hide Inv, Total, CellOk, Reachable, Contrib, Mentions, AtMost, Add;
    ReachableInv(s);
    var l := s.ents[i].l;
    if Mentions(s.ents[j], l) {
      var k := HeldByMention(s, j, l);
      EntInHeap(s, i);
      LedgerAt(s, l);
      assert k != i;
      TotalPair(s.ents, i, k, l);
      MutHolds(s.ents[i]);
      AloneInNums(s.maxRef, s.heap[l], Total(s.ents, l), Held(s.ents, i, l), Held(s.ents, k, l));
    }
  }

  lemma MutHolds(e: Ent)
    requires e.MutRef?
    ensures Contrib(e, e.l) == EXCL
  {
  }

  lemma MutShowsItsValue(s: State, i: Id)
    requires Reachable(s) && i in s.ents && s.ents[i].MutRef?
    ensures Shows(s.heap, s.ents[i].l, s.ents[i].v) && s.heap[s.ents[i].l].strong == 1
    ensures CopyOk(s.clones, s.ents[i].v0, s.ents[i].got)
  {
    hide Inv, Total, Reachable;
    ReachableInv(s);
    Remembering(s, i);
    MutCopy(s, i);
    Facts(s, i);
  }

  /** Under the lock, the answer of a uniqueness check is exact at the moment it reads `strong`. */
  lemma UniquenessIsExact(s: State, i: Id)
    requires Reachable(s) && i in s.ents && (s.ents[i].UniqueLoad? || s.ents[i].GetMutLoad?)
    ensures s.ents[i].l in s.heap
    ensures WeakHandles(s.ents, s.ents[i].l) == {}
    ensures s.heap[s.ents[i].l].strong == 1 <==> |StrongOwners(s.ents, s.ents[i].l)| == 1
  {
    hide Inv, Total, Reachable, WeakHandles, StrongOwners;
    ReachableInv(s);
    var l := s.ents[i].l;
    EntInHeap(s, i);
    CountersCount(s, l);
  }

  // ---------- frames ----------

  /** Only the entity `h` and a new one may differ between `s` and `t`. */
  ghost predicate OnlyAt(s: State, t: State, h: Id) {
    && t.maxRef == s.maxRef && t.threads == s.threads && s.next <= t.next && s.heap.Keys <= t.heap.Keys
    && (forall i | i in s.ents && i != h :: i in t.ents && t.ents[i] == s.ents[i])
    && t.ents.Keys <= s.ents.Keys + {h, s.next}
  }

  lemma PutOnlyAt(s: State, l: Loc, c: Cell, i: Id, e: Ent, h: Id)
    requires (i == h || i == s.next) && s.next !in s.ents
    ensures OnlyAt(s, Put(Access(s, l, c), i, e), h)
  {
  }

  lemma DelOnlyAt(s: State, l: Loc, c: Cell, h: Id)
    ensures OnlyAt(s, Del(Access(s, l, c), h), h) && OnlyAt(s, Access(s, l, c), h)
  {
  }

  /** The usual shapes of a step. */
  lemma ShapesOnlyAt(s: State, h: Id)
    requires s.next !in s.ents
    ensures forall l, c, i, e {:trigger Put(Access(s, l, c), i, e)} ::
              i == h || i == s.next ==> OnlyAt(s, Put(Access(s, l, c), i, e), h)
    ensures forall l, c {:trigger Access(s, l, c)} ::
              OnlyAt(s, Del(Access(s, l, c), h), h) && OnlyAt(s, Access(s, l, c), h)
  {
    hide OnlyAt, Put, Del, Access;
    forall l, c, i, e | i == h || i == s.next ensures OnlyAt(s, Put(Access(s, l, c), i, e), h) {
      PutOnlyAt(s, l, c, i, e, h);
    }
    forall l, c ensures OnlyAt(s, Del(Access(s, l, c), h), h) && OnlyAt(s, Access(s, l, c), h) {
      DelOnlyAt(s, l, c, h);
    }
  }

  lemma FinishOnlyAt(s: State, h: Id, k: Cont)
    ensures OnlyAt(s, Finish(s, h, k).s, h)
  {
  }

  lemma ReleaseOnlyAt(s: State, h: Id, l: Loc, k: Cont)
    ensures OnlyAt(s, DoReleaseWeak(s, h, l, k).s, h)
  {
    hide Finish, At;
    var c := At(s, l);
    FinishOnlyAt(Access(s, l, c.(weak := Dec(s, c.weak))), h, k);
  }

  lemma DeallocOnlyAt(s: State, h: Id, l: Loc, k: Cont)
    ensures OnlyAt(s, DoDealloc(s, h, l, k).s, h)
  {
    hide Finish, At;
    var c := At(s, l);
    FinishOnlyAt(Access(s, l, c.(freed := true, frees := c.frees + 1)), h, k);
  }

  lemma DestroyOnlyAt(s: State, h: Id, l: Loc, k: Cont)
    ensures OnlyAt(s, DoDestroy(s, h, l, k).s, h) && OnlyAt(s, DoMoveOut(s, h, l).s, h)
  {
    hide At;
  }

  predicate IsMake(e: Ent) {
    e.MakeClone? || e.MakeCloneInit? || e.MakeDropOld? || e.MakeWeakLoad? || e.MakeStore? || e.MakeSteal? || e.MakeMove?
  }

  lemma MakeOnlyAt(s: State, h: Id, copy: Value)
    requires h in s.ents && IsMake(s.ents[h]) && s.next !in s.ents
    ensures OnlyAt(s, DoResume(s, h, false, copy).s, h)
  {
    hide At;
  }

  lemma LoopOnlyAt(s: State, h: Id, spurious: bool, copy: Value)
    requires h in s.ents && s.next !in s.ents
    requires s.ents[h].DowngradeLoop? || s.ents[h].UpgradeLoop? || s.ents[h].WeakCountLoad?
    ensures OnlyAt(s, DoResume(s, h, spurious, copy).s, h)
  {
    ShapesOnlyAt(s, h);
    assert OnlyAt(s, Del(s, h), h);
    hide At, OnlyAt, Put, Del, Access, Max, Dec;
  }

  lemma LockOnlyAt(s: State, h: Id, spurious: bool, copy: Value)
    requires h in s.ents && s.next !in s.ents
    requires s.ents[h].UniqueLoad? || s.ents[h].UniqueStore? || s.ents[h].GetMutLoad? || s.ents[h].GetMutStore?
          || s.ents[h].CyclicPublish? || IsAbort(s.ents[h])
    ensures OnlyAt(s, DoResume(s, h, spurious, copy).s, h)
  {
    ShapesOnlyAt(s, h);
    assert OnlyAt(s, s.(aborted := true), h);
    hide At, OnlyAt, Put, Del, Access, Inc, Peek;
  }

  lemma ResumeOnlyAt(s: State, h: Id, spurious: bool, copy: Value)
    requires h in s.ents && IsCall(s.ents[h]) && s.next !in s.ents
    ensures OnlyAt(s, DoResume(s, h, spurious, copy).s, h)
  {
    hide DoDowngradeLoop, DoUpgradeLoop, DoUniqueLoad, DoUniqueStore, DoWeakCountLoad, DoGetMutLoad,
      DoGetMutStore, DoMakeClone, DoMakeCloneInit, DoMakeDropOld, DoMakeWeakLoad, DoMakeStore, DoMakeSteal,
      DoMakeMove, DoDestroy, DoMoveOut, DoReleaseWeak, DoDealloc, DoCyclicPublish, OnlyAt;
    var e := s.ents[h];
    if e.Destroy? {
      DestroyOnlyAt(s, h, e.l, e.k);
    } else if e.MoveOut? {
      DestroyOnlyAt(s, h, e.l, Done);
    } else if e.ReleaseWeak? {
      ReleaseOnlyAt(s, h, e.l, e.k);
    } else if e.Dealloc? {
      DeallocOnlyAt(s, h, e.l, e.k);
    } else if IsMake(e) {
      MakeOnlyAt(s, h, copy);
    } else if e.DowngradeLoop? || e.UpgradeLoop? || e.WeakCountLoad? {
      LoopOnlyAt(s, h, spurious, copy);
    } else {
      LockOnlyAt(s, h, spurious, copy);
    }
  }

  lemma FreshOnlyAt(s: State)
    ensures forall c, e {:trigger Put(s.(heap := s.heap[s.next := c]), s.next, e)} ::
              OnlyAt(s, Put(s.(heap := s.heap[s.next := c]), s.next, e), s.next)
  {
  }

  lemma PutAloneOnlyAt(s: State, h: Id, e: Ent)
    ensures OnlyAt(s, Put(s, h, e), h)
  {
  }

  lemma WriteOnlyAt(s: State, h: Id, e: Ent, v: Value)
    requires h in s.ents
    ensures OnlyAt(s, DoRead(s, e.l).s, h) && OnlyAt(s, DoUniqueWrite(s, e.l, v).s, h)
    ensures e.MutRef? ==> OnlyAt(s, DoWrite(s, h, e, v).s, h)
  {
    hide At;
  }

  /** The entity an action names; a constructor names none. */
  function Actor(s: State, a: Action): Id {
    if a.New? || a.NewCyclic? || a.NewUnique? then s.next else a.h
  }

  predicate IsSharedAction(a: Action) {
    a.CloneArc? || a.StrongCount? || a.WeakCount? || a.Downgrade? || a.IsUnique? || a.CloneWeak? || a.Upgrade?
    || a.WeakCountOfWeak? || a.UniqueDowngrade?
  }

  predicate IsOwnerAction(a: Action) {
    a.DropArc? || a.GetMut? || a.MakeMut? || a.TryUnwrap? || a.IntoInner? || a.CyclicInit? || a.IntoArc?
  }

  lemma SharedStepOnlyAt(s: State, a: Action)
    requires Enabled(s, a) && s.next !in s.ents && IsSharedAction(a)
    ensures OnlyAt(s, Step(s, a).s, a.h)
  {
    ShapesOnlyAt(s, a.h);
    hide Unborrowed, Aborting, At, OnlyAt, Put, Del, Access, Max, Inc, Dec, WeakHandles;
  }

  lemma OwnerStepOnlyAt(s: State, a: Action)
    requires Enabled(s, a) && s.next !in s.ents && IsOwnerAction(a)
    ensures OnlyAt(s, Step(s, a).s, a.h)
  {
    ShapesOnlyAt(s, a.h);
    hide Unborrowed, Aborting, At, OnlyAt, Put, Del, Access, Max, Inc, Dec, Peek;
  }

  lemma StepOnlyAt(s: State, a: Action)
    requires Enabled(s, a) && s.next !in s.ents
    ensures OnlyAt(s, Step(s, a).s, Actor(s, a))
  {
    if IsSharedAction(a) {
      SharedStepOnlyAt(s, a);
    } else if IsOwnerAction(a) {
      OwnerStepOnlyAt(s, a);
    } else {
      FreshOnlyAt(s);
      hide Unborrowed, Aborting, DoResume, DoReleaseWeak, DoDestroy, OnlyAt, Put, FreshCell, DoWrite, DoRead,
        DoUniqueWrite;
      match a {
        case Resume(h, spurious, copy) => ResumeOnlyAt(s, h, spurious, copy);
        case DropWeak(h) => ReleaseOnlyAt(s, h, s.ents[h].l, Done);
        case DropUnique(h) => DestroyOnlyAt(s, h, s.ents[h].l, Done);
        case Write(h, v) => WriteOnlyAt(s, h, s.ents[h], v);
        case Read(h) => WriteOnlyAt(s, h, s.ents[h], 0);
        case UniqueWrite(h, v) => WriteOnlyAt(s, h, s.ents[h], v);
        case EndMut(h) => PutAloneOnlyAt(s, h, Strong(s.ents[h].l));
        case New(_) =>
        case NewCyclic =>
        case NewUnique(_) =>
      }
    }
  }

  // ---------- the lock ----------

  lemma LockedMeansMax(s: State, i: Id)
    requires Inv(s) && i in s.ents && Locks(s.ents[i])
    ensures s.ents[i].l in s.heap && s.heap[s.ents[i].l].weak == Max(s)
  {
    hide Inv, Total;
    EntInHeap(s, i);
    LedgerAt(s, s.ents[i].l);
    LockedCounted(s.ents, s.ents[i].l);
  }

  /** A call in flight is changed only by its own steps. */
  lemma CallKept(s: State, a: Action, i: Id)
    requires Inv(s) && Enabled(s, a) && i in s.ents && IsCall(s.ents[i]) && !(a.Resume? && a.h == i)
    ensures i in Step(s, a).s.ents && Step(s, a).s.ents[i] == s.ents[i]
    ensures Step(s, a).s.maxRef == s.maxRef && Step(s, a).s.threads == s.threads
  {
    hide Inv, Step, Unborrowed, Aborting;
    NewId(s);
    StepOnlyAt(s, a);
  }

  /** Nothing changes `weak` while it is locked, although `Weak::clone` and `Weak::drop` do not look:
      only the call that took the lock gives it back. */
  lemma LockIsStable(s: State, i: Id, a: Action)
    requires Reachable(s) && i in s.ents && Locks(s.ents[i])
    requires Enabled(s, a) && !(a.Resume? && a.h == i)
    ensures i in Step(s, a).s.ents && Step(s, a).s.ents[i] == s.ents[i]
    ensures s.ents[i].l in s.heap && s.ents[i].l in Step(s, a).s.heap
    ensures s.heap[s.ents[i].l].weak == Max(s) == Step(s, a).s.heap[s.ents[i].l].weak
  {
    hide Inv, Total, Reachable, Enabled, Step;
    ReachableInv(s);
    StepInv(s, a);
    CallKept(s, a, i);
    LockedMeansMax(s, i);
    LockedMeansMax(Step(s, a).s, i);
  }
}
