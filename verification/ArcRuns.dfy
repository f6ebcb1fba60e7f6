/** What the `Arc` protocol guarantees over whole runs. */
module ArcRuns {
  import opened ArcMachine
  import opened ArcLedger
  import opened ArcInvariant
  import opened ArcCounting
  import opened ArcSteps
  import opened ArcLockSteps
  import opened ArcMutSteps
  import opened ArcWeakSteps
  import opened ArcSafety

  // ---------- which steps change a value, and which bring a strong count back ----------

  predicate SameHistory(c: Cell, d: Cell) {
    c.drops == d.drops && c.handed == d.handed && c.steals == d.steals
  }

  predicate NoHistory(c: Cell) { c.drops == c.handed == c.steals == 0 }

  /** No value changes or leaves its allocation, and a strong count of 0 stays 0. */
  ghost predicate Tame(s: State, t: State) {
    && (forall x | x in s.heap ::
          && x in t.heap && t.heap[x].data == s.heap[x].data && SameHistory(t.heap[x], s.heap[x])
          && (s.heap[x].strong == 0 ==> t.heap[x].strong == 0))
    && (forall x | x in t.heap && x !in s.heap :: NoHistory(t.heap[x]))
  }

  ghost predicate TameCell(s: State, l: Loc, c: Cell) {
    c.data == At(s, l).data && SameHistory(c, At(s, l)) && (c.strong == 0 || At(s, l).strong != 0)
  }

  lemma AccessTame(s: State, l: Loc, c: Cell, i: Id, e: Ent)
    requires TameCell(s, l, c)
    ensures Tame(s, Put(Access(s, l, c), i, e)) && Tame(s, Del(Access(s, l, c), i)) && Tame(s, Access(s, l, c))
  {
  }

  lemma ShapesTame(s: State)
    ensures forall l, c, i, e {:trigger Put(Access(s, l, c), i, e)} ::
              TameCell(s, l, c) ==> Tame(s, Put(Access(s, l, c), i, e))
    ensures forall l, c, i {:trigger Del(Access(s, l, c), i)} ::
              TameCell(s, l, c) ==> Tame(s, Del(Access(s, l, c), i))
    ensures forall l, c {:trigger Access(s, l, c)} :: TameCell(s, l, c) ==> Tame(s, Access(s, l, c))
  {
    hide Tame, TameCell, Put, Del, Access;
    forall l, c, i, e | TameCell(s, l, c) ensures Tame(s, Put(Access(s, l, c), i, e)) {
      AccessTame(s, l, c, i, e);
    }
    forall l, c, i | TameCell(s, l, c) ensures Tame(s, Del(Access(s, l, c), i)) {
      AccessTame(s, l, c, i, Strong(0));
    }
    forall l, c | TameCell(s, l, c) ensures Tame(s, Access(s, l, c)) {
      AccessTame(s, l, c, 0, Strong(0));
    }
  }

  /** Steps that write, move or drop a value, or that publish or restore a strong reference. */
  predicate Special(s: State, a: Action) {
    || a.Write? || a.UniqueWrite? || a.CyclicInit? || a.DropUnique? || a.IntoArc?
    || (a.Resume? && a.h in s.ents &&
        var e := s.ents[a.h];
        e.Destroy? || e.MoveOut? || e.MakeMove? || e.MakeCloneInit? || e.CyclicPublish? || e.MakeStore?)
  }

  lemma PlainHasStrong(s: State, h: Id)
    requires Inv(s) && h in s.ents && RoleOf(s.ents[h]) == Plain
    ensures s.ents[h].l in s.heap && s.heap[s.ents[h].l].strong > 0
  {
    hide Inv, Total;
    Facts(s, h);
  }

  lemma SharedTame(s: State, a: Action)
    requires Enabled(s, a) && IsSharedAction(a)
    requires s.ents[a.h].Strong? ==> At(s, s.ents[a.h].l).strong != 0
    ensures Tame(s, Step(s, a).s)
  {
    ShapesTame(s);
    hide Unborrowed, Aborting, Put, Del, Access, Max, Dec, WeakHandles, Tame, At;
  }

  lemma OwnerTame(s: State, a: Action)
    requires Enabled(s, a) && IsOwnerAction(a) && !Special(s, a)
    requires At(s, s.ents[a.h].l).strong != 0
    ensures Tame(s, Step(s, a).s)
  {
    ShapesTame(s);
    hide Unborrowed, Aborting, Put, Del, Access, Max, Peek, Tame, At;
  }

  lemma DowngradeTame(s: State, i: Id, spurious: bool, copy: Value)
    requires i in s.ents && s.ents[i].DowngradeLoop?
    ensures Tame(s, DoResume(s, i, spurious, copy).s)
  {
    ShapesTame(s);
    assert Tame(s, Del(s, i));
    hide Put, Del, Access, Max, Dec, Tame, At;
  }

  lemma UpgradeTame(s: State, i: Id, spurious: bool, copy: Value)
    requires i in s.ents && (s.ents[i].UpgradeLoop? || s.ents[i].WeakCountLoad?)
    ensures Tame(s, DoResume(s, i, spurious, copy).s)
  {
    ShapesTame(s);
    assert Tame(s, Del(s, i));
    hide Put, Del, Access, Max, Dec, Tame, At;
  }

  lemma LockTame(s: State, i: Id, spurious: bool, copy: Value)
    requires i in s.ents
    requires s.ents[i].UniqueLoad? || s.ents[i].UniqueStore? || s.ents[i].GetMutLoad? || s.ents[i].GetMutStore?
          || IsAbort(s.ents[i])
    ensures Tame(s, DoResume(s, i, spurious, copy).s)
  {
    ShapesTame(s);
    assert Tame(s, s.(aborted := true));
    hide Put, Del, Access, Peek, Tame, At;
  }

  lemma FinishTame(s: State, l: Loc, c: Cell, i: Id, k: Cont)
    requires TameCell(s, l, c)
    ensures Tame(s, Finish(Access(s, l, c), i, k).s)
  {
    ShapesTame(s);
    hide Put, Del, Access, Tame, TameCell;
  }

  lemma ReleaseTame(s: State, i: Id, l: Loc, k: Cont)
    ensures Tame(s, DoReleaseWeak(s, i, l, k).s) && Tame(s, DoDealloc(s, i, l, k).s)
  {
    hide Finish, Access, Put, Tame;
    var c := At(s, l);
    FinishTame(s, l, c.(weak := Dec(s, c.weak)), i, k);
    FinishTame(s, l, c.(freed := true, frees := c.frees + 1), i, k);
    ShapesTame(s);
  }

  lemma AllocTame(s: State, c: Cell, i: Id, e: Ent)
    requires s.next !in s.heap && NoHistory(c)
    ensures Tame(s, Put(Alloc(s, c), i, e))
  {
  }

  lemma MakeTame(s: State, i: Id, copy: Value)
    requires i in s.ents && s.next !in s.heap
    requires s.ents[i].MakeClone? || s.ents[i].MakeDropOld? || s.ents[i].MakeWeakLoad? || s.ents[i].MakeSteal?
    requires s.ents[i].MakeDropOld? ==> At(s, s.ents[i].l).strong != 0
    ensures Tame(s, DoResume(s, i, false, copy).s)
  {
    var empty := FreshCell(1, 1, Uninit);
    var e := s.ents[i];
    if e.MakeClone? {
      AllocTame(s, empty, i, MakeCloneInit(e.l, s.next, e.v0));
    } else if e.MakeSteal? {
      AllocTame(s, empty, i, MakeMove(e.l, s.next, e.v0));
    }
    ShapesTame(s);
    hide Put, Access, Alloc, Tame, At;
  }

  lemma ResumeTame(s: State, i: Id, spurious: bool, copy: Value)
    requires Inv(s) && i in s.ents && IsCall(s.ents[i]) && !Special(s, Resume(i, spurious, copy))
    ensures Tame(s, DoResume(s, i, spurious, copy).s)
  {
    hide Inv, DoDowngradeLoop, DoUpgradeLoop, DoUniqueLoad, DoUniqueStore, DoWeakCountLoad, DoGetMutLoad,
      DoGetMutStore, DoMakeClone, DoMakeCloneInit, DoMakeDropOld, DoMakeWeakLoad, DoMakeStore, DoMakeSteal,
      DoMakeMove, DoDestroy, DoMoveOut, DoReleaseWeak, DoDealloc, DoCyclicPublish, Tame;
    var e := s.ents[i];
    if e.ReleaseWeak? || e.Dealloc? {
      ReleaseTame(s, i, e.l, e.k);
    } else if IsMake(e) {
      NewId(s);
      if e.MakeDropOld? { PlainHasStrong(s, i); }
      MakeTame(s, i, copy);
    } else if e.DowngradeLoop? {
      DowngradeTame(s, i, spurious, copy);
    } else if e.UpgradeLoop? || e.WeakCountLoad? {
      UpgradeTame(s, i, spurious, copy);
    } else {
      LockTame(s, i, spurious, copy);
    }
  }

  lemma NewTame(s: State, c: Cell, e: Ent)
    requires s.next !in s.heap && NoHistory(c)
    ensures Tame(s, Put(s.(heap := s.heap[s.next := c]), s.next, e))
  {
  }

  lemma ActorStrong(s: State, a: Action)
    requires Inv(s) && Enabled(s, a) && (IsSharedAction(a) || IsOwnerAction(a)) && !Special(s, a)
    ensures a.h in s.ents
    ensures s.ents[a.h].Strong? || IsOwnerAction(a) ==> At(s, s.ents[a.h].l).strong != 0
  {
    hide Inv, Unborrowed, Aborting;
    if s.ents[a.h].Strong? {
      PlainHasStrong(s, a.h);
    }
  }

  lemma PlainStepTame(s: State, a: Action)
    requires Inv(s) && Enabled(s, a) && !Special(s, a) && !IsSharedAction(a) && !IsOwnerAction(a)
    ensures Tame(s, Step(s, a).s)
  {
    hide Inv, Unborrowed, Aborting, DoResume, DoReleaseWeak, Tame, Put;
    NewId(s);
    match a {
      case Resume(h, spurious, copy) => ResumeTame(s, h, spurious, copy);
      case DropWeak(h) => ReleaseTame(s, h, s.ents[h].l, Done);
      case Read(h) => ReadFinds(s, h); TameSelf(s);
      case EndMut(h) => TamePut(s, h, Strong(s.ents[h].l));
      case New(v) => NewTame(s, FreshCell(1, 1, Live(v)), Strong(s.next));
      case NewCyclic => NewTame(s, FreshCell(0, 1, Uninit), Seed(s.next));
      case NewUnique(v) => NewTame(s, FreshCell(0, 1, Live(v)), Unique(s.next));
    }
  }

  lemma StepTame(s: State, a: Action)
    requires Inv(s) && Enabled(s, a) && !Special(s, a)
    ensures Tame(s, Step(s, a).s)
  {
    hide Inv, Enabled, Step, Tame, Special;
    if IsSharedAction(a) {
      ActorStrong(s, a);
      SharedTame(s, a);
    } else if IsOwnerAction(a) {
      ActorStrong(s, a);
      OwnerTame(s, a);
    } else {
      PlainStepTame(s, a);
    }
  }

  lemma TameSelf(s: State)
    ensures Tame(s, s)
  {
  }

  lemma TamePut(s: State, i: Id, e: Ent)
    ensures Tame(s, Put(s, i, e))
  {
  }

  // ---------- the special steps ----------

  /** Steps that bring a strong count back from 0. */
  predicate Revives(s: State, a: Action, l: Loc) {
    || (a.IntoArc? && a.h in s.ents && s.ents[a.h].Unique? && s.ents[a.h].l == l)
    || (a.Resume? && a.h in s.ents && (s.ents[a.h].CyclicPublish? || s.ents[a.h].MakeStore?) && s.ents[a.h].l == l)
  }

  /** The effect of a special step on a cell whose value it does not own. */
  ghost predicate Harmless(s: State, t: State, a: Action, l: Loc) {
    && l in s.heap && l in t.heap
    && t.heap[l].data == s.heap[l].data
    && (s.heap[l].strong == 0 && !Revives(s, a, l) ==> t.heap[l].strong == 0)
  }

  lemma NotOwned(e: Ent, l: Loc)
    requires Owners(Contrib(e, l)) == 0 && AtMost(ZERO, Contrib(e, l)) && Second(e) != Some(e.l)
    ensures e.l == l ==> RoleOf(e) != Excl && RoleOf(e) != Sole && RoleOf(e) != Lone && RoleOf(e) != Unwritten
    ensures Second(e) != Some(l)
  {
    hide RoleOf, Second;
  }

  lemma WriteHarmless(s: State, a: Action, l: Loc)
    requires a.Write? || a.UniqueWrite? || a.CyclicInit? || a.DropUnique? || a.IntoArc?
    requires Enabled(s, a) && l in s.heap && a.h in s.ents && s.ents[a.h].l != l
    ensures Harmless(s, Step(s, a).s, a, l)
  {
    hide Unborrowed, Aborting, Peek, At;
  }

  lemma EndHarmless(s: State, a: Action, l: Loc)
    requires Enabled(s, a) && a.Resume? && l in s.heap && s.ents[a.h].l != l
    requires s.ents[a.h].Destroy? || s.ents[a.h].MoveOut? || s.ents[a.h].CyclicPublish? || s.ents[a.h].MakeStore?
    ensures Harmless(s, Step(s, a).s, a, l)
  {
    hide Unborrowed, Aborting, Inc, Peek, At;
  }

  lemma CopyHarmless(s: State, a: Action, l: Loc)
    requires Enabled(s, a) && a.Resume? && l in s.heap && Builds(s.ents[a.h])
    requires s.ents[a.h].n != l && (s.ents[a.h].MakeMove? ==> s.ents[a.h].l != l)
    ensures Harmless(s, Step(s, a).s, a, l)
  {
    hide Unborrowed, Aborting, Peek;
  }

  lemma ReviveHarmless(s: State, a: Action, l: Loc)
    requires Enabled(s, a) && l in s.heap && Revives(s, a, l)
    ensures Harmless(s, Step(s, a).s, a, l)
  {
    hide Unborrowed, Aborting, Inc;
  }

  lemma SpecialHarmless(s: State, a: Action, l: Loc)
    requires Enabled(s, a) && Special(s, a) && l in s.heap && a.h in s.ents
    requires Second(s.ents[a.h]) != Some(s.ents[a.h].l)
    requires Owners(Contrib(s.ents[a.h], l)) == 0 && AtMost(ZERO, Contrib(s.ents[a.h], l))
    ensures Harmless(s, Step(s, a).s, a, l)
  {
    hide Enabled, Step, Contrib, Owners, Harmless, RoleOf, Second, AtMost;
    NotOwned(s.ents[a.h], l);
    ActorOwnsValue(s, a);
    if a.Resume? {
      if Builds(s.ents[a.h]) {
        CopyHarmless(s, a, l);
      } else {
        EndHarmless(s, a, l);
      }
    } else {
      WriteHarmless(s, a, l);
    }
  }

  /** A special step is taken by an owner of the value it is about. */
  lemma ActorOwnsValue(s: State, a: Action)
    requires Enabled(s, a) && Special(s, a) && a.h in s.ents
    ensures (a.Resume? && s.ents[a.h].MakeCloneInit?) || RoleOf(s.ents[a.h]) == Excl || RoleOf(s.ents[a.h]) == Sole
         || RoleOf(s.ents[a.h]) == Lone || RoleOf(s.ents[a.h]) == Unwritten
    ensures Builds(s.ents[a.h]) ==> Second(s.ents[a.h]) == Some(s.ents[a.h].n)
  {
    hide Unborrowed, Aborting;
  }

  /** A step that does not revive `l`, taken by an entity that does not own the value there, leaves it alone. */
  lemma StepHarmless(s: State, a: Action, l: Loc)
    requires Inv(s) && Enabled(s, a) && l in s.heap
    requires Revives(s, a, l) || (Special(s, a) ==> a.h in s.ents && Owners(Contrib(s.ents[a.h], l)) == 0)
    ensures Harmless(s, Step(s, a).s, a, l)
  {
    hide Inv, Enabled, Step, Revives, Contrib, Owners, AtMost;
    if Special(s, a) {
      if Revives(s, a, l) {
        ReviveHarmless(s, a, l);
      } else {
        HeldNonNegative(s.ents, a.h, l);
        SecondDiffers(s, a.h);
        SpecialHarmless(s, a, l);
      }
    } else {
      StepTame(s, a);
    }
  }

  lemma NobodyOwns(s: State, a: Action, l: Loc)
    requires Enabled(s, a) && Special(s, a) && Owners(Total(s.ents, l)) == 0
    ensures a.h in s.ents && Owners(Contrib(s.ents[a.h], l)) == 0
  {
    hide Total, Contrib, Unborrowed, Aborting;
    TotalHas(s.ents, a.h, l);
    HeldNonNegative(s.ents, a.h, l);
  }

  // ---------- shared values do not change ----------

  lemma SharedNums(maxRef: nat, c: Cell, n: Nums)
    requires CellOk(maxRef, c, n) && (n.st.plain > 0 || c.data.Gone?)
    ensures Owners(n) == 0
  {
  }

  /** Whatever any thread does, the value behind an Arc handle at rest stays what it is. */
  lemma SharedValueIsFixed(s: State, a: Action, k: Id)
    requires Reachable(s) && k in s.ents && s.ents[k].Strong? && Enabled(s, a)
    ensures s.ents[k].l in s.heap && s.ents[k].l in Step(s, a).s.heap
    ensures Step(s, a).s.heap[s.ents[k].l].data == s.heap[s.ents[k].l].data
  {
    hide Inv, Reachable, Enabled, Step, Total, CellOk, Owners;
    ReachableInv(s);
    Facts(s, k);
    StrongHolds(s, k);
    var l := s.ents[k].l;
    SharedNums(s.maxRef, s.heap[l], Total(s.ents, l));
    if Special(s, a) {
      NobodyOwns(s, a, l);
    }
    StepHarmless(s, a, l);
  }

  /** A value that has left its allocation never comes back. */
  lemma GoneStaysGone(s: State, a: Action, l: Loc)
    requires Inv(s) && Enabled(s, a) && l in s.heap && s.heap[l].data.Gone?
    ensures l in Step(s, a).s.heap && Step(s, a).s.heap[l].data.Gone?
  {
    hide Inv, Enabled, Step, Total, CellOk, Owners;
    LedgerAt(s, l);
    SharedNums(s.maxRef, s.heap[l], Total(s.ents, l));
    if Special(s, a) {
      NobodyOwns(s, a, l);
    }
    StepHarmless(s, a, l);
  }
}
