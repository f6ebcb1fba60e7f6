/** Where the entities of a state come from: the one case split over all steps that the results about whole
    runs rest on. */
module ArcOrigins {
  import opened ArcMachine
  import opened ArcLedger
  import opened ArcInvariant
  import opened ArcSteps
  import opened ArcSafety

  /** A UniqueArc, or a new_cyclic_in that has not published its value yet. */
  predicate IsUnpublished(e: Ent) { e.Unique? || e.Seed? || e.CyclicPublish? }

  /** A successful unwrap that has the value and has not answered yet. */
  predicate IsReturning(e: Ent) { (e.ReleaseWeak? || e.Dealloc?) && e.k.Return? }

  predicate MayReturn(e: Ent) { e.MoveOut? || e.Destroy? || IsReturning(e) }

  /** The handle or call that takes the step is about `l`. */
  predicate Comes(s: State, a: Action, l: Loc) {
    !(a.New? || a.NewCyclic? || a.NewUnique?) && a.h in s.ents && s.ents[a.h].l == l
  }

  /** Which steps lead to the entity `e`, for the kinds of entity that matter. */
  predicate Origin(s: State, a: Action, e: Ent) {
    && (e.Unique? ==> a.NewUnique? && e.l == s.next)
    && (e.Seed? ==> a.NewCyclic? && e.l == s.next)
    && (e.CyclicPublish? ==> a.CyclicInit? && Comes(s, a, e.l) && s.ents[a.h].Seed?)
    && (e.Destroy? ==> Comes(s, a, e.l) && (a.DropArc? || (a.Resume? && s.ents[a.h].MakeDropOld?)))
    && (e.MoveOut? ==> Comes(s, a, e.l) && (a.TryUnwrap? || a.IntoInner?))
    && (IsMake(e) ==> Comes(s, a, e.l) && (a.MakeMut? || (a.Resume? && IsMake(s.ents[a.h]))))
    && (e.MakeWeakLoad? ==> a.MakeMut?)
    && (e.MakeStore? ==> a.Resume? && Comes(s, a, e.l) && s.ents[a.h].MakeWeakLoad? && At(s, e.l).weak == 1)
    && (IsReturning(e) ==> a.Resume? && Comes(s, a, e.l) && MayReturn(s.ents[a.h]))
  }

  /** Every entity after the step was there before, or has its origin in the step. */
  ghost predicate Explained(s: State, a: Action, t: State) {
    forall i | i in t.ents :: (i in s.ents && t.ents[i] == s.ents[i]) || Origin(s, a, t.ents[i])
  }

  /** Entities of no special kind. */
  predicate Quiet(e: Ent) {
    match e
    case Unique(_) => false
    case Seed(_) => false
    case CyclicPublish(_) => false
    case Destroy(_, _) => false
    case MoveOut(_) => false
    case MakeClone(_, _) => false
    case MakeCloneInit(_, _, _) => false
    case MakeDropOld(_, _, _, _) => false
    case MakeWeakLoad(_, _) => false
    case MakeStore(_, _) => false
    case MakeSteal(_, _) => false
    case MakeMove(_, _, _) => false
    case ReleaseWeak(_, k) => !k.Return?
    case Dealloc(_, k) => !k.Return?
    case _ => true
  }

  lemma QuietOrigin(s: State, a: Action, e: Ent)
    requires Quiet(e)
    ensures Origin(s, a, e)
  {
  }

  lemma PutExplained(s: State, a: Action, t: State, i: Id, e: Ent)
    requires t.ents == s.ents[i := e] && Origin(s, a, e)
    ensures Explained(s, a, t)
  {
    hide Origin;
  }

  lemma DelExplained(s: State, a: Action, t: State, i: Id)
    requires t.ents == s.ents || t.ents == s.ents - {i}
    ensures Explained(s, a, t)
  {
    hide Origin;
  }

  lemma ShapesExplained(s: State, a: Action)
    ensures forall l, c, i, e {:trigger Put(Access(s, l, c), i, e)} ::
              Quiet(e) ==> Explained(s, a, Put(Access(s, l, c), i, e))
    ensures forall l, c, i {:trigger Del(Access(s, l, c), i)} :: Explained(s, a, Del(Access(s, l, c), i))
    ensures forall l, c {:trigger Access(s, l, c)} :: Explained(s, a, Access(s, l, c))
  {
    hide Explained, Quiet, Origin;
    forall l, c, i, e | Quiet(e) ensures Explained(s, a, Put(Access(s, l, c), i, e)) {
      QuietOrigin(s, a, e);
      PutExplained(s, a, Put(Access(s, l, c), i, e), i, e);
    }
    forall l, c, i ensures Explained(s, a, Del(Access(s, l, c), i)) {
      DelExplained(s, a, Del(Access(s, l, c), i), i);
    }
    forall l, c ensures Explained(s, a, Access(s, l, c)) {
      DelExplained(s, a, Access(s, l, c), 0);
    }
  }

  // ---------- calls that begin ----------

  lemma SharedExplained(s: State, a: Action)
    requires Enabled(s, a) && IsSharedAction(a)
    ensures Explained(s, a, Step(s, a).s)
  {
    ShapesExplained(s, a);
    hide Unborrowed, Aborting, Put, Del, Access, Max, Inc, Dec, WeakHandles, Explained, At;
  }

  lemma EndingExplained(s: State, a: Action)
    requires Enabled(s, a) && (a.DropArc? || a.TryUnwrap? || a.IntoInner?)
    ensures Explained(s, a, Step(s, a).s)
  {
    ShapesExplained(s, a);
    var l := s.ents[a.h].l;
    var c := At(s, l);
    var put := Put(Access(s, l, c.(strong := if a.TryUnwrap? then 0 else Dec(s, c.strong))), a.h,
                   if a.DropArc? then Destroy(l, Done) else MoveOut(l));
    PutExplained(s, a, put, a.h, if a.DropArc? then Destroy(l, Done) else MoveOut(l));
    hide Unborrowed, Aborting, Put, Del, Access, Max, Dec, Explained, At;
  }

  lemma MakingExplained(s: State, a: Action)
    requires Enabled(s, a) && (a.MakeMut? || a.CyclicInit?)
    ensures Explained(s, a, Step(s, a).s)
  {
    var l := s.ents[a.h].l;
    var t := Step(s, a).s;
    var e := if a.CyclicInit? then CyclicPublish(l)
             else if At(s, l).strong == 1 then MakeWeakLoad(l, Peek(At(s, l).data))
             else MakeClone(l, Peek(At(s, l).data));
    assert t.ents == s.ents[a.h := e];
    PutExplained(s, a, t, a.h, e);
    hide Unborrowed, Aborting, Access, At, Explained;
  }

  lemma OwnerExplained(s: State, a: Action)
    requires Enabled(s, a) && IsOwnerAction(a)
    ensures Explained(s, a, Step(s, a).s)
  {
    if a.DropArc? || a.TryUnwrap? || a.IntoInner? {
      EndingExplained(s, a);
    } else if a.MakeMut? || a.CyclicInit? {
      MakingExplained(s, a);
    } else {
      ShapesExplained(s, a);
      hide Unborrowed, Aborting, Put, Del, Access, Max, Dec, Peek, Explained, At;
    }
  }

  // ---------- calls in flight ----------

  lemma DowngradeExplained(s: State, a: Action)
    requires a.Resume? && a.h in s.ents && s.ents[a.h].DowngradeLoop?
    ensures Explained(s, a, DoResume(s, a.h, a.spurious, a.copy).s)
  {
    DelExplained(s, a, Del(s, a.h), a.h);
    ShapesExplained(s, a);
    hide Put, Del, Access, Max, Dec, At, Explained;
  }

  lemma UpgradeExplained(s: State, a: Action)
    requires a.Resume? && a.h in s.ents && (s.ents[a.h].UpgradeLoop? || s.ents[a.h].WeakCountLoad?)
    ensures Explained(s, a, DoResume(s, a.h, a.spurious, a.copy).s)
  {
    DelExplained(s, a, Del(s, a.h), a.h);
    ShapesExplained(s, a);
    hide Put, Del, Access, Max, Dec, At, Explained;
  }

  lemma UniqueExplained(s: State, a: Action)
    requires a.Resume? && a.h in s.ents
    requires s.ents[a.h].UniqueLoad? || s.ents[a.h].UniqueStore? || s.ents[a.h].CyclicPublish?
    ensures Explained(s, a, DoResume(s, a.h, a.spurious, a.copy).s)
  {
    ShapesExplained(s, a);
    hide Put, Del, Access, Peek, At, Inc, Explained;
  }

  lemma GetMutExplained(s: State, a: Action)
    requires a.Resume? && a.h in s.ents
    requires s.ents[a.h].GetMutLoad? || s.ents[a.h].GetMutStore? || IsAbort(s.ents[a.h])
    ensures Explained(s, a, DoResume(s, a.h, a.spurious, a.copy).s)
  {
    DelExplained(s, a, s.(aborted := true), 0);
    ShapesExplained(s, a);
    hide Put, Del, Access, Peek, At, Inc, Explained;
  }

  lemma FinishExplained(s: State, a: Action, s1: State, i: Id, k: Cont)
    requires s1.ents == s.ents
    ensures Explained(s, a, Finish(s1, i, k).s)
  {
    hide Explained, Origin;
    if k.ThenMut? {
      QuietOrigin(s, a, MutRef(k.n, k.v0, k.got, k.got));
      PutExplained(s, a, Finish(s1, i, k).s, i, MutRef(k.n, k.v0, k.got, k.got));
    } else {
      DelExplained(s, a, Finish(s1, i, k).s, i);
    }
  }

  lemma ReleaseExplained(s: State, a: Action, i: Id, l: Loc, k: Cont)
    requires Origin(s, a, Dealloc(l, k))
    ensures Explained(s, a, DoReleaseWeak(s, i, l, k).s) && Explained(s, a, DoDealloc(s, i, l, k).s)
  {
    var c := At(s, l);
    FinishExplained(s, a, Access(s, l, c.(weak := Dec(s, c.weak))), i, k);
    FinishExplained(s, a, Access(s, l, c.(freed := true, frees := c.frees + 1)), i, k);
    PutExplained(s, a, Put(Access(s, l, c.(weak := Dec(s, c.weak))), i, Dealloc(l, k)), i, Dealloc(l, k));
    hide Finish, At, Put, Access, Explained, Dec, Origin;
  }

  lemma EndExplained(s: State, a: Action, i: Id, l: Loc, k: Cont)
    ensures Origin(s, a, ReleaseWeak(l, k)) ==> Explained(s, a, DoDestroy(s, i, l, k).s)
    ensures a.Resume? && Comes(s, a, l) && s.ents[a.h].MoveOut? ==> Explained(s, a, DoMoveOut(s, i, l).s)
  {
    var v := Peek(At(s, l).data);
    if Origin(s, a, ReleaseWeak(l, k)) {
      PutExplained(s, a, DoDestroy(s, i, l, k).s, i, ReleaseWeak(l, k));
    }
    if a.Resume? && Comes(s, a, l) && s.ents[a.h].MoveOut? {
      PutExplained(s, a, DoMoveOut(s, i, l).s, i, ReleaseWeak(l, Return(v)));
    }
    hide At, Explained, Dec;
  }

  lemma MakeExplained(s: State, a: Action)
    requires a.Resume? && a.h in s.ents && IsMake(s.ents[a.h])
    ensures Explained(s, a, DoResume(s, a.h, a.spurious, a.copy).s)
  {
    var t := DoResume(s, a.h, a.spurious, a.copy).s;
    assert t.ents == s.ents[a.h := t.ents[a.h]];
    assert Origin(s, a, t.ents[a.h]);
    PutExplained(s, a, t, a.h, t.ents[a.h]);
  }

  lemma ResumeExplained(s: State, a: Action)
    requires a.Resume? && a.h in s.ents && IsCall(s.ents[a.h])
    ensures Explained(s, a, DoResume(s, a.h, a.spurious, a.copy).s)
  {
    var e := s.ents[a.h];
    assert Comes(s, a, e.l);
    if e.Destroy? || e.MoveOut? {
      EndExplained(s, a, a.h, e.l, if e.MoveOut? then Done else e.k);
    } else if e.ReleaseWeak? || e.Dealloc? {
      ReleaseExplained(s, a, a.h, e.l, e.k);
    } else if IsMake(e) {
      MakeExplained(s, a);
    } else if e.DowngradeLoop? {
      DowngradeExplained(s, a);
    } else if e.UpgradeLoop? || e.WeakCountLoad? {
      UpgradeExplained(s, a);
    } else if e.UniqueLoad? || e.UniqueStore? || e.CyclicPublish? {
      UniqueExplained(s, a);
    } else {
      GetMutExplained(s, a);
    }
    hide DoDowngradeLoop, DoUpgradeLoop, DoUniqueLoad, DoUniqueStore, DoWeakCountLoad, DoGetMutLoad,
      DoGetMutStore, DoMakeClone, DoMakeCloneInit, DoMakeDropOld, DoMakeWeakLoad, DoMakeStore, DoMakeSteal,
      DoMakeMove, DoDestroy, DoMoveOut, DoReleaseWeak, DoDealloc, DoCyclicPublish, Explained;
  }

  // ---------- any step ----------

  lemma PlainExplained(s: State, a: Action)
    requires Enabled(s, a) && !IsSharedAction(a) && !IsOwnerAction(a)
    ensures Explained(s, a, Step(s, a).s)
  {
    hide Unborrowed, Aborting, DoResume, DoReleaseWeak, DoDestroy, FreshCell, Explained, At;
    var t := Step(s, a).s;
    match a {
      case Resume(h, spurious, copy) => ResumeExplained(s, a);
      case DropWeak(h) => ReleaseExplained(s, a, h, s.ents[h].l, Done);
      case DropUnique(h) => EndExplained(s, a, h, s.ents[h].l, Done);
      case Read(h) => DelExplained(s, a, t, h);
      case UniqueWrite(h, v) => DelExplained(s, a, t, h);
      case Write(h, v) => PutExplained(s, a, t, h, s.ents[h].(v := v));
      case EndMut(h) => PutExplained(s, a, t, h, Strong(s.ents[h].l));
      case New(v) => PutExplained(s, a, t, s.next, Strong(s.next));
      case NewCyclic => PutExplained(s, a, t, s.next, Seed(s.next));
      case NewUnique(v) => PutExplained(s, a, t, s.next, Unique(s.next));
    }
  }

  lemma StepExplained(s: State, a: Action)
    requires Enabled(s, a)
    ensures Explained(s, a, Step(s, a).s)
  {
    hide Enabled, Step, Explained;
    if IsSharedAction(a) {
      SharedExplained(s, a);
    } else if IsOwnerAction(a) {
      OwnerExplained(s, a);
    } else {
      PlainExplained(s, a);
    }
  }
}
