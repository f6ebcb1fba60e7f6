/** No resurrection: a Weak whose `upgrade` has once found no strong reference after publication never
    upgrades again, and neither does any Weak cloned from it. */
module ArcUpgrade {
  import opened ArcMachine
  import opened ArcLedger
  import opened ArcInvariant
  import opened ArcCounting
  import opened ArcSteps
  import opened ArcLockSteps
  import opened ArcMutSteps
  import opened ArcWeakSteps
  import opened ArcSafety
  import opened ArcOrigins
  import opened ArcRuns

  /** Every value at `l` has been published: no UniqueArc and no new_cyclic_in is still working on it. */
  predicate Published(m: map<Id, Ent>, l: Loc) {
    forall i | i in m && m[i].l == l :: !IsUnpublished(m[i])
  }

  // ---------- publication is not taken back ----------

  lemma StepPublished(s: State, a: Action, l: Loc)
    requires Inv(s) && Enabled(s, a) && l in s.heap && Published(s.ents, l)
    ensures Published(Step(s, a).s.ents, l)
  {
    hide Inv, Enabled, Step;
    StepExplained(s, a);
    NewId(s);
  }

  // ---------- a dead allocation stays dead while it has a Weak ----------

  ghost predicate Dead(s: State, l: Loc) {
    l in s.heap && s.heap[l].strong == 0 && Published(s.ents, l)
  }

  lemma WriteStrong(s: State, a: Action, l: Loc)
    requires Enabled(s, a) && l in s.heap
    requires a.Write? || a.UniqueWrite? || a.CyclicInit? || a.DropUnique?
    ensures l in Step(s, a).s.heap && Step(s, a).s.heap[l].strong == s.heap[l].strong
  {
    hide Unborrowed, Aborting, Peek;
  }

  lemma EndStrong(s: State, i: Id, copy: Value, l: Loc)
    requires i in s.ents && l in s.heap
    requires s.ents[i].Destroy? || s.ents[i].MoveOut? || s.ents[i].MakeMove? || s.ents[i].MakeCloneInit?
    ensures l in DoResume(s, i, false, copy).s.heap && DoResume(s, i, false, copy).s.heap[l].strong == s.heap[l].strong
  {
    hide Peek;
  }

  lemma PublishStrong(s: State, i: Id, l: Loc)
    requires i in s.ents && l in s.heap && s.ents[i].l != l && (s.ents[i].CyclicPublish? || s.ents[i].MakeStore?)
    ensures l in DoResume(s, i, false, 0).s.heap && DoResume(s, i, false, 0).s.heap[l] == s.heap[l]
  {
    hide Inc;
  }

  lemma SpecialStrong(s: State, a: Action, l: Loc)
    requires Enabled(s, a) && Special(s, a) && l in s.heap && !Revives(s, a, l)
    ensures l in Step(s, a).s.heap && Step(s, a).s.heap[l].strong == s.heap[l].strong
  {
    hide Unborrowed, Aborting, DoDestroy, DoMoveOut, DoMakeMove, DoMakeCloneInit, DoCyclicPublish, DoMakeStore,
      DoWrite, DoUniqueWrite, DoCyclicInit;
    if a.Resume? {
      if s.ents[a.h].CyclicPublish? || s.ents[a.h].MakeStore? {
        PublishStrong(s, a.h, l);
      } else {
        EndStrong(s, a.h, a.copy, l);
      }
    } else if !a.IntoArc? {
      WriteStrong(s, a, l);
    }
  }

  /** The last access of a `make_mut` that has found itself alone. */
  predicate Restores(s: State, a: Action, l: Loc) {
    a.Resume? && a.h in s.ents && s.ents[a.h].MakeStore? && s.ents[a.h].l == l
  }

  /** Exactly one kind of step brings a published strong count back from 0. */
  lemma DeadStep(s: State, a: Action, l: Loc)
    requires Inv(s) && Enabled(s, a) && Dead(s, l)
    ensures Dead(Step(s, a).s, l) <==> !Restores(s, a, l)
  {
    hide Inv, Enabled, Step, Special;
    StepPublished(s, a, l);
    if Restores(s, a, l) {
      RestoreStep(s, a, l);
    } else if Special(s, a) {
      if !Revives(s, a, l) {
        SpecialStrong(s, a, l);
      }
    } else {
      StepTame(s, a);
    }
  }

  lemma RestoreStep(s: State, a: Action, l: Loc)
    requires Enabled(s, a) && Restores(s, a, l)
    ensures var t := Step(s, a).s; l in t.heap && t.heap[l].strong == 1
  {
    hide Unborrowed, Aborting, At;
  }

  // ---------- the descendants of a Weak ----------

  /** `f` and all Weak handles cloned from it, directly or not, while `acts` run. */
  function Lineage(s: State, acts: seq<Action>, f: set<Id>): set<Id>
    requires Runs(s, acts)
    decreases |acts|
  {
    if acts == [] then f
    else Lineage(Step(s, acts[0]).s, acts[1..], if acts[0].CloneWeak? && acts[0].h in f then f + {s.next} else f)
  }

  /** What can become of a Weak of `l`. */
  predicate Descended(e: Ent, l: Loc) {
    e.l == l && (e.Weak? || e.AbortWeak? || (e.Dealloc? && e.k == Done))
  }

  ghost predicate Family(s: State, f: set<Id>, l: Loc) {
    forall i | i in f :: i < s.next && (i in s.ents ==> Descended(s.ents[i], l))
  }

  ghost predicate NoWeakLeft(s: State, f: set<Id>) {
    forall i | i in f && i in s.ents :: !s.ents[i].Weak?
  }

  /** No later upgrade in the family can succeed. */
  ghost predicate Expired(s: State, f: set<Id>, l: Loc) {
    Family(s, f, l) && l in s.heap && (Dead(s, l) || NoWeakLeft(s, f))
  }

  lemma OwnStep(s: State, a: Action, l: Loc)
    requires Enabled(s, a) && s.next !in s.ents && Actor(s, a) in s.ents && Descended(s.ents[Actor(s, a)], l)
    ensures Actor(s, a) in Step(s, a).s.ents ==>
              var e := Step(s, a).s.ents[Actor(s, a)];
              Descended(e, l) && (e.Weak? ==> s.ents[Actor(s, a)].Weak?)
  {
    hide Unborrowed, Aborting, WeakHandles, At, Max, Dec, Inc;
  }

  lemma FamilyEntity(s: State, a: Action, i: Id, l: Loc)
    requires Inv(s) && Enabled(s, a) && i in s.ents && Descended(s.ents[i], l)
    ensures i in Step(s, a).s.ents ==>
              Descended(Step(s, a).s.ents[i], l) && (Step(s, a).s.ents[i].Weak? ==> s.ents[i].Weak?)
  {
    hide Inv, Enabled, Step;
    NewId(s);
    StepOnlyAt(s, a);
    if Actor(s, a) == i {
      OwnStep(s, a, l);
    }
  }

  lemma ClonedWeak(s: State, h: Id)
    requires Inv(s) && Enabled(s, CloneWeak(h)) && s.ents[h].Weak?
    ensures var t := Step(s, CloneWeak(h)).s;
            s.next in t.ents && Descended(t.ents[s.next], s.ents[h].l) && s.next < t.next
  {
    hide Inv, Unborrowed, Aborting;
  }

  lemma FamilyStep(s: State, a: Action, f: set<Id>, l: Loc)
    requires Inv(s) && Enabled(s, a) && Family(s, f, l)
    ensures Family(Step(s, a).s, f, l)
    ensures NoWeakLeft(s, f) ==> NoWeakLeft(Step(s, a).s, f)
  {
    hide Inv, Enabled, Step, Descended;
    NewId(s);
    StepOnlyAt(s, a);
    var t := Step(s, a).s;
    forall i | i in f
      ensures i < t.next
      ensures i in t.ents ==> i in s.ents && Descended(t.ents[i], l) && (t.ents[i].Weak? ==> s.ents[i].Weak?)
    {
      if i in t.ents {
        ActorKnown(s, a);
        assert i in s.ents;
        FamilyEntity(s, a, i, l);
      }
    }
  }

  lemma ActorKnown(s: State, a: Action)
    requires Enabled(s, a)
    ensures Actor(s, a) == s.next || Actor(s, a) in s.ents
  {
    hide Unborrowed, Aborting;
  }

  lemma LoneMeansNoWeak(s: State, i: Id, j: Id)
    requires Inv(s) && i in s.ents && s.ents[i].MakeStore? && j in s.ents && s.ents[j].l == s.ents[i].l
    ensures !s.ents[j].Weak?
  {
    hide Inv, Total;
    if s.ents[j].Weak? {
      Facts(s, i);
      Facts(s, j);
      assert false;
    }
  }

  lemma ExpiredStep(s: State, a: Action, f: set<Id>, l: Loc)
    requires Inv(s) && Enabled(s, a) && Expired(s, f, l)
    ensures Expired(Step(s, a).s, if a.CloneWeak? && a.h in f then f + {s.next} else f, l)
  {
    hide Inv, Enabled, Step, Dead;
    var t := Step(s, a).s;
    NewId(s);
    StepOnlyAt(s, a);
    FamilyStep(s, a, f, l);
    if Dead(s, l) {
      DeadStep(s, a, l);
      if !Dead(t, l) {
        forall j | j in f && j in s.ents ensures !s.ents[j].Weak? {
          LoneMeansNoWeak(s, a.h, j);
        }
      }
    }
    if a.CloneWeak? && a.h in f {
      ActorKnown(s, a);
      ClonerIsWeak(s, a.h, l);
      ClonedWeak(s, a.h);
      assert Dead(t, l);
    }
  }

  lemma ClonerIsWeak(s: State, h: Id, l: Loc)
    requires Enabled(s, CloneWeak(h)) && h in s.ents && Descended(s.ents[h], l)
    ensures s.ents[h].Weak? && s.ents[h].l == l
  {
    hide Unborrowed, Aborting;
  }

  lemma {:induction false} ExpiredRun(s: State, acts: seq<Action>, f: set<Id>, l: Loc)
    requires Inv(s) && Runs(s, acts) && Expired(s, f, l)
    ensures Expired(Exec(s, acts), Lineage(s, acts, f), l)
    decreases |acts|
  {
    hide Inv, Enabled, Step, Expired;
    if acts != [] {
      StepInv(s, acts[0]);
      ExpiredStep(s, acts[0], f, l);
      var g := if acts[0].CloneWeak? && acts[0].h in f then f + {s.next} else f;
      ExpiredRun(Step(s, acts[0]).s, acts[1..], g, l);
    }
  }

  /** `w` is a Weak whose `upgrade` finds no strong reference, after publication.  Whatever happens next,
      every Weak descended from it finds none either, and an upgrade of it in flight does not succeed,
      even though `make_mut` may bring the strong count back from 0 to 1. */
  lemma NoResurrection(s: State, acts: seq<Action>, w: Id)
    requires Reachable(s) && Runs(s, acts)
    requires w in s.ents && s.ents[w].Weak? && s.ents[w].l in s.heap
    requires s.heap[s.ents[w].l].strong == 0 && Published(s.ents, s.ents[w].l)
    ensures var t := Exec(s, acts);
            forall v | v in Lineage(s, acts, {w}) && v in t.ents && t.ents[v].Weak? ::
              && t.ents[v].l in t.heap && t.heap[t.ents[v].l].strong == 0
              && forall i, spurious | i in t.ents && t.ents[i].UpgradeLoop? && t.ents[i].h == v ::
                   !DoUpgradeLoop(t, i, v, t.ents[i].l, t.ents[i].cur, spurious).out.GotHandle?
  {
    hide Inv, Reachable, Runs, Exec, Lineage, DoUpgradeLoop;
    ReachableInv(s);
    var l := s.ents[w].l;
    EntInHeap(s, w);
    ExpiredRun(s, acts, {w}, l);
    ExecInv(s, acts);
    var t := Exec(s, acts);
    forall v, i, spurious | v in Lineage(s, acts, {w}) && v in t.ents && t.ents[v].Weak?
      && i in t.ents && t.ents[i].UpgradeLoop? && t.ents[i].h == v
      ensures !DoUpgradeLoop(t, i, v, t.ents[i].l, t.ents[i].cur, spurious).out.GotHandle?
    {
      NoUpgrade(t, i, spurious, l);
    }
  }

  lemma NoUpgrade(t: State, i: Id, spurious: bool, l: Loc)
    requires Inv(t) && i in t.ents && t.ents[i].UpgradeLoop? && t.ents[i].h in t.ents
    requires t.ents[t.ents[i].h].l == l && l in t.heap && t.heap[l].strong == 0
    ensures !DoUpgradeLoop(t, i, t.ents[i].h, t.ents[i].l, t.ents[i].cur, spurious).out.GotHandle?
  {
    hide Inv;
    SharedFacts(t, i);
  }
}
