/** The outcome of single calls of the `Arc` protocol, in every interleaving. */
module ArcOutcomes {
  import opened ArcMachine
  import opened ArcLedger
  import opened ArcInvariant
  import opened ArcCounting
  import opened ArcSteps
  import opened ArcLockSteps
  import opened ArcMutSteps
  import opened ArcWeakSteps
  import opened ArcSafety
  import opened ArcRuns

  // ---------- make_mut ----------

  /** A call of `make_mut` that began when the value was `v0`. */
  predicate Making(e: Ent, v0: Value) {
    || ((e.MakeClone? || e.MakeCloneInit? || e.MakeDropOld? || e.MakeWeakLoad? || e.MakeStore? || e.MakeSteal?
         || e.MakeMove?) && e.v0 == v0)
    || ((e.Destroy? || e.ReleaseWeak? || e.Dealloc?) && e.k.ThenMut? && e.k.v0 == v0)
  }

  /** The call `h` is in `make_mut` before each of `acts`. */
  predicate StaysMaking(s: State, acts: seq<Action>, h: Id, v0: Value)
    requires Runs(s, acts)
    decreases |acts|
  {
    acts != [] ==>
      && h in s.ents && Making(s.ents[h], v0)
      && StaysMaking(Step(s, acts[0]).s, acts[1..], h, v0)
  }

  predicate Delivered(e: Ent, v0: Value) {
    e.MutRef? && e.v0 == v0 && e.v == e.got
  }

  lemma FinishMaking(s: State, i: Id, k: Cont)
    requires k.ThenMut?
    ensures i in Finish(s, i, k).s.ents && Delivered(Finish(s, i, k).s.ents[i], k.v0)
  {
  }

  lemma ReleaseMaking(s: State, i: Id, l: Loc, k: Cont)
    requires k.ThenMut?
    ensures var t := DoReleaseWeak(s, i, l, k).s;
            i in t.ents && (Making(t.ents[i], k.v0) || Delivered(t.ents[i], k.v0))
    ensures var t := DoDealloc(s, i, l, k).s; i in t.ents && Delivered(t.ents[i], k.v0)
  {
    var c := At(s, l);
    FinishMaking(Access(s, l, c.(weak := Dec(s, c.weak))), i, k);
    FinishMaking(Access(s, l, c.(freed := true, frees := c.frees + 1)), i, k);
    hide Finish, At, Access, Dec, Delivered;
  }

  lemma ResumeMaking(s: State, i: Id, spurious: bool, copy: Value, v0: Value)
    requires i in s.ents && Making(s.ents[i], v0)
    ensures var t := DoResume(s, i, spurious, copy).s;
            i in t.ents && (Making(t.ents[i], v0) || Delivered(t.ents[i], v0))
  {
    var e := s.ents[i];
    if e.ReleaseWeak? || e.Dealloc? {
      ReleaseMaking(s, i, e.l, e.k);
    } else {
      hide DoReleaseWeak, DoDealloc, At, Access, DataAccess, Alloc, Peek, Dec, FreshCell;
    }
  }

  lemma MakingIsCall(e: Ent, v0: Value)
    requires Making(e, v0)
    ensures IsCall(e) && !e.MutRef?
  {
  }

  lemma StepMaking(s: State, a: Action, h: Id, v0: Value)
    requires Inv(s) && Enabled(s, a) && h in s.ents && Making(s.ents[h], v0)
    ensures h in Step(s, a).s.ents && (Making(Step(s, a).s.ents[h], v0) || Delivered(Step(s, a).s.ents[h], v0))
  {
    hide Inv, Enabled, Making, Delivered, DoResume;
    MakingIsCall(s.ents[h], v0);
    if a.Resume? && a.h == h {
      ResumeMaking(s, h, a.spurious, a.copy, v0);
    } else {
      hide Step;
      CallKept(s, a, h);
    }
  }

  lemma {:induction false} MakingRun(s: State, acts: seq<Action>, h: Id, v0: Value)
    requires Inv(s) && Runs(s, acts) && h in s.ents && Making(s.ents[h], v0)
    requires StaysMaking(s, acts, h, v0)
    ensures h in Exec(s, acts).ents && (Making(Exec(s, acts).ents[h], v0) || Delivered(Exec(s, acts).ents[h], v0))
    decreases |acts|
  {
    hide Inv, Enabled, Step, Making, Delivered;
    if acts != [] {
      StepMaking(s, acts[0], h, v0);
      StepInv(s, acts[0]);
      var s1 := Step(s, acts[0]).s;
      if acts[1..] != [] {
        MakingRun(s1, acts[1..], h, v0);
      } else {
        assert Exec(s1, acts[1..]) == s1;
      }
    }
  }

  lemma {:induction false} RunsAppend(s: State, a: seq<Action>, b: seq<Action>)
    requires Runs(s, a) && Runs(Exec(s, a), b)
    ensures Runs(s, a + b) && Exec(s, a + b) == Exec(Exec(s, a), b)
    decreases |a|
  {
    hide Enabled, Step;
    if a == [] {
      assert a + b == b;
    } else {
      RunsAppend(Step(s, a[0]).s, a[1..], b);
      assert (a + b)[1..] == a[1..] + b;
    }
  }

  lemma OneStep(s: State, a: Action)
    requires Enabled(s, a)
    ensures Runs(s, [a]) && Exec(s, [a]) == Step(s, a).s
  {
    hide Enabled, Step;
  }

  lemma {:induction false} ConfigOfRun(s: State, acts: seq<Action>)
    requires Inv(s) && Runs(s, acts)
    ensures Exec(s, acts).maxRef == s.maxRef && Exec(s, acts).threads == s.threads
    decreases |acts|
  {
    hide Inv, Enabled, Step;
    if acts != [] {
      NewId(s);
      StepOnlyAt(s, acts[0]);
      StepInv(s, acts[0]);
      ConfigOfRun(Step(s, acts[0]).s, acts[1..]);
    }
  }

  lemma ReachableRun(s: State, acts: seq<Action>)
    requires Reachable(s) && Runs(s, acts)
    ensures Reachable(Exec(s, acts))
  {
    hide Inv, Runs, Exec;
    ReachableInv(s);
    var before :| s.threads < s.maxRef && Runs(Init(s.maxRef, s.threads), before)
      && Exec(Init(s.maxRef, s.threads), before) == s;
    RunsAppend(Init(s.maxRef, s.threads), before, acts);
    ConfigOfRun(s, acts);
  }

  lemma ReachableStep(s: State, a: Action)
    requires Reachable(s) && Enabled(s, a)
    ensures Reachable(Step(s, a).s)
  {
    hide Reachable, Enabled, Step;
    OneStep(s, a);
    ReachableRun(s, [a]);
  }

  lemma BeginMaking(s: State, h: Id)
    requires Enabled(s, MakeMut(h)) && s.ents[h].l in s.heap && s.heap[s.ents[h].l].data.Live?
    ensures var t := Step(s, MakeMut(h)).s; h in t.ents && Making(t.ents[h], s.heap[s.ents[h].l].data.v)
  {
    hide Unborrowed, Aborting;
    hide DoMakeMut, Making, DoResume;
    assert Step(s, MakeMut(h)) == DoMakeMut(s, h, s.ents[h].l);
    BeginsMaking(s, h, s.ents[h].l, s.heap[s.ents[h].l].data.v);
  }

  lemma BeginsMaking(s: State, h: Id, l: Loc, v0: Value)
    requires l in s.heap && s.heap[l].data == Live(v0)
    ensures h in DoMakeMut(s, h, l).s.ents && Making(DoMakeMut(s, h, l).s.ents[h], v0)
  {
  }

  /** From the first access of `make_mut` on a handle that shows `v0` to the moment it hands out `&mut T`,
      whatever else happens in between: the caller then holds the only reference of any kind to an
      allocation that shows `v0` or a clone of it. */
  lemma MakeMutDelivers(s: State, acts: seq<Action>, h: Id)
    requires Reachable(s) && Runs(s, acts) && acts != [] && acts[0] == MakeMut(h)
    requires h in s.ents && s.ents[h].l in s.heap && s.heap[s.ents[h].l].data.Live?
    requires StaysMaking(Step(s, acts[0]).s, acts[1..], h, s.heap[s.ents[h].l].data.v)
    requires h in Exec(s, acts).ents && Exec(s, acts).ents[h].MutRef?
    ensures var t := Exec(s, acts);
            var m := t.ents[h];
            var v0 := s.heap[s.ents[h].l].data.v;
            && m.v0 == v0 && CopyOk(t.clones, v0, m.got)
            && Shows(t.heap, m.l, m.got) && t.heap[m.l].strong == 1
            && forall j | j in t.ents && j != h :: !Mentions(t.ents[j], m.l)
  {
    hide Inv, Enabled, Step, Reachable, Mentions, CopyOk, Shows;
    ReachableInv(s);
    BeginMaking(s, h);
    StepInv(s, acts[0]);
    var v0 := s.heap[s.ents[h].l].data.v;
    MakingRun(Step(s, acts[0]).s, acts[1..], h, v0);
    var t := Exec(s, acts);
    ReachableRun(s, acts);
    MutShowsItsValue(t, h);
    forall j | j in t.ents && j != h ensures !Mentions(t.ents[j], t.ents[h].l) {
      MutIsAlone(t, h, j);
    }
    if Making(t.ents[h], v0) {
      MakingIsCall(t.ents[h], v0);
    }
  }

  // ---------- try_unwrap and into_inner ----------

  /** A successful unwrap that has moved `v` out and has not answered yet. */
  predicate Unwrapping(e: Ent, v: Value) {
    (e.ReleaseWeak? || e.Dealloc?) && e.k == Return(v)
  }

  /** The access that moves the value out finds it. */
  lemma UnwrapMovesTheValue(s: State, i: Id)
    requires Reachable(s) && i in s.ents && s.ents[i].MoveOut?
    ensures s.ents[i].l in s.heap && s.heap[s.ents[i].l].data.Live?
    ensures var t := DoMoveOut(s, i, s.ents[i].l).s;
            i in t.ents && Unwrapping(t.ents[i], s.heap[s.ents[i].l].data.v)
  {
    hide Inv, Total, Reachable, CellOk, AtMost;
    ReachableInv(s);
    Facts(s, i);
    MoverHolds(s.ents[i]);
    SoleNums(s.maxRef, s.heap[s.ents[i].l], Total(s.ents, s.ents[i].l));
  }

  lemma MoverHolds(e: Ent)
    requires e.MoveOut?
    ensures Contrib(e, e.l) == SOLE
  {
  }

  lemma SoleNums(maxRef: nat, c: Cell, n: Nums)
    requires CellOk(maxRef, c, n)
    ensures AtMost(SOLE, n) ==> c.data.Live?
  {
  }

  lemma ReleaseAnswers(s: State, i: Id, l: Loc, v: Value)
    ensures var r := DoReleaseWeak(s, i, l, Return(v));
            r.out == GotValue(v) || (i in r.s.ents && Unwrapping(r.s.ents[i], v))
    ensures DoDealloc(s, i, l, Return(v)).out == GotValue(v)
  {
    hide At, Access;
  }

  /** From then on that one call keeps the value, through every interleaving, until it answers with it. */
  lemma UnwrapAnswers(s: State, a: Action, i: Id, v: Value)
    requires Reachable(s) && Enabled(s, a) && i in s.ents && Unwrapping(s.ents[i], v)
    ensures var r := Step(s, a);
            (i in r.s.ents && Unwrapping(r.s.ents[i], v)) || (a.Resume? && a.h == i && r.out == GotValue(v))
  {
    hide Inv, Reachable, Enabled, DoReleaseWeak, DoDealloc;
    if a.Resume? && a.h == i {
      ReleaseAnswers(s, i, s.ents[i].l, v);
    } else {
      ReachableInv(s);
      CallKept(s, a, i);
      hide Step;
    }
  }

  // ---------- the counts ----------

  /** `Arc::weak_count` is exact at the moment of its load. */
  lemma ArcWeakCountIsExact(s: State, h: Id)
    requires Reachable(s) && h in s.ents && s.ents[h].Strong?
    ensures DoWeakCount(s, s.ents[h].l).out == GotCount(|WeakHandles(s.ents, s.ents[h].l)|)
  {
    hide Inv, Reachable, WeakHandles, StrongOwners, ImplicitHolders, Locked;
    ReachableInv(s);
    EntInHeap(s, h);
    CountersCount(s, s.ents[h].l);
    CountersDoNotWrap(s, s.ents[h].l);
    OwnerListed(s, h);
  }

  lemma OwnerListed(s: State, h: Id)
    requires h in s.ents && s.ents[h].Strong?
    ensures h in StrongOwners(s.ents, s.ents[h].l)
  {
  }

  /** None of these steps is taken by the call `i`. */
  predicate LeavesAlone(acts: seq<Action>, i: Id) {
    forall k | 0 <= k < |acts| :: !(acts[k].Resume? && acts[k].h == i)
  }

  lemma {:induction false} CallKeptRun(s: State, acts: seq<Action>, i: Id)
    requires Inv(s) && Runs(s, acts) && LeavesAlone(acts, i) && i in s.ents && IsCall(s.ents[i])
    ensures Inv(Exec(s, acts)) && i in Exec(s, acts).ents && Exec(s, acts).ents[i] == s.ents[i]
    ensures Exec(s, acts).maxRef == s.maxRef
    decreases |acts|
  {
    hide Inv, Enabled, Step;
    if acts != [] {
      CallKept(s, acts[0], i);
      StepInv(s, acts[0]);
      assert LeavesAlone(acts[1..], i) by {
        assert forall k | 0 <= k < |acts[1..]| :: acts[1..][k] == acts[k + 1];
      }
      CallKeptRun(Step(s, acts[0]).s, acts[1..], i);
    }
  }

  /** `Weak::weak_count` loads two counters at two times, with anything in between.  It answers 0 if there was
      no strong reference at the second load, and otherwise the number of explicit Weak handles at the first. */
  lemma WeakCountOverRun(s: State, h: Id, acts: seq<Action>, spurious: bool, copy: Value)
    requires Reachable(s) && Enabled(s, WeakCountOfWeak(h)) && h in s.ents
    requires Runs(Step(s, WeakCountOfWeak(h)).s, acts) && LeavesAlone(acts, s.next)
    requires Enabled(Exec(Step(s, WeakCountOfWeak(h)).s, acts), Resume(s.next, spurious, copy))
    ensures var l := s.ents[h].l;
            var t := Exec(Step(s, WeakCountOfWeak(h)).s, acts);
            l in t.heap && Step(t, Resume(s.next, spurious, copy)).out
                        == GotCount(if t.heap[l].strong == 0 then 0 else |WeakHandles(s.ents, l)|)
  {
    hide Inv, Reachable, Enabled, Step, WeakHandles, Runs, Exec;
    ReachableInv(s);
    var s1 := Step(s, WeakCountOfWeak(h)).s;
    WeakCountBegins(s, h);
    StepInv(s, WeakCountOfWeak(h));
    CallKeptRun(s1, acts, s.next);
    var t := Exec(s1, acts);
    WeakCountEnds(t, s.next, spurious, copy);
  }

  lemma WeakCountBegins(s: State, h: Id)
    requires Enabled(s, WeakCountOfWeak(h)) && h in s.ents
    ensures var t := Step(s, WeakCountOfWeak(h)).s;
            s.next in t.ents && t.ents[s.next].WeakCountLoad? && t.ents[s.next].l == s.ents[h].l
            && t.ents[s.next].seen == |WeakHandles(s.ents, s.ents[h].l)| && t.maxRef == s.maxRef
  {
    hide Unborrowed, Aborting, WeakHandles;
  }

  lemma WeakCountEnds(t: State, i: Id, spurious: bool, copy: Value)
    requires Inv(t) && i in t.ents && t.ents[i].WeakCountLoad? && Enabled(t, Resume(i, spurious, copy))
    ensures t.ents[i].l in t.heap
    ensures Step(t, Resume(i, spurious, copy)).out
         == GotCount(if t.heap[t.ents[i].l].strong == 0 then 0 else t.ents[i].seen)
  {
    hide Inv, Enabled, Total;
    EntInHeap(t, i);
    CountingKnows(t, i);
    LedgerAt(t, t.ents[i].l);
    GoneNums(t.maxRef, t.heap[t.ents[i].l], Total(t.ents, t.ents[i].l));
    hide DoWeakCountLoad, CellOk;
    LoadAnswers(t, i, t.ents[i].l, t.ents[i].cur);
  }

  lemma LoadAnswers(t: State, i: Id, l: Loc, cur: nat)
    requires l in t.heap
    ensures DoWeakCountLoad(t, i, l, cur).out == GotCount(if t.heap[l].strong == 0 then 0 else Dec(t, cur))
  {
  }

  lemma CountingKnows(s: State, i: Id)
    requires Inv(s) && i in s.ents && s.ents[i].WeakCountLoad?
    ensures CountKnown(s.heap, s.ents[i])
  {
    hide LedgerOk;
    assert EntOk(s, i);
  }

  lemma GoneNums(maxRef: nat, c: Cell, n: Nums)
    requires CellOk(maxRef, c, n)
    ensures c.data.Gone? ==> c.strong == 0
  {
  }
}
