/** `Arc` and `Rc` on whole programs: they agree call by call, exactly as long as no counter passes the limit
    that `Arc` imposes. */
module ArcRcAgreeing {
  import opened ArcMachine
  import opened ArcLedger
  import opened ArcInvariant
  import opened ArcCounting
  import opened ArcSafety
  import opened ArcOutcomes
  import opened RcSpec
  import opened ArcRcAgreement
  import opened ArcRcRuns

  /** A call of `Arc` that runs undisturbed answers as `Rc` does, and leaves the same program behind, if and
      only if the counter it increments is not over the limit. */
  lemma AgreesExactlyBelowLimit(s: State, a: Action, copy: Value)
    requires Reachable(s) && Resting(s) && Enabled(s, a) && IsRcCall(a)
    ensures Agrees(s, a, copy) <==> BelowLimit(s, a)
  {
    hide Reachable, Resting, Enabled, Ready, Plays, Step, RcStep, DoResume, Script;
    if BelowLimit(s, a) {
      CallAgrees(s, a, copy);
    } else {
      HandleKind(s, a);
      Prepared(s, a.h);
      ReadyBase(s, s.ents[a.h].l, a.h);
      AtHeap(s, s.ents[a.h].l);
      if Agrees(s, a, copy) {
        BeyondDiffers(s, a, copy);
      }
    }
  }

  lemma BeyondDiffers(s: State, a: Action, copy: Value)
    requires Enabled(s, a) && IsRcCall(a) && !BelowLimit(s, a) && a.h in s.ents
    requires At(s, s.ents[a.h].l).strong < Max(s) && At(s, s.ents[a.h].l).weak < Max(s)
    ensures !Agrees(s, a, copy)
  {
    hide Enabled, Plays, Step, RcStep, DoResume, ReleaseActs;
    if Agrees(s, a, copy) {
      var r := RcStep(s, a, copy);
      if a.Downgrade? || a.Upgrade? {
        LoopBeyond(s, a, copy);
        PlaysTwo(s, a, Resume(s.next, false, copy), r);
        ResumeIs(Step(s, a).s, s.next, copy);
        assert false;
      } else {
        CloneBeyond(s, a, copy);
        PlaysAtLimit(s, a, r);
        assert false;
      }
    }
  }

  lemma ResumeIs(t: State, i: Id, copy: Value)
    requires Enabled(t, Resume(i, false, copy))
    ensures i in t.ents && IsCall(t.ents[i])
    ensures Step(t, Resume(i, false, copy)) == DoResume(t, i, false, copy)
  {
    hide DoResume, Aborting, Unborrowed;
  }

  // ---------- the steps of a script are a run ----------

  /** The last step of a run. */
  function Play(s: State, acts: seq<Action>): Result
    requires acts != [] && Runs(s, acts)
    decreases |acts|
  {
    if |acts| == 1 then Step(s, acts[0]) else Play(Step(s, acts[0]).s, acts[1..])
  }

  lemma {:induction false} PlaysIsRun(s: State, acts: seq<Action>, r: Result)
    requires Plays(s, acts, r)
    ensures Runs(s, acts) && Play(s, acts) == r && Exec(s, acts) == r.s
    decreases |acts|
  {
    hide Enabled, Step;
    if |acts| > 1 {
      PlaysIsRun(Step(s, acts[0]).s, acts[1..], r);
    } else {
      var t := Step(s, acts[0]).s;
      assert acts[1..] == [];
      assert Runs(t, []) && Exec(t, []) == t;
    }
  }

  // ---------- whole programs ----------

  /** A call, and what the user's `Clone` would produce in it. */
  datatype Call = Call(a: Action, copy: Value)

  predicate HasActor(s: State, a: Action) { IsMaking(a) || a.h in s.ents }

  /** The calls, made one after another, are calls of the `Rc` library on handles that exist. */
  predicate RcRuns(s: State, calls: seq<Call>)
    decreases |calls|
  {
    calls != [] ==>
      && Enabled(s, calls[0].a) && IsRcCall(calls[0].a)
      && RcRuns(RcStep(s, calls[0].a, calls[0].copy).s, calls[1..])
  }

  function RcExec(s: State, calls: seq<Call>): State
    requires RcRuns(s, calls)
    decreases |calls|
  {
    if calls == [] then s else RcExec(RcStep(s, calls[0].a, calls[0].copy).s, calls[1..])
  }

  function RcOuts(s: State, calls: seq<Call>): seq<Out>
    requires RcRuns(s, calls)
    decreases |calls|
  {
    if calls == [] then []
    else
      var r := RcStep(s, calls[0].a, calls[0].copy);
      [r.out] + RcOuts(r.s, calls[1..])
  }

  predicate StaysBelow(s: State, calls: seq<Call>)
    requires RcRuns(s, calls)
    decreases |calls|
  {
    calls != [] ==>
      BelowLimit(s, calls[0].a) && StaysBelow(RcStep(s, calls[0].a, calls[0].copy).s, calls[1..])
  }

  /** The same calls of `Arc`, each run to its end before the next begins. */
  predicate ArcRuns(s: State, calls: seq<Call>)
    decreases |calls|
  {
    calls != [] ==>
      && HasActor(s, calls[0].a)
      && Script(s, calls[0].a, calls[0].copy) != [] && Runs(s, Script(s, calls[0].a, calls[0].copy))
      && ArcRuns(Exec(s, Script(s, calls[0].a, calls[0].copy)), calls[1..])
  }

  function ArcExec(s: State, calls: seq<Call>): State
    requires ArcRuns(s, calls)
    decreases |calls|
  {
    if calls == [] then s else ArcExec(Exec(s, Script(s, calls[0].a, calls[0].copy)), calls[1..])
  }

  function ArcOuts(s: State, calls: seq<Call>): seq<Out>
    requires ArcRuns(s, calls)
    decreases |calls|
  {
    if calls == [] then []
    else
      var acts := Script(s, calls[0].a, calls[0].copy);
      [Play(s, acts).out] + ArcOuts(Exec(s, acts), calls[1..])
  }

  // ---------- no call is in progress after a call of Rc ----------

  lemma RestingPut(s: State, i: Id, e: Ent)
    requires Resting(s) && !IsCall(e)
    ensures Resting(Put(s, i, e)) && Resting(Del(s, i))
  {
  }

  lemma ShapesResting(s: State)
    requires Resting(s)
    ensures forall t: State, i, e {:trigger Put(t, i, e)} :: t.ents == s.ents && !IsCall(e) ==> Resting(Put(t, i, e))
    ensures forall t: State, i {:trigger Del(t, i)} :: t.ents == s.ents ==> Resting(Del(t, i))
    ensures forall t: State {:trigger Resting(t)} :: t.ents == s.ents ==> Resting(t)
    ensures forall l, c :: Access(s, l, c).ents == s.ents
    ensures forall l, c :: DataAccess(s, l, c).ents == s.ents
  {
    forall t: State, i, e | t.ents == s.ents && !IsCall(e) ensures Resting(Put(t, i, e)) {
      RestingPut(t, i, e);
    }
    forall t: State, i | t.ents == s.ents ensures Resting(Del(t, i)) {
      RestingPut(t, i, Strong(0));
    }
  }

  lemma RcResting(s: State, a: Action, copy: Value)
    requires Resting(s) && Enabled(s, a) && IsRcCall(a)
    ensures Resting(RcStep(s, a, copy).s)
  {
    ShapesResting(s);
    hide Resting, Access, DataAccess, At, Put, Del, Up, Down, WeakDropped, StrongDropped, MovedOut, Stolen, Destroyed,
      Aborting, Unborrowed, IsAlone, Peek;
  }

  // ---------- the agreement ----------

  lemma CallRuns(s: State, a: Action, copy: Value)
    requires Agrees(s, a, copy)
    ensures HasActor(s, a)
    ensures var acts := Script(s, a, copy);
            acts != [] && Runs(s, acts) && Play(s, acts) == RcStep(s, a, copy) && Exec(s, acts) == RcStep(s, a, copy).s
  {
    hide Enabled, Step, RcStep, Runs, Exec, Play;
    PlaysIsRun(s, Script(s, a, copy), RcStep(s, a, copy));
  }

  /** Every sequence of calls that keeps the counters below the limit gives the same answers in the same
      order, and the same handles, counters, values, drops and deallocations, in `Arc` as in `Rc`. */
  lemma {:induction false} ArcAgreesWithRc(s: State, calls: seq<Call>)
    requires Reachable(s) && Resting(s) && RcRuns(s, calls) && StaysBelow(s, calls)
    ensures ArcRuns(s, calls) && ArcExec(s, calls) == RcExec(s, calls) && ArcOuts(s, calls) == RcOuts(s, calls)
    ensures Reachable(RcExec(s, calls)) && Resting(RcExec(s, calls))
    decreases |calls|
  {
    hide Reachable, Resting, Enabled, IsRcCall, RcStep, Script, Runs, Exec, Play, Agrees, BelowLimit;
    if calls != [] {
      var a, copy := calls[0].a, calls[0].copy;
      CallAgrees(s, a, copy);
      CallRuns(s, a, copy);
      ReachableRun(s, Script(s, a, copy));
      RcResting(s, a, copy);
      ArcAgreesWithRc(RcStep(s, a, copy).s, calls[1..]);
    }
  }

  lemma InitResting(maxRef: nat, threads: nat)
    requires threads < maxRef
    ensures Reachable(Init(maxRef, threads)) && Resting(Init(maxRef, threads))
  {
    hide Enabled, Step;
    var s := Init(maxRef, threads);
    assert Runs(s, []) && Exec(s, []) == s;
  }

  predicate Unmentioned(m: map<Id, Ent>, l: Loc) {
    forall i | i in m :: !Mentions(m[i], l)
  }

  /** What `Rc` inherits: its counters count its handles, no access ever misses, and every value leaves its
      allocation once and every allocation is freed once. */
  lemma RcCountsHandles(maxRef: nat, calls: seq<Call>, l: Loc)
    requires 1 < maxRef && RcRuns(Init(maxRef, 1), calls) && StaysBelow(Init(maxRef, 1), calls)
    ensures var t := RcExec(Init(maxRef, 1), calls);
            !t.ub && (l in t.heap ==>
              && t.heap[l].strong == |StrongOwners(t.ents, l)|
              && t.heap[l].weak == |WeakHandles(t.ents, l)|
                   + (if StrongOwners(t.ents, l) != {} || ImplicitHolders(t.ents, l) != {} then 1 else 0)
              && t.heap[l].drops + t.heap[l].handed + t.heap[l].steals <= 1
              && (t.heap[l].freed <==> t.heap[l].frees == 1)
              && (Unmentioned(t.ents, l) ==>
                    t.heap[l].frees == 1 && t.heap[l].drops + t.heap[l].handed + t.heap[l].steals == 1))
  {
    hide Reachable, Resting, Enabled, RcRuns, RcExec, StaysBelow, StrongOwners, WeakHandles, ImplicitHolders, Mentions;
    var s := Init(maxRef, 1);
    InitResting(maxRef, 1);
    ArcAgreesWithRc(s, calls);
    var t := RcExec(s, calls);
    MemorySafe(t, l);
    if l in t.heap {
      CountersCount(t, l);
      RestingUnlocked(t, l);
      if Unmentioned(t.ents, l) {
        NothingLeaks(t, l);
      }
    }
  }
}
