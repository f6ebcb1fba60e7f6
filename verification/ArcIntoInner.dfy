/** Who gets the value when every strong handle is consumed by `Arc::into_inner`. */
module ArcIntoInner {
  import opened ArcMachine
  import opened ArcLedger
  import opened ArcInvariant
  import opened ArcCounting
  import opened ArcSteps
  import opened ArcLockSteps
  import opened ArcMutSteps
  import opened ArcWeakSteps
  import opened ArcSafety
  import opened ArcOrigins
  import opened ArcRuns

  /** A step that may lead to the value at `l` being dropped in place, or moved to another allocation. */
  predicate GivesUp(s: State, a: Action, l: Loc) {
    (a.DropArc? || a.DropUnique? || a.MakeMut?) && a.h in s.ents && s.ents[a.h].l == l
  }

  /** No handle to `l` is dropped or given to `make_mut` in this run. */
  predicate Keeps(s: State, acts: seq<Action>, l: Loc)
    requires Runs(s, acts)
    decreases |acts|
  {
    acts == [] || (!GivesUp(s, acts[0], l) && Keeps(Step(s, acts[0]).s, acts[1..], l))
  }

  /** A step with which a call that has moved the value of `l` out answers its caller. */
  predicate IsAnswer(s: State, a: Action, l: Loc)
    requires Enabled(s, a)
  {
    a.Resume? && Step(s, a).out.GotValue? && a.h in s.ents && s.ents[a.h].l == l && IsReturning(s.ents[a.h])
  }

  /** How many callers have been given the value of `l` in this run. */
  function Answers(s: State, acts: seq<Action>, l: Loc): nat
    requires Runs(s, acts)
    decreases |acts|
  {
    if acts == [] then 0
    else (if IsAnswer(s, acts[0], l) then 1 else 0) + Answers(Step(s, acts[0]).s, acts[1..], l)
  }

  /** The calls that have moved the value of `l` out and have not answered yet. */
  function Returning(m: map<Id, Ent>, l: Loc): set<Id> {
    set i | i in m && m[i].l == l && IsReturning(m[i])
  }

  // ---------- the value is not dropped in place ----------

  predicate KeptEnt(e: Ent, l: Loc) {
    e.l == l ==> !e.Destroy? && !IsMake(e)
  }

  predicate KeptCell(c: Cell) { c.drops == 0 && c.steals == 0 }

  /** The value at `l` was not dropped in place or moved by `make_mut`, and nothing is about to do so. */
  ghost predicate Kept(s: State, l: Loc) {
    KeptCell(At(s, l)) && forall i | i in s.ents :: KeptEnt(s.ents[i], l)
  }

  lemma EntsKept(s: State, a: Action, l: Loc)
    requires Enabled(s, a) && !GivesUp(s, a, l) && forall i | i in s.ents :: KeptEnt(s.ents[i], l)
    ensures forall i | i in Step(s, a).s.ents :: KeptEnt(Step(s, a).s.ents[i], l)
  {
    StepExplained(s, a);
    hide Enabled, Step;
  }

  /** The history of `l` across a step that is not about its value. */
  ghost predicate SameAt(s: State, t: State, l: Loc) {
    At(t, l).drops == At(s, l).drops && At(t, l).steals == At(s, l).steals && At(t, l).handed == At(s, l).handed
  }

  lemma WriteSame(s: State, a: Action, l: Loc)
    requires a.Write? || a.UniqueWrite? || a.CyclicInit? || a.IntoArc?
    requires Enabled(s, a)
    ensures SameAt(s, Step(s, a).s, l)
  {
    hide Unborrowed, Aborting;
  }

  lemma PublishSame(s: State, a: Action, l: Loc)
    requires Enabled(s, a) && a.Resume? && a.h in s.ents
    requires s.ents[a.h].CyclicPublish? || s.ents[a.h].MakeStore? || s.ents[a.h].MakeCloneInit?
    ensures SameAt(s, Step(s, a).s, l)
  {
    hide Unborrowed, Aborting, Inc;
  }

  lemma ElsewhereSame(s: State, a: Action, l: Loc)
    requires Enabled(s, a) && (a.DropUnique? || a.Resume?) && a.h in s.ents && s.ents[a.h].l != l
    requires a.DropUnique? || s.ents[a.h].Destroy? || s.ents[a.h].MoveOut? || s.ents[a.h].MakeMove?
    ensures SameAt(s, Step(s, a).s, l)
  {
    hide Unborrowed, Aborting;
  }

  lemma MoveOutCounts(s: State, i: Id, l: Loc)
    ensures var t := DoMoveOut(s, i, l).s;
            && At(t, l).drops == At(s, l).drops && At(t, l).steals == At(s, l).steals
            && At(t, l).handed == At(s, l).handed + 1
            && i in t.ents && t.ents[i].l == l && IsReturning(t.ents[i])
  {
  }

  predicate MovesOut(s: State, a: Action, l: Loc) {
    a.Resume? && a.h in s.ents && s.ents[a.h] == MoveOut(l)
  }

  lemma TameSame(s: State, t: State, l: Loc)
    requires Tame(s, t)
    ensures SameAt(s, t, l)
  {
  }

  lemma CellKept(s: State, a: Action, l: Loc)
    requires Inv(s) && Enabled(s, a) && !GivesUp(s, a, l) && (forall i | i in s.ents :: KeptEnt(s.ents[i], l))
    ensures !MovesOut(s, a, l) ==> SameAt(s, Step(s, a).s, l)
    ensures MovesOut(s, a, l) ==> Step(s, a) == DoMoveOut(s, a.h, l)
  {
    hide Inv, Enabled, Step, Tame, SameAt;
    if !Special(s, a) {
      StepTame(s, a);
      TameSame(s, Step(s, a).s, l);
    } else {
      SpecialActor(s, a);
      if MovesOut(s, a, l) {
        MoveOutStep(s, a, l);
      } else if a.Write? || a.UniqueWrite? || a.CyclicInit? || a.IntoArc? {
        WriteSame(s, a, l);
      } else if a.Resume? && (s.ents[a.h].CyclicPublish? || s.ents[a.h].MakeStore? || s.ents[a.h].MakeCloneInit?) {
        PublishSame(s, a, l);
      } else {
        assert KeptEnt(s.ents[a.h], l);
        ElsewhereSame(s, a, l);
      }
    }
  }

  lemma MoveOutStep(s: State, a: Action, l: Loc)
    requires Enabled(s, a) && MovesOut(s, a, l)
    ensures Step(s, a) == DoMoveOut(s, a.h, l)
  {
    hide Enabled, DoMoveOut;
  }

  lemma SpecialActor(s: State, a: Action)
    requires Enabled(s, a) && Special(s, a)
    ensures a.h in s.ents
  {
    hide Unborrowed, Aborting;
  }

  // ---------- who is about to answer ----------

  /** Only a step that moves the value out, or the next access of a call that has it, changes who is about to
      answer. */
  lemma ReturningSame(s: State, a: Action, l: Loc)
    requires Inv(s) && Enabled(s, a) && (forall i | i in s.ents :: KeptEnt(s.ents[i], l)) && !MovesOut(s, a, l)
    requires !(a.Resume? && a.h in Returning(s.ents, l))
    ensures Returning(Step(s, a).s.ents, l) == Returning(s.ents, l)
  {
    StepExplained(s, a);
    hide Inv, Enabled, Step;
    var t := Step(s, a).s;
    forall i | i in Returning(s.ents, l) ensures i in Returning(t.ents, l) {
      CallKept(s, a, i);
    }
    forall i | i in Returning(t.ents, l) ensures i in Returning(s.ents, l) {
      assert (i in s.ents && t.ents[i] == s.ents[i]) || Origin(s, a, t.ents[i]);
    }
  }

  lemma OthersReturning(s: State, a: Action, l: Loc)
    requires Inv(s) && Enabled(s, a) && a.Resume? && a.h in s.ents
    ensures forall i | i != a.h :: i in Returning(s.ents, l) ==> i in Returning(Step(s, a).s.ents, l)
    ensures forall i | i != a.h && i != s.next :: i in Returning(Step(s, a).s.ents, l) ==> i in Returning(s.ents, l)
    ensures s.next !in s.ents
  {
    hide Inv, Enabled, Step;
    NewId(s);
    StepOnlyAt(s, a);
    var t := Step(s, a).s;
    forall i | i in Returning(s.ents, l) && i != a.h ensures i in Returning(t.ents, l) {
      CallKept(s, a, i);
    }
  }

  lemma EndNamesNothing(s: State, a: Action)
    requires Enabled(s, a) && a.Resume? && a.h in s.ents && s.next !in s.ents && MayReturn(s.ents[a.h])
    ensures s.next !in Step(s, a).s.ents
  {
    hide Unborrowed, Aborting, At, Dec;
  }

  lemma AnswerStep(s: State, a: Action, l: Loc)
    requires Enabled(s, a) && a.Resume? && a.h in s.ents && s.ents[a.h].l == l && IsReturning(s.ents[a.h])
    ensures var t := Step(s, a).s;
            if IsAnswer(s, a, l) then a.h !in t.ents
            else a.h in t.ents && t.ents[a.h].l == l && IsReturning(t.ents[a.h])
  {
    hide Unborrowed, Aborting, At, Access, Dec;
  }

  lemma Without(a: set<Id>, h: Id)
    ensures |a| == |a - {h}| + if h in a then 1 else 0
  {
    if h in a {
      assert a == (a - {h}) + {h};
    } else {
      assert a - {h} == a;
    }
  }

  lemma CountChange(a: set<Id>, b: set<Id>, h: Id)
    requires forall i | i != h :: i in a <==> i in b
    ensures |b| == |a| + (if h in b then 1 else 0) - (if h in a then 1 else 0)
  {
    Without(a, h);
    Without(b, h);
    assert a - {h} == b - {h};
  }

  // ---------- the whole run ----------

  lemma StepKept(s: State, a: Action, l: Loc)
    requires Inv(s) && Enabled(s, a) && Kept(s, l) && !GivesUp(s, a, l)
    ensures Kept(Step(s, a).s, l)
    ensures At(Step(s, a).s, l).handed + |Returning(s.ents, l)|
         == At(s, l).handed + |Returning(Step(s, a).s.ents, l)| + if IsAnswer(s, a, l) then 1 else 0
  {
    EntsKept(s, a, l);
    CellKept(s, a, l);
    hide Inv, Enabled, Step, GivesUp, Returning;
    var t := Step(s, a).s;
    if MovesOut(s, a, l) || (a.Resume? && a.h in Returning(s.ents, l)) {
      ResumeCounts(s, a, l);
    } else {
      ReturningSame(s, a, l);
      NoAnswer(s, a, l);
    }
  }

  lemma NoAnswer(s: State, a: Action, l: Loc)
    requires Enabled(s, a) && !(a.Resume? && a.h in Returning(s.ents, l))
    ensures !IsAnswer(s, a, l)
  {
    hide Enabled, Step;
  }

  lemma ResumeCounts(s: State, a: Action, l: Loc)
    requires Inv(s) && Enabled(s, a) && (MovesOut(s, a, l) || (a.Resume? && a.h in Returning(s.ents, l)))
    requires !MovesOut(s, a, l) ==> SameAt(s, Step(s, a).s, l)
    requires MovesOut(s, a, l) ==> Step(s, a) == DoMoveOut(s, a.h, l)
    ensures At(Step(s, a).s, l).handed + |Returning(s.ents, l)|
         == At(s, l).handed + |Returning(Step(s, a).s.ents, l)| + if IsAnswer(s, a, l) then 1 else 0
    ensures At(Step(s, a).s, l).drops == At(s, l).drops && At(Step(s, a).s, l).steals == At(s, l).steals
  {
    hide Inv, Enabled, Step, DoMoveOut, At;
    var t := Step(s, a).s;
    OthersReturning(s, a, l);
    EndNamesNothing(s, a);
    CountChange(Returning(s.ents, l), Returning(t.ents, l), a.h);
    if MovesOut(s, a, l) {
      MoveOutCounts(s, a.h, l);
    } else {
      AnswerStep(s, a, l);
    }
  }

  lemma {:induction false} RunKept(s: State, acts: seq<Action>, l: Loc)
    requires Inv(s) && Runs(s, acts) && Keeps(s, acts, l) && Kept(s, l)
    ensures Kept(Exec(s, acts), l)
    ensures At(Exec(s, acts), l).handed + |Returning(s.ents, l)|
         == At(s, l).handed + |Returning(Exec(s, acts).ents, l)| + Answers(s, acts, l)
    decreases |acts|
  {
    hide Inv, Enabled, Step, Kept, GivesUp, Returning, At, IsAnswer;
    if acts != [] {
      StepKept(s, acts[0], l);
      StepInv(s, acts[0]);
      RunKept(Step(s, acts[0]).s, acts[1..], l);
    }
  }

  lemma NotYetKept(s: State, l: Loc)
    requires Inv(s) && l !in s.heap
    ensures Kept(s, l) && Returning(s.ents, l) == {} && At(s, l).handed == 0
  {
    hide LedgerOk;
    forall i | i in s.ents ensures KeptEnt(s.ents[i], l) && s.ents[i].l != l {
      assert EntOk(s, i);
    }
  }

  lemma NoOwnerNums(maxRef: nat, c: Cell, n: Nums)
    requires CellOk(maxRef, c, n) && StrongRefs(n) == 0 && OwnParts(n) == 0
    ensures c.drops + c.handed + c.steals == 1
  {
  }

  lemma KeptHistory(t: State, l: Loc)
    requires Kept(t, l) && l in t.heap
    ensures t.heap[l].drops == 0 && t.heap[l].steals == 0 && At(t, l) == t.heap[l]
  {
  }

  /** If no handle to an allocation is ever dropped or given to `make_mut`, then once all strong owners are
      gone, however they interleaved, the value was never dropped in place, and exactly one `into_inner` or
      `try_unwrap` has answered with it or is about to. */
  lemma IntoInnerHandsOver(s: State, acts: seq<Action>, l: Loc)
    requires Reachable(s) && l !in s.heap && Runs(s, acts) && Keeps(s, acts, l)
    requires l in Exec(s, acts).heap
    requires StrongOwners(Exec(s, acts).ents, l) == {} && ImplicitHolders(Exec(s, acts).ents, l) == {}
    ensures var c := Exec(s, acts).heap[l]; c.handed == 1 && c.drops == 0 && c.steals == 0
    ensures Answers(s, acts, l) + |Returning(Exec(s, acts).ents, l)| == 1
  {
    hide Inv, Enabled, Step, Kept, GivesUp, Reachable, StrongOwners, ImplicitHolders, CellOk, Total, Returning, Answers,
      At;
    ReachableInv(s);
    NotYetKept(s, l);
    RunKept(s, acts, l);
    ExecInv(s, acts);
    var t := Exec(s, acts);
    LedgerAt(t, l);
    StrongCounted(t, l);
    ImplicitCounted(t.ents, l);
    NoOwnerNums(t.maxRef, t.heap[l], Total(t.ents, l));
    KeptHistory(t, l);
  }

  /** When the last call has answered, exactly one caller was given the value. */
  lemma ExactlyOneAnswer(s: State, acts: seq<Action>, l: Loc)
    requires Reachable(s) && l !in s.heap && Runs(s, acts) && Keeps(s, acts, l)
    requires l in Exec(s, acts).heap
    requires forall i | i in Exec(s, acts).ents && Mentions(Exec(s, acts).ents[i], l) :: Exec(s, acts).ents[i].Weak?
    ensures Answers(s, acts, l) == 1
  {
    hide Inv, Enabled, Step, Reachable, Exec, Runs, Keeps, Answers;
    OnlyWeaks(Exec(s, acts).ents, l);
    IntoInnerHandsOver(s, acts, l);
  }

  lemma OnlyWeaks(m: map<Id, Ent>, l: Loc)
    requires forall i | i in m && Mentions(m[i], l) :: m[i].Weak?
    ensures StrongOwners(m, l) == {} && ImplicitHolders(m, l) == {} && Returning(m, l) == {}
  {
    forall i | i in m ensures !OwnsStrong(m[i], l) && !HoldsImplicit(m[i], l) && !(m[i].l == l && IsReturning(m[i])) {
    }
  }
}
