/** When a published strong count of 0 is permanent. */
module ArcRevival {
  import opened ArcMachine
  import opened ArcLedger
  import opened ArcInvariant
  import opened ArcCounting
  import opened ArcSteps
  import opened ArcLockSteps
  import opened ArcMutSteps
  import opened ArcWeakSteps
  import opened ArcSafety
  import opened ArcOrigins
  import opened ArcRuns
  import opened ArcOutcomes
  import opened ArcUpgrade

  /** A clone of a Weak of `l` that is about to abort: its reference is never given back. */
  predicate AbortingWeakAt(m: map<Id, Ent>, l: Loc) {
    exists j | j in m :: m[j].AbortWeak? && m[j].l == l
  }

  /** A `make_mut` that may still find itself alone, or has. */
  predicate MayRestore(m: map<Id, Ent>, l: Loc, i: Id) {
    i in m && m[i].l == l && (m[i].MakeStore? || (m[i].MakeWeakLoad? && !AbortingWeakAt(m, l)))
  }

  /** The program can go on, and such a `make_mut` is in flight. */
  ghost predicate Revivable(s: State, l: Loc) {
    !s.aborted && |Aborting(s.ents)| < s.threads && exists i :: MayRestore(s.ents, l, i)
  }

  // ---------- without such a call, the 0 stays ----------

  lemma NotAborting(s: State, a: Action)
    requires Enabled(s, a) && !Step(s, a).s.aborted
    ensures !s.aborted && |Aborting(s.ents)| < s.threads && !(a.Resume? && a.h in s.ents && IsAbort(s.ents[a.h]))
  {
    hide Unborrowed, Aborting, Step;
    if a.Resume? && a.h in s.ents && IsAbort(s.ents[a.h]) {
      AbortStep(s, a);
    }
  }

  lemma AbortStep(s: State, a: Action)
    requires Enabled(s, a) && a.Resume? && a.h in s.ents && IsAbort(s.ents[a.h])
    ensures Step(s, a).s == s.(aborted := true)
  {
    hide Unborrowed, Aborting;
  }

  lemma AbortingKept(s: State, a: Action, l: Loc)
    requires Inv(s) && Enabled(s, a) && !Step(s, a).s.aborted && AbortingWeakAt(s.ents, l)
    ensures AbortingWeakAt(Step(s, a).s.ents, l)
  {
    hide Inv, Enabled, Step;
    NotAborting(s, a);
    var j :| j in s.ents && s.ents[j].AbortWeak? && s.ents[j].l == l;
    CallKept(s, a, j);
  }

  lemma AloneNoAbort(s: State, i: Id, l: Loc)
    requires Inv(s) && i in s.ents && s.ents[i].MakeWeakLoad? && s.ents[i].l == l && At(s, l).weak == 1
    ensures !AbortingWeakAt(s.ents, l)
  {
    hide Inv, Total;
    if AbortingWeakAt(s.ents, l) {
      var j :| j in s.ents && s.ents[j].AbortWeak? && s.ents[j].l == l;
      SoleAndWeak(s, i, j, l);
    }
  }

  /** A holder of the implicit weak reference and an explicit Weak make two. */
  lemma SoleAndWeak(s: State, i: Id, j: Id, l: Loc)
    requires Inv(s) && i in s.ents && s.ents[i].MakeWeakLoad? && s.ents[i].l == l
    requires j in s.ents && (s.ents[j].Weak? || s.ents[j].AbortWeak?) && s.ents[j].l == l
    ensures l in s.heap && s.heap[l].weak >= 2 && !s.heap[l].freed && s.heap[l].weak != 1
  {
    hide Inv, Total, CellOk, AtMost, Contrib;
    Facts(s, i);
    Facts(s, j);
    SoleParts(s.ents[i], s.ents[j]);
    TwoWeakNums(s.maxRef, s.heap[l], Total(s.ents, l), Contrib(s.ents[i], l), Contrib(s.ents[j], l));
  }

  lemma SoleParts(e: Ent, w: Ent)
    requires e.MakeWeakLoad? && (w.Weak? || w.AbortWeak?)
    ensures Contrib(e, e.l).so.sole > 0 && Contrib(w, w.l).we.expl > 0
  {
  }

  lemma TwoWeakNums(maxRef: nat, c: Cell, n: Nums, a: Nums, b: Nums)
    requires CellOk(maxRef, c, n) && AtMost(a, n) && AtMost(b, n) && a.so.sole > 0 && b.we.expl > 0
    ensures c.weak >= 2 && !c.freed
  {
  }

  lemma DeadHasNoStrong(s: State, h: Id, l: Loc)
    requires Inv(s) && Dead(s, l) && h in s.ents && s.ents[h].l == l
    ensures !s.ents[h].Strong?
  {
    hide Inv;
    if s.ents[h].Strong? {
      PlainHasStrong(s, h);
    }
  }

  /** A call that may restore the count of a dead `l` was there before the step. */
  lemma RestorerWasThere(s: State, a: Action, l: Loc, i: Id)
    requires Inv(s) && Enabled(s, a) && Dead(s, l) && !Step(s, a).s.aborted && MayRestore(Step(s, a).s.ents, l, i)
    ensures exists j :: MayRestore(s.ents, l, j)
  {
    hide Inv, Enabled, Step, Dead, AbortingWeakAt;
    StepExplained(s, a);
    var t := Step(s, a).s;
    var e := t.ents[i];
    if i in s.ents && s.ents[i] == e {
      if AbortingWeakAt(s.ents, l) {
        AbortingKept(s, a, l);
      }
      assert MayRestore(s.ents, l, i);
    } else {
      assert Origin(s, a, e);
      if e.MakeStore? {
        AloneNoAbort(s, a.h, l);
        assert MayRestore(s.ents, l, a.h);
      } else {
        MakerIsStrong(s, a);
        DeadHasNoStrong(s, a.h, l);
      }
    }
  }

  lemma MakerIsStrong(s: State, a: Action)
    requires Enabled(s, a) && a.MakeMut?
    ensures a.h in s.ents && s.ents[a.h].Strong?
  {
    hide Unborrowed, Aborting;
  }

  lemma StaysDead(s: State, a: Action, l: Loc)
    requires Inv(s) && Enabled(s, a) && Dead(s, l) && !Revivable(s, l)
    ensures Dead(Step(s, a).s, l) && !Revivable(Step(s, a).s, l)
  {
    hide Inv, Enabled, Step, Dead, MayRestore, Aborting, IsAbort;
    DeadStep(s, a, l);
    var t := Step(s, a).s;
    if Restores(s, a, l) {
      StoreIsEnabled(s, a);
      assert MayRestore(s.ents, l, a.h) by {
        StoreMayRestore(s.ents, l, a.h);
      }
    }
    if Revivable(t, l) {
      NotAborting(s, a);
      var i :| MayRestore(t.ents, l, i);
      RestorerWasThere(s, a, l, i);
    }
  }

  lemma StoreMayRestore(m: map<Id, Ent>, l: Loc, i: Id)
    requires i in m && m[i].MakeStore? && m[i].l == l
    ensures MayRestore(m, l, i)
  {
  }

  lemma StoreIsEnabled(s: State, a: Action)
    requires Enabled(s, a) && a.Resume? && a.h in s.ents && s.ents[a.h].MakeStore?
    ensures !s.aborted && |Aborting(s.ents)| < s.threads
  {
    hide Unborrowed, Aborting;
  }

  lemma {:induction false} StaysDeadRun(s: State, acts: seq<Action>, l: Loc)
    requires Inv(s) && Runs(s, acts) && Dead(s, l) && !Revivable(s, l)
    ensures Dead(Exec(s, acts), l)
    decreases |acts|
  {
    hide Inv, Enabled, Step, Dead, Revivable;
    if acts != [] {
      StaysDead(s, acts[0], l);
      StepInv(s, acts[0]);
      StaysDeadRun(Step(s, acts[0]).s, acts[1..], l);
    }
  }

  // ---------- with such a call, it can come back ----------

  predicate IsReader(e: Ent) { e.UpgradeLoop? || e.WeakCountLoad? }

  /** An upgrade that has just loaded 0. */
  function Reloaded(e: Ent): Ent { if e.UpgradeLoop? then UpgradeLoop(e.h, e.l, 0) else e }

  function Stale(m: map<Id, Ent>, l: Loc): set<Id> {
    set j | j in m && m[j].l == l && m[j].UpgradeLoop? && m[j].cur != 0
  }

  function Readers(m: map<Id, Ent>, l: Loc): set<Id> {
    set j | j in m && m[j].l == l && IsReader(m[j])
  }

  function Weaks(m: map<Id, Ent>, l: Loc): set<Id> {
    set j | j in m && m[j].l == l && m[j].Weak?
  }

  /** The steps it takes to be rid of all Weak handles of `l`. */
  function Work(m: map<Id, Ent>, l: Loc): nat {
    |Stale(m, l)| + |Readers(m, l)| + |Weaks(m, l)|
  }

  lemma SetLess(a: set<Id>, b: set<Id>)
    requires a <= b
    ensures |a| <= |b| && (a != b ==> |a| < |b|)
  {
    assert b == a + (b - a);
    if a != b {
      var x :| x in b - a;
      assert |b - a| > 0;
    }
  }

  lemma WorkDel(m: map<Id, Ent>, l: Loc, j: Id)
    requires j in m && m[j].l == l && (IsReader(m[j]) || m[j].Weak?)
    ensures Work(m - {j}, l) < Work(m, l)
  {
    var m' := m - {j};
    SetLess(Stale(m', l), Stale(m, l));
    SetLess(Readers(m', l), Readers(m, l));
    SetLess(Weaks(m', l), Weaks(m, l));
    if IsReader(m[j]) {
      assert j in Readers(m, l) && j !in Readers(m', l);
    } else {
      assert j in Weaks(m, l) && j !in Weaks(m', l);
    }
  }

  lemma WorkFresh(m: map<Id, Ent>, l: Loc, j: Id)
    requires j in m && m[j].l == l && m[j].UpgradeLoop? && m[j].cur != 0
    ensures Work(m[j := Reloaded(m[j])], l) < Work(m, l)
  {
    var m' := m[j := Reloaded(m[j])];
    SetLess(Stale(m', l), Stale(m, l));
    assert j in Stale(m, l) && j !in Stale(m', l);
    assert Readers(m', l) == Readers(m, l);
    assert Weaks(m', l) == Weaks(m, l);
  }

  /** `make_mut` is between its two accesses, nothing is about to abort with a Weak of `l`, and the program
      can go on. */
  ghost predicate Waiting(s: State, l: Loc, i: Id) {
    && Inv(s) && Dead(s, l) && !s.aborted && |Aborting(s.ents)| < s.threads
    && i in s.ents && s.ents[i].MakeWeakLoad? && s.ents[i].l == l && !AbortingWeakAt(s.ents, l)
  }

  lemma ReaderStep(s: State, j: Id, l: Loc)
    requires j in s.ents && s.ents[j].l == l && IsReader(s.ents[j]) && !s.aborted
    requires l in s.heap && s.heap[l].strong == 0
    ensures var t := DoResume(s, j, false, 0).s;
            && !t.aborted && t.threads == s.threads
            && (t.ents == s.ents - {j}
                || (s.ents[j].UpgradeLoop? && s.ents[j].cur != 0 && t.ents == s.ents[j := Reloaded(s.ents[j])]))
  {
  }

  lemma DropStep(s: State, w: Id, l: Loc)
    requires w in s.ents && s.ents[w] == Weak(l) && l in s.heap && s.heap[l].weak >= 2
    ensures var t := DoDropWeak(s, w, l).s;
            t.ents == s.ents - {w} && t.aborted == s.aborted && t.threads == s.threads
  {
  }

  /** Taking away something that is neither the call nor about to abort keeps it waiting. */
  lemma StillWaiting(s: State, a: Action, l: Loc, i: Id, j: Id, m: map<Id, Ent>)
    requires Waiting(s, l, i) && Enabled(s, a)
    requires j in s.ents && s.ents[j].l == l && (s.ents[j].Weak? || IsReader(s.ents[j]))
    requires a == if s.ents[j].Weak? then DropWeak(j) else Resume(j, false, 0)
    requires Step(s, a).s.ents == m && !Step(s, a).s.aborted && Step(s, a).s.threads == s.threads
    requires m == s.ents - {j} || (s.ents[j].UpgradeLoop? && m == s.ents[j := Reloaded(s.ents[j])])
    ensures Waiting(Step(s, a).s, l, i)
  {
    hide Inv, Enabled, Step, Dead;
    StepInv(s, a);
    DeadStep(s, a, l);
    AbortingFewer(s.ents, m, j);
  }

  lemma AbortingFewer(m: map<Id, Ent>, m': map<Id, Ent>, j: Id)
    requires j in m && (m' == m - {j} || (m[j].UpgradeLoop? && m' == m[j := Reloaded(m[j])]))
    ensures |Aborting(m')| <= |Aborting(m)|
  {
    if m' == m - {j} {
      AbortingDel(m, j);
    } else {
      AbortingPut(m, j, Reloaded(m[j]));
    }
  }

  lemma ReaderEnabled(s: State, j: Id)
    requires !s.aborted && |Aborting(s.ents)| < s.threads && j in s.ents && IsCall(s.ents[j])
    ensures Enabled(s, Resume(j, false, 0)) && Step(s, Resume(j, false, 0)) == DoResume(s, j, false, 0)
  {
    hide Aborting, DoResume;
  }

  lemma DropEnabled(s: State, w: Id)
    requires Inv(s) && !s.aborted && |Aborting(s.ents)| < s.threads && w in s.ents && s.ents[w].Weak?
    requires Readers(s.ents, s.ents[w].l) == {}
    ensures Enabled(s, DropWeak(w)) && Step(s, DropWeak(w)) == DoDropWeak(s, w, s.ents[w].l)
  {
    forall j | j in s.ents ensures Borrowed(s.ents[j]) != Some(w) {
      BorrowerKnown(s, j);
      assert j !in Readers(s.ents, s.ents[w].l);
    }
    hide Inv, Aborting, DoDropWeak;
  }

  lemma BorrowerKnown(s: State, j: Id)
    requires Inv(s) && j in s.ents
    ensures BorrowOk(s.ents, s.ents[j])
  {
    hide LedgerOk;
    assert EntOk(s, j);
  }

  lemma NoWeakLeftMeansAlone(s: State, l: Loc, i: Id)
    requires Waiting(s, l, i) && Weaks(s.ents, l) == {}
    ensures l in s.heap && s.heap[l].weak == 1
  {
    hide Inv, Total, CellOk, AtMost, Contrib;
    Facts(s, i);
    ExplicitCounted(s.ents, l);
    NoWeaks(s.ents, l);
    SolePart(s.ents[i]);
    AloneNums(s.maxRef, s.heap[l], Total(s.ents, l), Contrib(s.ents[i], l));
  }

  lemma NoWeaks(m: map<Id, Ent>, l: Loc)
    requires Weaks(m, l) == {} && !AbortingWeakAt(m, l)
    ensures WeakHandles(m, l) == {}
  {
    forall j | j in m ensures j !in WeakHandles(m, l) {
      assert j !in Weaks(m, l);
    }
  }

  lemma SolePart(e: Ent)
    requires e.MakeWeakLoad?
    ensures Contrib(e, e.l).so.sole > 0
  {
  }

  lemma AloneNums(maxRef: nat, c: Cell, n: Nums, a: Nums)
    requires CellOk(maxRef, c, n) && AtMost(a, n) && a.so.sole > 0 && n.we.expl == 0
    ensures c.weak == 1
  {
  }

  /** With no Weak left, the last two accesses of `make_mut` restore the count. */
  lemma RestoresNow(s: State, l: Loc, i: Id) returns (acts: seq<Action>)
    requires Waiting(s, l, i) && Weaks(s.ents, l) == {}
    ensures Runs(s, acts) && l in Exec(s, acts).heap && Exec(s, acts).heap[l].strong == 1
  {
    hide Inv, Dead, Aborting, Runs, Exec, Enabled, Step, DoResume;
    NoWeakLeftMeansAlone(s, l, i);
    var a := Resume(i, false, 0);
    ReaderEnabled(s, i);
    SeesAlone(s, i, l);
    StoresNow(Step(s, a).s, l, i);
    acts := [a, a];
    TwoSteps(s, a, a);
  }

  lemma SeesAlone(s: State, i: Id, l: Loc)
    requires i in s.ents && s.ents[i].MakeWeakLoad? && s.ents[i].l == l && l in s.heap && s.heap[l].weak == 1
    requires !s.aborted && |Aborting(s.ents)| < s.threads
    ensures var t := DoResume(s, i, false, 0).s;
            && !t.aborted && t.threads == s.threads && i in t.ents && t.ents[i].MakeStore? && t.ents[i].l == l
            && |Aborting(t.ents)| < t.threads
  {
    var t := DoResume(s, i, false, 0).s;
    AbortingPut(s.ents, i, t.ents[i]);
    assert t.ents == s.ents[i := t.ents[i]];
    hide Aborting;
  }

  lemma StoresNow(s: State, l: Loc, i: Id)
    requires i in s.ents && s.ents[i].MakeStore? && s.ents[i].l == l && !s.aborted && |Aborting(s.ents)| < s.threads
    ensures Enabled(s, Resume(i, false, 0))
    ensures var t := Step(s, Resume(i, false, 0)).s; l in t.heap && t.heap[l].strong == 1
  {
    ReaderEnabled(s, i);
    RestoreStep(s, Resume(i, false, 0), l);
    hide Aborting, Enabled, Step;
  }

  lemma TwoSteps(s: State, a: Action, b: Action)
    requires Enabled(s, a) && Enabled(Step(s, a).s, b)
    ensures Runs(s, [a, b]) && Exec(s, [a, b]) == Step(Step(s, a).s, b).s
  {
    hide Enabled, Step;
    var s1 := Step(s, a).s;
    assert [a, b][1..] == [b] && [b][1..] == [];
    OneStep(s1, b);
  }

  lemma OneMore(s: State, a: Action, acts: seq<Action>)
    requires Enabled(s, a) && Runs(Step(s, a).s, acts)
    ensures Runs(s, [a] + acts) && Exec(s, [a] + acts) == Exec(Step(s, a).s, acts)
  {
    hide Enabled, Step;
    assert ([a] + acts)[1..] == acts;
  }

  /** One step towards having no Weak of `l`. */
  lemma LessWork(s: State, l: Loc, i: Id) returns (a: Action)
    requires Waiting(s, l, i) && Weaks(s.ents, l) != {}
    ensures Enabled(s, a) && Waiting(Step(s, a).s, l, i) && Work(Step(s, a).s.ents, l) < Work(s.ents, l)
  {
    hide Inv, Aborting, Enabled, Step, DoResume, DoDropWeak, Work, AbortingWeakAt;
    if Readers(s.ents, l) != {} {
      var j :| j in Readers(s.ents, l);
      a := Resume(j, false, 0);
      ReaderEnabled(s, j);
      ReaderStep(s, j, l);
      WorkDel(s.ents, l, j);
      if s.ents[j].UpgradeLoop? && s.ents[j].cur != 0 {
        WorkFresh(s.ents, l, j);
      }
      StillWaiting(s, a, l, i, j, Step(s, a).s.ents);
    } else {
      var w :| w in Weaks(s.ents, l);
      a := DropWeak(w);
      SoleAndWeak(s, i, w, l);
      DropEnabled(s, w);
      DropStep(s, w, l);
      WorkDel(s.ents, l, w);
      StillWaiting(s, a, l, i, w, Step(s, a).s.ents);
    }
  }

  /** All Weak handles of `l` can be dropped, after the calls that borrow them have ended. */
  lemma {:induction false} CanRestore(s: State, l: Loc, i: Id) returns (acts: seq<Action>)
    requires Waiting(s, l, i)
    ensures Runs(s, acts) && l in Exec(s, acts).heap && Exec(s, acts).heap[l].strong == 1
    decreases Work(s.ents, l)
  {
    hide Waiting, Enabled, Step, Runs, Exec, Work;
    if Weaks(s.ents, l) == {} {
      acts := RestoresNow(s, l, i);
    } else {
      var a := LessWork(s, l, i);
      var rest := CanRestore(Step(s, a).s, l, i);
      acts := [a] + rest;
      OneMore(s, a, rest);
    }
  }

  lemma CanRevive(s: State, l: Loc) returns (acts: seq<Action>)
    requires Inv(s) && Dead(s, l) && Revivable(s, l)
    ensures Runs(s, acts) && !Dead(Exec(s, acts), l)
  {
    hide Inv, Runs, Exec, Enabled, Step, Aborting;
    var i :| MayRestore(s.ents, l, i);
    if s.ents[i].MakeStore? {
      StoresNow(s, l, i);
      acts := [Resume(i, false, 0)];
      OneStep(s, acts[0]);
    } else {
      acts := CanRestore(s, l, i);
    }
  }

  /** A published strong count of 0 stays 0 in every continuation if and only if no `make_mut` is in flight
      that has found itself alone, or still may: between taking the count to 0 and loading `weak`, with no
      Weak of it stuck in an aborting clone. */
  lemma ZeroIsPermanent(s: State, l: Loc)
    requires Reachable(s) && Dead(s, l)
    ensures (forall acts | Runs(s, acts) :: Dead(Exec(s, acts), l)) <==> !Revivable(s, l)
  {
    hide Inv, Reachable, Dead, Revivable, Runs, Exec;
    ReachableInv(s);
    if Revivable(s, l) {
      var acts := CanRevive(s, l);
      assert Runs(s, acts);
    } else {
      forall acts | Runs(s, acts) ensures Dead(Exec(s, acts), l) {
        StaysDeadRun(s, acts, l);
      }
    }
  }
}
