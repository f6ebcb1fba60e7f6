/** The remaining answers of `Arc`, in every reachable state and whatever else is in flight: which of its
    outcomes a first access has, stated about handles, and which value a read returns. */
module ArcAnswers {
  import opened ArcMachine
  import opened ArcLedger
  import opened ArcInvariant
  import opened ArcCounting
  import opened ArcSteps
  import opened ArcLockSteps
  import opened ArcMutSteps
  import opened ArcWeakSteps
  import opened ArcSafety
  import opened ArcRuns
  import opened ArcOutcomes

  // ---------- the strong count ----------

  lemma StrongSays(s: State, h: Id)
    requires Reachable(s) && h in s.ents
    ensures var l := s.ents[h].l;
            && l in s.heap && s.heap[l].strong == |StrongOwners(s.ents, l)| && s.heap[l].strong < Max(s)
            && (s.ents[h].Strong? ==> (s.heap[l].strong == 1 <==> StrongOwners(s.ents, l) == {h}))
            && (s.ents[h].Strong? ==> s.heap[l].strong >= 1)
  {
    hide Inv, Reachable, StrongOwners, WeakHandles, ImplicitHolders, Locked;
    var l := s.ents[h].l;
    ReachableInv(s);
    EntInHeap(s, h);
    CountersCount(s, l);
    CountersDoNotWrap(s, l);
    if s.ents[h].Strong? {
      OwnerListed(s, h);
      Alone(StrongOwners(s.ents, l), h);
    }
  }

  lemma Alone(a: set<Id>, h: Id)
    requires h in a
    ensures |a| >= 1 && (|a| == 1 <==> a == {h})
  {
    assert a == (a - {h}) + {h};
    if |a| == 1 {
      assert |a - {h}| == 0;
    }
  }

  lemma IsOnStrong(s: State, a: Action)
    requires Enabled(s, a) && (a.CloneArc? || a.DropArc? || a.TryUnwrap? || a.IntoInner? || a.MakeMut?)
    ensures a.h in s.ents && s.ents[a.h] == Strong(s.ents[a.h].l)
  {
    hide Unborrowed, Aborting;
  }

  /** `strong_count` is the number of strong owners, whichever kind of handle it is asked on. */
  lemma StrongCountAnswer(s: State, h: Id)
    requires Reachable(s) && Enabled(s, StrongCount(h)) && h in s.ents
    ensures Step(s, StrongCount(h)).out == GotCount(|StrongOwners(s.ents, s.ents[h].l)|)
  {
    StrongSays(s, h);
    hide Reachable, Unborrowed, Aborting, StrongOwners;
  }

  /** `clone` gives a new handle as long as there are not too many; else it is about to abort, and does. */
  lemma CloneAnswer(s: State, h: Id)
    requires Reachable(s) && Enabled(s, CloneArc(h)) && h in s.ents
    ensures var l, r := s.ents[h].l, Step(s, CloneArc(h));
            if |StrongOwners(s.ents, l)| <= s.maxRef
            then r.out == GotHandle(s.next) && r.s.ents == s.ents[s.next := Strong(l)]
            else r.out == Pending && r.s.ents == s.ents[s.next := AbortStrong(l)]
  {
    StrongSays(s, h);
    hide Reachable, Unborrowed, Aborting, StrongOwners;
  }

  lemma AbortAnswer(s: State, a: Action)
    requires Enabled(s, a) && a.Resume? && a.h in s.ents && IsAbort(s.ents[a.h])
    ensures Step(s, a).out == Aborted && Step(s, a).s.aborted
  {
    hide Unborrowed, Aborting;
  }

  /** `drop` is over at once unless this was the only strong owner, which then destroys the value. */
  lemma DropAnswer(s: State, h: Id)
    requires Reachable(s) && Enabled(s, DropArc(h)) && h in s.ents
    ensures var l, r := s.ents[h].l, Step(s, DropArc(h));
            if StrongOwners(s.ents, l) == {h} then r.out == Pending && r.s.ents == s.ents[h := Destroy(l, Done)]
            else r.out == Unit && r.s.ents == s.ents - {h}
  {
    IsOnStrong(s, DropArc(h));
    StrongSays(s, h);
    hide Reachable, Unborrowed, Aborting, StrongOwners, Dec;
  }

  /** `into_inner` has nothing unless this was the only strong owner. */
  lemma IntoInnerAnswer(s: State, h: Id)
    requires Reachable(s) && Enabled(s, IntoInner(h)) && h in s.ents
    ensures var l, r := s.ents[h].l, Step(s, IntoInner(h));
            if StrongOwners(s.ents, l) == {h} then r.out == Pending && r.s.ents == s.ents[h := MoveOut(l)]
            else r.out == GotNone && r.s.ents == s.ents - {h}
  {
    IsOnStrong(s, IntoInner(h));
    StrongSays(s, h);
    hide Reachable, Unborrowed, Aborting, StrongOwners, Dec;
  }

  /** `try_unwrap` gives the handle back, and changes nothing, unless this was the only strong owner. */
  lemma TryUnwrapAnswers(s: State, h: Id)
    requires Reachable(s) && Enabled(s, TryUnwrap(h)) && h in s.ents
    ensures var l, r := s.ents[h].l, Step(s, TryUnwrap(h));
            if StrongOwners(s.ents, l) == {h} then r.out == Pending && r.s.ents == s.ents[h := MoveOut(l)]
            else r.out == Refused(h) && r.s.ents == s.ents && r.s.heap == s.heap
  {
    IsOnStrong(s, TryUnwrap(h));
    StrongSays(s, h);
    hide Reachable, Unborrowed, Aborting, StrongOwners;
    assert s.heap[s.ents[h].l := s.heap[s.ents[h].l]] == s.heap;
  }

  // ---------- the weak count ----------

  /** The explicit Weak references, and the implicit one. */
  function WeakReferences(m: map<Id, Ent>, l: Loc): nat {
    |WeakHandles(m, l)| + if StrongOwners(m, l) != {} || ImplicitHolders(m, l) != {} then 1 else 0
  }

  predicate HasWeak(e: Ent) { IsWeakRef(e) || e.Unique? }

  lemma WeakSays(s: State, h: Id)
    requires Reachable(s) && h in s.ents && HasWeak(s.ents[h])
    ensures s.ents[h].l in s.heap && s.heap[s.ents[h].l].weak == WeakReferences(s.ents, s.ents[h].l) < Max(s)
  {
    hide Inv, Reachable, StrongOwners, WeakHandles, ImplicitHolders, Locked;
    ReachableInv(s);
    EntInHeap(s, h);
    CountersCount(s, s.ents[h].l);
    CountersDoNotWrap(s, s.ents[h].l);
    WeakListed(s.ents, h);
  }

  lemma WeakListed(m: map<Id, Ent>, h: Id)
    requires h in m && HasWeak(m[h])
    ensures h in WeakHandles(m, m[h].l) || h in ImplicitHolders(m, m[h].l)
  {
  }

  /** `Weak::clone` and `UniqueArc::downgrade` give a new Weak as long as there are not too many references;
      else they are about to abort. */
  lemma CloneWeakAnswer(s: State, a: Action)
    requires Reachable(s) && Enabled(s, a) && (a.CloneWeak? || a.UniqueDowngrade?) && a.h in s.ents
    ensures var l, r := s.ents[a.h].l, Step(s, a);
            if WeakReferences(s.ents, l) <= s.maxRef
            then r.out == GotHandle(s.next) && r.s.ents == s.ents[s.next := Weak(l)]
            else r.out == Pending && r.s.ents == s.ents[s.next := AbortWeak(l)]
  {
    WeakActor(s, a);
    WeakSays(s, a.h);
    hide Reachable, Unborrowed, Aborting, WeakReferences;
  }

  lemma WeakActor(s: State, a: Action)
    requires Enabled(s, a) && (a.CloneWeak? || a.UniqueDowngrade? || a.DropWeak?)
    ensures a.h in s.ents && HasWeak(s.ents[a.h])
  {
    hide Unborrowed, Aborting;
  }

  /** `Weak::drop` is over at once unless this was the last reference of any kind, which then frees the
      memory. */
  lemma DropWeakAnswer(s: State, h: Id)
    requires Reachable(s) && Enabled(s, DropWeak(h)) && h in s.ents
    ensures var l, r := s.ents[h].l, Step(s, DropWeak(h));
            if WeakReferences(s.ents, l) == 1 then r.out == Pending && r.s.ents == s.ents[h := Dealloc(l, Done)]
            else r.out == Unit && r.s.ents == s.ents - {h}
  {
    WeakActor(s, DropWeak(h));
    WeakSays(s, h);
    hide Reachable, Unborrowed, Aborting, WeakReferences;
  }

  // ---------- the value ----------

  /** The handle `k` shows `v`. */
  predicate HoldsValue(s: State, k: Id, v: Value) {
    && k in s.ents && (s.ents[k].Strong? || s.ents[k].Unique? || s.ents[k].MutRef?)
    && Shows(s.heap, s.ents[k].l, v)
  }

  /** Steps that write through `k`, or take it away from its owner. */
  predicate Disturbs(a: Action, k: Id) {
    !(a.New? || a.NewCyclic? || a.NewUnique?) && a.h == k
    && (a.Write? || a.UniqueWrite? || a.DropArc? || a.GetMut? || a.MakeMut? || a.TryUnwrap? || a.IntoInner?
        || a.DropUnique?)
  }

  predicate Undisturbed(acts: seq<Action>, k: Id) {
    forall j | 0 <= j < |acts| :: !Disturbs(acts[j], k)
  }

  lemma ReadAnswer(s: State, k: Id, v: Value)
    requires HoldsValue(s, k, v) && Enabled(s, Read(k))
    ensures Step(s, Read(k)).out == GotValue(v)
  {
    hide Aborting;
  }

  /** A new value, and one written, is what the handle shows. */
  lemma WrittenIsHeld(s: State, a: Action, v: Value)
    requires Enabled(s, a)
    requires a == New(v) || a == NewUnique(v) || (a.Write? && a.v == v) || (a.UniqueWrite? && a.v == v)
    ensures HoldsValue(Step(s, a).s, Actor(s, a), v)
  {
    hide Aborting, At;
  }

  /** Reading, borrowing and ending a borrow leave the handle with its value. */
  lemma OwnStepHolds(s: State, a: Action, k: Id)
    requires Enabled(s, a) && k in s.ents && s.next !in s.ents && Actor(s, a) == k && !Disturbs(a, k) && k != s.next
    requires s.ents[k].Strong? || s.ents[k].Unique? || s.ents[k].MutRef?
    ensures var t := Step(s, a).s;
            && k in t.ents && t.ents[k].l == s.ents[k].l
            && (t.ents[k] == s.ents[k] || (t.ents[k].Strong? && (a.EndMut? || a.IntoArc?)))
  {
    hide Unborrowed, Aborting, At, Max, Inc, WeakHandles;
  }

  lemma OwnsAlone(e: Ent)
    requires e.Unique? || e.MutRef?
    ensures Owners(Contrib(e, e.l)) > 0
  {
  }

  lemma ActorIsNotOwner(s: State, a: Action, k: Id, l: Loc)
    requires Inv(s) && Enabled(s, a) && Special(s, a) && a.h != k && l in s.heap
    requires k in s.ents && s.ents[k].l == l && (s.ents[k].Strong? || s.ents[k].Unique? || s.ents[k].MutRef?)
    ensures a.h in s.ents && Owners(Contrib(s.ents[a.h], l)) == 0
  {
    SpecialIsThere(s, a);
    hide Enabled, Total, CellOk, Owners, Contrib, Special;
    if s.ents[k].Strong? {
      LedgerAt(s, l);
      StrongHolds(s, k);
      SharedNums(s.maxRef, s.heap[l], Total(s.ents, l));
      NobodyOwns(s, a, l);
    } else {
      OwnsAlone(s.ents[k]);
      assert LedgerOk(s, l);
      hide LedgerOk;
      OwnerAlone(s, k, a.h, l);
    }
  }

  lemma SpecialIsThere(s: State, a: Action)
    requires Enabled(s, a) && Special(s, a)
    ensures a.h in s.ents
  {
    hide Unborrowed, Aborting;
  }

  lemma DataKept(s: State, a: Action, k: Id)
    requires Inv(s) && Enabled(s, a) && !Disturbs(a, k)
    requires k in s.ents && s.ents[k].l in s.heap && (s.ents[k].Strong? || s.ents[k].Unique? || s.ents[k].MutRef?)
    ensures var l := s.ents[k].l; l in Step(s, a).s.heap && Step(s, a).s.heap[l].data == s.heap[l].data
  {
    hide Inv, Enabled, Step, Contrib, Owners;
    var l := s.ents[k].l;
    if Special(s, a) {
      SpecialIsThere(s, a);
      if a.h == k {
        OwnSpecial(s, a);
      } else {
        ActorIsNotOwner(s, a, k, l);
      }
    }
    StepHarmless(s, a, l);
  }

  /** The only special step of a handle at rest that does not disturb it is its publication. */
  lemma OwnSpecial(s: State, a: Action)
    requires Enabled(s, a) && Special(s, a) && a.h in s.ents && !Disturbs(a, a.h)
    requires s.ents[a.h].Strong? || s.ents[a.h].Unique? || s.ents[a.h].MutRef?
    ensures Revives(s, a, s.ents[a.h].l)
  {
    hide Unborrowed, Aborting;
  }

  lemma ValueKept(s: State, a: Action, k: Id, v: Value)
    requires Inv(s) && Enabled(s, a) && HoldsValue(s, k, v) && !Disturbs(a, k)
    ensures HoldsValue(Step(s, a).s, k, v)
  {
    hide Inv, Enabled, Step, Disturbs;
    NewId(s);
    DataKept(s, a, k);
    if Actor(s, a) == k {
      OwnStepHolds(s, a, k);
    } else {
      StepOnlyAt(s, a);
    }
  }

  lemma {:induction false} ValueKeptRun(s: State, acts: seq<Action>, k: Id, v: Value)
    requires Inv(s) && Runs(s, acts) && HoldsValue(s, k, v) && Undisturbed(acts, k)
    ensures HoldsValue(Exec(s, acts), k, v)
    decreases |acts|
  {
    hide Inv, Enabled, Step, HoldsValue, Disturbs;
    if acts != [] {
      ValueKept(s, acts[0], k, v);
      StepInv(s, acts[0]);
      assert Undisturbed(acts[1..], k) by {
        assert forall j | 0 <= j < |acts[1..]| :: acts[1..][j] == acts[j + 1];
      }
      ValueKeptRun(Step(s, acts[0]).s, acts[1..], k, v);
    }
  }

  /** A value that was put behind a handle is what every later read through it returns, whatever other handles
      and calls do, as long as nothing is written through it and it is not taken away. */
  lemma ReadsWhatWasWritten(s: State, a: Action, v: Value, acts: seq<Action>)
    requires Reachable(s) && Enabled(s, a)
    requires a == New(v) || a == NewUnique(v) || (a.Write? && a.v == v) || (a.UniqueWrite? && a.v == v)
    requires Runs(Step(s, a).s, acts) && Undisturbed(acts, Actor(s, a))
    requires Enabled(Exec(Step(s, a).s, acts), Read(Actor(s, a)))
    ensures Step(Exec(Step(s, a).s, acts), Read(Actor(s, a))).out == GotValue(v)
  {
    hide Inv, Reachable, Enabled, Step, Runs, Exec, HoldsValue, Undisturbed, Actor;
    ReachableInv(s);
    StepInv(s, a);
    WrittenIsHeld(s, a, v);
    ValueKeptRun(Step(s, a).s, acts, Actor(s, a), v);
    ReadAnswer(Exec(Step(s, a).s, acts), Actor(s, a), v);
  }
}
