/** What `Arc::is_unique` and `Arc::get_mut` answer, with anything happening between their accesses. */
module ArcUniqueness {
  import opened ArcMachine
  import opened ArcLedger
  import opened ArcInvariant
  import opened ArcCounting
  import opened ArcSteps
  import opened ArcLockSteps
  import opened ArcMutSteps
  import opened ArcWeakSteps
  import opened ArcSafety
  import opened ArcOutcomes
  import opened ArcRcRuns
  import opened RcAnswers

  /** `l` has one strong owner and no explicit Weak. */
  predicate Unshared(m: map<Id, Ent>, l: Loc) {
    |StrongOwners(m, l)| == 1 && WeakHandles(m, l) == {}
  }

  /** The next access of the call `i`. */
  predicate Resumes(a: Action, i: Id) { a.Resume? && a.h == i }

  // ---------- the first access ----------

  lemma WeakIsOne(s: State, h: Id)
    requires Reachable(s) && h in s.ents && s.ents[h].Strong?
    ensures s.ents[h].l in s.heap
    ensures s.heap[s.ents[h].l].weak == 1 <==>
              WeakHandles(s.ents, s.ents[h].l) == {} && !Locked(s.ents, s.ents[h].l)
  {
    hide Inv, Reachable, StrongOwners, WeakHandles, ImplicitHolders, Locked;
    ReachableInv(s);
    InvConfig(s);
    EntInHeap(s, h);
    CountersCount(s, s.ents[h].l);
    OwnerListed(s, h);
    EmptySet(WeakHandles(s.ents, s.ents[h].l));
  }

  /** `is_unique` answers false at once if and only if there is a Weak, or another check holds the lock. */
  lemma IsUniqueAtOnce(s: State, h: Id)
    requires Reachable(s) && Enabled(s, IsUnique(h)) && h in s.ents
    ensures var l, r := s.ents[h].l, Step(s, IsUnique(h));
            if WeakHandles(s.ents, l) != {} || Locked(s.ents, l) then r.out == GotBool(false)
            else r.out == Pending && s.next in r.s.ents && r.s.ents == s.ents[s.next := UniqueLoad(h, l)]
  {
    ActorStrong(s, IsUnique(h));
    WeakIsOne(s, h);
    hide Reachable, Unborrowed, Aborting, WeakHandles, Locked;
  }

  lemma ActorStrong(s: State, a: Action)
    requires Enabled(s, a) && (a.IsUnique? || a.GetMut?)
    ensures a.h in s.ents && s.ents[a.h].Strong?
  {
    hide Unborrowed, Aborting;
  }

  lemma GetMutAtOnce(s: State, h: Id)
    requires Reachable(s) && Enabled(s, GetMut(h)) && h in s.ents
    ensures var l, r := s.ents[h].l, Step(s, GetMut(h));
            if WeakHandles(s.ents, l) != {} || Locked(s.ents, l) then r.out == GotNone
            else r.out == Pending && r.s.ents == s.ents[h := GetMutLoad(l)]
  {
    ActorStrong(s, GetMut(h));
    WeakIsOne(s, h);
    hide Reachable, Unborrowed, Aborting, WeakHandles, Locked;
  }

  // ---------- the second and the third ----------

  lemma LoadUnderLock(u: State, a: Action, i: Id)
    requires Reachable(u) && Enabled(u, a) && Resumes(a, i) && i in u.ents
    requires u.ents[i].UniqueLoad? || u.ents[i].GetMutLoad?
    ensures var e, r := u.ents[i], Step(u, a);
            && r.out == Pending && i in r.s.ents
            && (e.UniqueLoad? ==> r.s.ents[i] == UniqueStore(e.h, e.l, Unshared(u.ents, e.l)))
            && (e.GetMutLoad? ==> r.s.ents[i] == GetMutStore(e.l, Unshared(u.ents, e.l)))
  {
    UniquenessIsExact(u, i);
    hide Reachable, Aborting, WeakHandles, StrongOwners;
  }

  lemma UnlockAnswers(t: State, a: Action, i: Id)
    requires Enabled(t, a) && Resumes(a, i) && i in t.ents
    requires t.ents[i].UniqueStore? || t.ents[i].GetMutStore?
    ensures var e, r := t.ents[i], Step(t, a);
            && (e.UniqueStore? ==> r.out == GotBool(e.unique))
            && (e.GetMutStore? ==> r.out == if e.unique then GotMut else GotNone)
  {
    hide Aborting;
  }

  /** A check that got the lock answers, however long it takes and whatever happens in between, as things were
      in the state in which it loaded `strong`: whether there was one strong owner and no Weak. */
  lemma IsUniqueOverRun(s: State, h: Id, acts: seq<Action>, load: Action, acts': seq<Action>, store: Action)
    requires Reachable(s) && Enabled(s, IsUnique(h)) && h in s.ents && Step(s, IsUnique(h)).out == Pending
    requires Resumes(load, s.next) && Resumes(store, s.next)
    requires LeavesAlone(acts, s.next) && LeavesAlone(acts', s.next)
    requires var s1 := Step(s, IsUnique(h)).s; Runs(s1, acts) && Enabled(Exec(s1, acts), load)
    requires var u1 := Step(Exec(Step(s, IsUnique(h)).s, acts), load).s;
             Runs(u1, acts') && Enabled(Exec(u1, acts'), store)
    ensures var u := Exec(Step(s, IsUnique(h)).s, acts);
            var t := Exec(Step(u, load).s, acts');
            Step(u, load).out == Pending && Step(t, store).out == GotBool(Unshared(u.ents, s.ents[h].l))
  {
    hide Inv, Reachable, Enabled, Step, Runs, Exec, LeavesAlone, Unshared;
    var s1, i, l := Step(s, IsUnique(h)).s, s.next, s.ents[h].l;
    IsUniqueAtOnce(s, h);
    ReachableStep(s, IsUnique(h));
    ReachableInv(s1);
    CallKeptRun(s1, acts, i);
    ReachableRun(s1, acts);
    var u := Exec(s1, acts);
    LoadUnderLock(u, load, i);
    ReachableStep(u, load);
    var u1 := Step(u, load).s;
    ReachableInv(u1);
    CallKeptRun(u1, acts', i);
    UnlockAnswers(Exec(u1, acts'), store, i);
  }

  /** The same for `get_mut`, whose caller then has `&mut T`, or its handle back. */
  lemma GetMutOverRun(s: State, h: Id, acts: seq<Action>, load: Action, acts': seq<Action>, store: Action)
    requires Reachable(s) && Enabled(s, GetMut(h)) && h in s.ents && Step(s, GetMut(h)).out == Pending
    requires Resumes(load, h) && Resumes(store, h) && LeavesAlone(acts, h) && LeavesAlone(acts', h)
    requires var s1 := Step(s, GetMut(h)).s; Runs(s1, acts) && Enabled(Exec(s1, acts), load)
    requires var u1 := Step(Exec(Step(s, GetMut(h)).s, acts), load).s;
             Runs(u1, acts') && Enabled(Exec(u1, acts'), store)
    ensures var u := Exec(Step(s, GetMut(h)).s, acts);
            var t := Exec(Step(u, load).s, acts');
            && Step(u, load).out == Pending
            && Step(t, store).out == if Unshared(u.ents, s.ents[h].l) then GotMut else GotNone
  {
    hide Inv, Reachable, Enabled, Step, Runs, Exec, LeavesAlone, Unshared;
    var s1, l := Step(s, GetMut(h)).s, s.ents[h].l;
    GetMutAtOnce(s, h);
    ReachableStep(s, GetMut(h));
    ReachableInv(s1);
    CallKeptRun(s1, acts, h);
    ReachableRun(s1, acts);
    var u := Exec(s1, acts);
    LoadUnderLock(u, load, h);
    ReachableStep(u, load);
    var u1 := Step(u, load).s;
    ReachableInv(u1);
    CallKeptRun(u1, acts', h);
    UnlockAnswers(Exec(u1, acts'), store, h);
  }

  // ---------- with nothing else running ----------

  lemma CheckCountsNothing(m: map<Id, Ent>, i: Id, h: Id, l: Loc)
    requires i !in m
    ensures StrongOwners(m[i := UniqueLoad(h, l)], l) == StrongOwners(m, l)
    ensures WeakHandles(m[i := UniqueLoad(h, l)], l) == WeakHandles(m, l)
  {
    var m' := m[i := UniqueLoad(h, l)];
    assert !OwnsStrong(m'[i], l);
  }

  lemma CheckEnabled(s: State, t: State, i: Id, e: Ent)
    requires !s.aborted && |Aborting(s.ents)| < s.threads && IsCall(e) && !IsAbort(e) && i !in s.ents
    requires t.ents == s.ents[i := e] && t.aborted == s.aborted && t.threads == s.threads
    ensures Enabled(t, Resume(i, false, 0))
  {
    AbortingPut(s.ents, i, e);
    hide Aborting;
  }

  lemma CheckConfig(s: State, a: Action)
    requires Enabled(s, a) && a.IsUnique?
    ensures !s.aborted && |Aborting(s.ents)| < s.threads
    ensures Step(s, a).s.aborted == s.aborted && Step(s, a).s.threads == s.threads
  {
    hide Unborrowed, Aborting;
  }

  lemma LoadConfig(u: State, i: Id)
    requires Enabled(u, Resume(i, false, 0)) && i in u.ents && u.ents[i].UniqueLoad?
    ensures var e, t := u.ents[i], Step(u, Resume(i, false, 0)).s;
            && t.aborted == u.aborted && t.threads == u.threads
            && exists b :: t.ents == u.ents[i := UniqueStore(e.h, e.l, b)]
  {
    hide Aborting;
    var e, t := u.ents[i], Step(u, Resume(i, false, 0)).s;
    assert t.ents == u.ents[i := UniqueStore(e.h, e.l, At(u, e.l).strong == 1)];
  }

  /** An undisturbed `is_unique` answers whether the handle is the only one of any kind. */
  lemma IsUniqueAnswer(s: State, h: Id)
    requires Reachable(s) && Resting(s) && Enabled(s, IsUnique(h)) && h in s.ents
    ensures var r, next := Step(s, IsUnique(h)), Resume(s.next, false, 0);
            var alone := GotBool(Parties(s.ents, s.ents[h].l) == {h});
            if r.out != Pending then r.out == alone
            else && Enabled(r.s, next) && Enabled(Step(r.s, next).s, next)
                 && Step(Step(r.s, next).s, next).out == alone
  {
    hide Reachable, Resting, Enabled, Step, StrongOwners, WeakHandles, Parties, Locked, Aborting;
    var l, i, next := s.ents[h].l, s.next, Resume(s.next, false, 0);
    ReachableInv(s);
    NewId(s);
    hide Inv;
    CheckConfig(s, IsUnique(h));
    ActorStrong(s, IsUnique(h));
    CountersSay(s, h);
    RestingUnlocked(s, l);
    EmptySet(WeakHandles(s.ents, l));
    IsUniqueAtOnce(s, h);
    StrongIsCount(s, l);
    if WeakHandles(s.ents, l) == {} {
      var s1 := Step(s, IsUnique(h)).s;
      CheckEnabled(s, s1, i, UniqueLoad(h, l));
      CheckCountsNothing(s.ents, i, h, l);
      ReachableStep(s, IsUnique(h));
      LoadConfig(s1, i);
      var u := Step(s1, next).s;
      var b :| u.ents == s1.ents[i := UniqueStore(h, l, b)];
      assert u.ents == s.ents[i := UniqueStore(h, l, b)];
      CheckEnabled(s, u, i, UniqueStore(h, l, b));
      LoadUnderLock(s1, next, i);
      UnlockAnswers(u, next, i);
    }
  }

  lemma StrongIsCount(s: State, l: Loc)
    requires Reachable(s) && l in s.heap
    ensures s.heap[l].strong == |StrongOwners(s.ents, l)|
  {
    CountersCount(s, l);
    hide Reachable, StrongOwners, WeakHandles, ImplicitHolders, Locked;
  }
}
