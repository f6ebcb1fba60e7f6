/** Concrete runs that mark the limits of what `Arc` guarantees. */
module ArcWitnesses {
  import opened ArcMachine
  import opened ArcLedger

  // ---------- running a fixed sequence of actions ----------

  lemma NoBorrows(s: State, h: Id)
    requires forall i | i in s.ents :: Borrowed(s.ents[i]) == None
    ensures Unborrowed(s, h)
  {
  }

  /** Nothing is in flight that borrows a handle or is about to abort. */
  predicate Calm(s: State) {
    && !s.aborted && 0 < s.threads
    && forall i | i in s.ents :: !IsAbort(s.ents[i]) && Borrowed(s.ents[i]) == None
  }

  /** From `s` the actions can run, and lead to `t`. */
  predicate Leads(s: State, acts: seq<Action>, t: State) {
    Runs(s, acts) && Exec(s, acts) == t
  }

  lemma Then(s: State, a: Action, s1: State, acts: seq<Action>, t: State)
    requires Enabled(s, a) && Step(s, a).s == s1 && Leads(s1, acts, t)
    ensures Leads(s, [a] + acts, t)
  {
    hide Enabled, Step;
    assert ([a] + acts)[1..] == acts;
  }

  lemma ThenOwner(s: State, a: Action, s1: State, acts: seq<Action>, t: State)
    requires a.DropArc? || a.TryUnwrap? || a.MakeMut? || a.CloneArc? || a.Downgrade? || a.Upgrade? || a.DropWeak?
    requires Calm(s) && a.h in s.ents && (if a.Upgrade? || a.DropWeak? then s.ents[a.h].Weak? else s.ents[a.h].Strong?)
    requires Step(s, a).s == s1 && Leads(s1, acts, t)
    ensures Leads(s, [a] + acts, t)
  {
    NoAborts(s.ents);
    NoBorrows(s, a.h);
    Then(s, a, s1, acts, t);
    hide Step, Aborting, Unborrowed, Leads;
  }

  lemma ThenResume(s: State, h: Id, s1: State, acts: seq<Action>, t: State)
    requires !s.aborted && 0 < s.threads && (forall i | i in s.ents :: !IsAbort(s.ents[i]))
    requires h in s.ents && IsCall(s.ents[h])
    requires DoResume(s, h, false, 0).s == s1 && Leads(s1, acts, t)
    ensures Leads(s, [Resume(h, false, 0)] + acts, t)
  {
    NoAborts(s.ents);
    Then(s, Resume(h, false, 0), s1, acts, t);
    hide DoResume, Aborting, Leads;
  }

  /** One allocation, at 0. */
  function Alone(maxRef: nat, threads: nat, strong: nat, weak: nat, v: Value, ents: map<Id, Ent>, next: nat): State {
    State(maxRef, threads, map[0 := FreshCell(strong, weak, Live(v))], ents, next, {}, false, false)
  }

  lemma First(maxRef: nat, threads: nat, v: Value, acts: seq<Action>, t: State)
    requires 0 < threads && Leads(Alone(maxRef, threads, 1, 1, v, map[0 := Strong(0)], 1), acts, t)
    ensures Leads(Init(maxRef, threads), [New(v)] + acts, t)
  {
    NoAborts(Init(maxRef, threads).ents);
    hide Aborting, Leads;
    Then(Init(maxRef, threads), New(v), Alone(maxRef, threads, 1, 1, v, map[0 := Strong(0)], 1), acts, t);
  }

  // ---------- try_unwrap may lose the value ----------

  function Next(h: Id): Action { Resume(h, false, 0) }

  /** The last owner, 1, destroys the value and frees the memory. */
  function LastSteps(): seq<Action> { [Next(1)] + ([Next(1)] + ([Next(1)] + [])) }

  function BothDrop(): seq<Action> { [DropArc(0)] + ([DropArc(1)] + LastSteps()) }

  /** Two handles; each is passed to `try_unwrap` while the other is still there, and then dropped. */
  function LosingRun(v: Value): seq<Action> {
    [New(v)] + ([CloneArc(0)] + ([TryUnwrap(0)] + ([TryUnwrap(1)] + BothDrop())))
  }

  function Ended(maxRef: nat, threads: nat): State {
    State(maxRef, threads, map[0 := Cell(0, 0, Gone, true, 1, 0, 0, 1)], map[], 2, {}, false, false)
  }

  lemma Nothing(s: State)
    ensures Leads(s, [], s)
  {
  }

  lemma EndOfLife(maxRef: nat, threads: nat, v: Value)
    requires 0 < threads
    ensures Leads(Alone(maxRef, threads, 0, 1, v, map[1 := Destroy(0, Done)], 2), LastSteps(), Ended(maxRef, threads))
  {
    var s0 := Alone(maxRef, threads, 0, 1, v, map[1 := Destroy(0, Done)], 2);
    var s1 := s0.(heap := map[0 := Cell(0, 1, Gone, false, 1, 0, 0, 0)], ents := map[1 := ReleaseWeak(0, Done)]);
    var s2 := s0.(heap := map[0 := Cell(0, 0, Gone, false, 1, 0, 0, 0)], ents := map[1 := Dealloc(0, Done)]);
    var s3 := Ended(maxRef, threads);
    Destroying(s0, s1);
    Releasing(s1, s2);
    Freeing(s2, s3);
    Nothing(s3);
    hide Leads;
    hide DoResume;
    ThenResume(s2, 1, s3, [], s3);
    ThenResume(s1, 1, s2, [Next(1)] + [], s3);
    ThenResume(s0, 1, s1, [Next(1)] + ([Next(1)] + []), s3);
  }

  lemma Destroying(s: State, t: State)
    requires s.heap.Keys == {0} && s.ents == map[1 := Destroy(0, Done)]
    requires t == s.(heap := t.heap, ents := map[1 := ReleaseWeak(0, Done)]) && s.next == 2
    requires s.heap[0].data.Live? && !s.heap[0].freed
    requires t.heap == map[0 := s.heap[0].(data := Gone, drops := s.heap[0].drops + 1)]
    ensures DoResume(s, 1, false, 0).s == t
  {
    assert t.heap == s.heap[0 := t.heap[0]];
    assert t.ents == s.ents[1 := ReleaseWeak(0, Done)];
  }

  lemma Releasing(s: State, t: State)
    requires s.heap.Keys == {0} && s.ents == map[1 := ReleaseWeak(0, Done)]
    requires t == s.(heap := t.heap, ents := map[1 := Dealloc(0, Done)]) && s.next == 2
    requires s.heap[0].weak == 1 && !s.heap[0].freed && t.heap == map[0 := s.heap[0].(weak := 0)]
    ensures DoResume(s, 1, false, 0).s == t
  {
    assert t.heap == s.heap[0 := t.heap[0]];
    assert t.ents == s.ents[1 := Dealloc(0, Done)];
  }

  lemma Freeing(s: State, t: State)
    requires s.heap.Keys == {0} && s.ents == map[1 := Dealloc(0, Done)] && !s.heap[0].freed
    requires t == s.(heap := t.heap, ents := map[])
    requires t.heap == map[0 := s.heap[0].(freed := true, frees := s.heap[0].frees + 1)]
    ensures DoResume(s, 1, false, 0).s == t
  {
    assert t.heap == s.heap[0 := t.heap[0]];
    assert t.ents == s.ents - {1};
  }

  lemma Dropping(maxRef: nat, threads: nat, v: Value)
    requires 0 < threads
    ensures Leads(Alone(maxRef, threads, 2, 1, v, map[0 := Strong(0), 1 := Strong(0)], 2), BothDrop(),
                  Ended(maxRef, threads))
  {
    var two := Alone(maxRef, threads, 2, 1, v, map[0 := Strong(0), 1 := Strong(0)], 2);
    var one := Alone(maxRef, threads, 1, 1, v, map[1 := Strong(0)], 2);
    var zero := Alone(maxRef, threads, 0, 1, v, map[1 := Destroy(0, Done)], 2);
    EndOfLife(maxRef, threads, v);
    DropFirst(two, one);
    DropLast(one, zero);
    hide Leads, DoDropArc, LastSteps;
    ThenOwner(one, DropArc(1), zero, LastSteps(), Ended(maxRef, threads));
    ThenOwner(two, DropArc(0), one, [DropArc(1)] + LastSteps(), Ended(maxRef, threads));
  }

  lemma DropFirst(s: State, t: State)
    requires s.heap.Keys == {0} && s.ents == map[0 := Strong(0), 1 := Strong(0)] && s.next == 2
    requires s.heap[0].strong == 2 && !s.heap[0].freed
    requires t == s.(heap := t.heap, ents := map[1 := Strong(0)]) && t.heap == map[0 := s.heap[0].(strong := 1)]
    ensures DoDropArc(s, 0, 0).s == t
  {
    assert t.heap == s.heap[0 := t.heap[0]];
    assert t.ents == s.ents - {0};
  }

  lemma DropLast(s: State, t: State)
    requires s.heap.Keys == {0} && s.ents == map[1 := Strong(0)] && s.next == 2
    requires s.heap[0].strong == 1 && !s.heap[0].freed
    requires t == s.(heap := t.heap, ents := map[1 := Destroy(0, Done)]) && t.heap == map[0 := s.heap[0].(strong := 0)]
    ensures DoDropArc(s, 1, 0).s == t
  {
    assert t.heap == s.heap[0 := t.heap[0]];
    assert t.ents == s.ents[1 := Destroy(0, Done)];
  }

  lemma Refusing(s: State, h: Id)
    requires 0 in s.heap && s.heap[0].strong == 2 && !s.heap[0].freed && h in s.ents && s.ents[h] == Strong(0)
    ensures DoTryUnwrap(s, h, 0) == Result(s, Refused(h))
  {
    assert s.heap == s.heap[0 := s.heap[0]];
  }

  lemma Cloning(s: State, t: State)
    requires 1 <= s.maxRef && s.heap.Keys == {0} && s.ents == map[0 := Strong(0)] && s.next == 1
    requires s.heap[0].strong == 1 && !s.heap[0].freed
    requires t == s.(heap := t.heap, ents := map[0 := Strong(0), 1 := Strong(0)], next := 2)
    requires t.heap == map[0 := s.heap[0].(strong := 2)]
    ensures DoCloneArc(s, 0).s == t
  {
    assert t.heap == s.heap[0 := t.heap[0]];
    assert t.ents == s.ents[1 := Strong(0)];
  }

  /** Both calls of `try_unwrap` are refused, and the value is then dropped in place: no call returned it. */
  lemma TryUnwrapMayLose(maxRef: nat, threads: nat, v: Value)
    requires 0 < threads < maxRef
    ensures Leads(Init(maxRef, threads), LosingRun(v), Ended(maxRef, threads))
  {
    hide Leads;
    var start := Alone(maxRef, threads, 1, 1, v, map[0 := Strong(0)], 1);
    var two := Alone(maxRef, threads, 2, 1, v, map[0 := Strong(0), 1 := Strong(0)], 2);
    var last := Ended(maxRef, threads);
    Dropping(maxRef, threads, v);
    Refusing(two, 0);
    Refusing(two, 1);
    Cloning(start, two);
    hide DoTryUnwrap, DoCloneArc, BothDrop;
    ThenOwner(two, TryUnwrap(1), two, BothDrop(), last);
    ThenOwner(two, TryUnwrap(0), two, [TryUnwrap(1)] + BothDrop(), last);
    ThenOwner(start, CloneArc(0), two, [TryUnwrap(0)] + ([TryUnwrap(1)] + BothDrop()), last);
    First(maxRef, threads, v, [CloneArc(0)] + ([TryUnwrap(0)] + ([TryUnwrap(1)] + BothDrop())), last);
  }

  // ---------- a strong count of 0 may come back ----------

  function StealingRun(v: Value): seq<Action> {
    [New(v)] + ([Downgrade(0)] + ([Next(1)] + ([MakeMut(0)] + ([Upgrade(1)] + AfterUpgrade()))))
  }

  /** The upgrade returns None, its Weak is dropped, and `make_mut` finds itself alone after all. */
  function AfterUpgrade(): seq<Action> { [Next(2)] + ([DropWeak(1)] + ([Next(0)] + ([Next(0)] + []))) }

  /** A step from `s` to `t` that changes the counters of the one allocation, and the entities. */
  predicate Counts(s: State, t: State, strong: nat, weak: nat) {
    && s.heap.Keys == {0} && !s.heap[0].freed
    && t.heap == map[0 := s.heap[0].(strong := strong, weak := weak)]
    && t == s.(heap := t.heap, ents := t.ents, next := t.next)
  }

  predicate Going(s: State) { !s.aborted && 0 < s.threads }

  lemma Downgraded(s: State, t: State, acts: seq<Action>, last: State)
    requires s.ents == map[0 := Strong(0)] && s.next == 1 && Counts(s, t, 1, 1)
    requires s.heap[0].strong == s.heap[0].weak == 1
    requires t.ents == map[0 := Strong(0), 1 := DowngradeLoop(0, 0, 1)] && t.next == 2
    requires Going(s) && Leads(t, acts, last)
    ensures Leads(s, [Downgrade(0)] + acts, last)
  {
    hide Leads;
    assert t.heap == s.heap[0 := t.heap[0]];
    assert t.ents == s.ents[1 := DowngradeLoop(0, 0, 1)];
    assert DoDowngrade(s, 0, 0).s == t;
    hide DoDowngrade;
    ThenOwner(s, Downgrade(0), t, acts, last);
  }

  lemma GotWeak(s: State, t: State, acts: seq<Action>, last: State)
    requires s.ents == map[0 := Strong(0), 1 := DowngradeLoop(0, 0, 1)] && s.next == 2 && 1 <= s.maxRef
    requires Counts(s, t, 1, 2) && s.heap[0].strong == s.heap[0].weak == 1
    requires t.ents == map[0 := Strong(0), 1 := Weak(0)] && t.next == 2
    requires Going(s) && Leads(t, acts, last)
    ensures Leads(s, [Next(1)] + acts, last)
  {
    hide Leads;
    assert t.heap == s.heap[0 := t.heap[0]];
    assert t.ents == s.ents[1 := Weak(0)];
    assert DoResume(s, 1, false, 0).s == t;
    hide DoResume;
    ThenResume(s, 1, t, acts, last);
  }

  lemma TookLast(s: State, t: State, v: Value, acts: seq<Action>, last: State)
    requires s.ents == map[0 := Strong(0), 1 := Weak(0)] && s.next == 2 && s.heap.Keys == {0}
    requires Counts(s, t, 0, 2) && s.heap[0].strong == 1 && s.heap[0].weak == 2 && s.heap[0].data == Live(v)
    requires t.ents == map[0 := MakeWeakLoad(0, v), 1 := Weak(0)] && t.next == 2
    requires Going(s) && Leads(t, acts, last)
    ensures Leads(s, [MakeMut(0)] + acts, last)
  {
    hide Leads;
    assert t.heap == s.heap[0 := t.heap[0]];
    assert t.ents == s.ents[0 := MakeWeakLoad(0, v)];
    assert DoMakeMut(s, 0, 0).s == t;
    hide DoMakeMut;
    ThenOwner(s, MakeMut(0), t, acts, last);
  }

  lemma SawZero(s: State, t: State, v: Value, acts: seq<Action>, last: State)
    requires s.ents == map[0 := MakeWeakLoad(0, v), 1 := Weak(0)] && s.next == 2
    requires Counts(s, t, 0, 2) && s.heap[0].strong == 0 && s.heap[0].weak == 2
    requires t.ents == map[0 := MakeWeakLoad(0, v), 1 := Weak(0), 2 := UpgradeLoop(1, 0, 0)] && t.next == 3
    requires Going(s) && Leads(t, acts, last)
    ensures Leads(s, [Upgrade(1)] + acts, last)
  {
    hide Leads;
    assert t.heap == s.heap[0 := t.heap[0]];
    assert t.ents == s.ents[2 := UpgradeLoop(1, 0, 0)];
    assert DoUpgrade(s, 1, 0).s == t;
    hide DoUpgrade;
    ThenOwner(s, Upgrade(1), t, acts, last);
  }

  lemma UpgradeFailed(s: State, t: State, v: Value, acts: seq<Action>, last: State)
    requires s.ents == map[0 := MakeWeakLoad(0, v), 1 := Weak(0), 2 := UpgradeLoop(1, 0, 0)]
    requires t == s.(ents := map[0 := MakeWeakLoad(0, v), 1 := Weak(0)])
    requires Going(s) && Leads(t, acts, last)
    ensures Leads(s, [Next(2)] + acts, last)
  {
    hide Leads;
    assert t.ents == s.ents - {2};
    assert DoResume(s, 2, false, 0).s == t;
    hide DoResume;
    ThenResume(s, 2, t, acts, last);
  }

  lemma WeakDropped(s: State, t: State, v: Value, acts: seq<Action>, last: State)
    requires s.ents == map[0 := MakeWeakLoad(0, v), 1 := Weak(0)]
    requires Counts(s, t, 0, 1) && s.heap[0].strong == 0 && s.heap[0].weak == 2
    requires t.ents == map[0 := MakeWeakLoad(0, v)] && t.next == s.next
    requires Going(s) && Leads(t, acts, last)
    ensures Leads(s, [DropWeak(1)] + acts, last)
  {
    hide Leads;
    assert t.heap == s.heap[0 := t.heap[0]];
    assert t.ents == s.ents - {1};
    assert DoDropWeak(s, 1, 0).s == t;
    hide DoDropWeak;
    ThenOwner(s, DropWeak(1), t, acts, last);
  }

  lemma FoundAlone(s: State, t: State, v: Value, acts: seq<Action>, last: State)
    requires s.ents == map[0 := MakeWeakLoad(0, v)] && s.next > 0
    requires Counts(s, t, 0, 1) && s.heap[0].strong == 0 && s.heap[0].weak == 1
    requires t.ents == map[0 := MakeStore(0, v)] && t.next == s.next
    requires Going(s) && Leads(t, acts, last)
    ensures Leads(s, [Next(0)] + acts, last)
  {
    hide Leads;
    assert t.heap == s.heap[0 := t.heap[0]];
    assert t.ents == s.ents[0 := MakeStore(0, v)];
    assert DoResume(s, 0, false, 0).s == t;
    hide DoResume;
    ThenResume(s, 0, t, acts, last);
  }

  lemma StoredBack(s: State, t: State, v: Value, acts: seq<Action>, last: State)
    requires s.ents == map[0 := MakeStore(0, v)] && s.next > 0
    requires Counts(s, t, 1, 1) && s.heap[0].strong == 0 && s.heap[0].weak == 1
    requires t.ents == map[0 := MutRef(0, v, v, v)] && t.next == s.next
    requires Going(s) && Leads(t, acts, last)
    ensures Leads(s, [Next(0)] + acts, last)
  {
    hide Leads;
    assert t.heap == s.heap[0 := t.heap[0]];
    assert t.ents == s.ents[0 := MutRef(0, v, v, v)];
    assert DoResume(s, 0, false, 0).s == t;
    hide DoResume;
    ThenResume(s, 0, t, acts, last);
  }

  lemma ComesBack(maxRef: nat, threads: nat, v: Value)
    requires 0 < threads
    ensures Leads(Alone(maxRef, threads, 0, 2, v,
                        map[0 := MakeWeakLoad(0, v), 1 := Weak(0), 2 := UpgradeLoop(1, 0, 0)], 3),
                  AfterUpgrade(), Alone(maxRef, threads, 1, 1, v, map[0 := MutRef(0, v, v, v)], 3))
  {
    hide Leads;
    var s0 := Alone(maxRef, threads, 0, 2, v, map[0 := MakeWeakLoad(0, v), 1 := Weak(0), 2 := UpgradeLoop(1, 0, 0)], 3);
    var s1 := Alone(maxRef, threads, 0, 2, v, map[0 := MakeWeakLoad(0, v), 1 := Weak(0)], 3);
    var s2 := Alone(maxRef, threads, 0, 1, v, map[0 := MakeWeakLoad(0, v)], 3);
    var s3 := Alone(maxRef, threads, 0, 1, v, map[0 := MakeStore(0, v)], 3);
    var s4 := Alone(maxRef, threads, 1, 1, v, map[0 := MutRef(0, v, v, v)], 3);
    Nothing(s4);
    StoredBack(s3, s4, v, [], s4);
    FoundAlone(s2, s3, v, [Next(0)] + [], s4);
    WeakDropped(s1, s2, v, [Next(0)] + ([Next(0)] + []), s4);
    UpgradeFailed(s0, s1, v, [DropWeak(1)] + ([Next(0)] + ([Next(0)] + [])), s4);
  }

  /** An upgrade reads a published strong count of 0 and returns None, and later the count is 1 again: a 0
      is permanent only for the Weak handles that were there. */
  lemma StrongMayComeBack(maxRef: nat, threads: nat, v: Value)
    requires 0 < threads < maxRef
    ensures Leads(Init(maxRef, threads), StealingRun(v),
                  Alone(maxRef, threads, 1, 1, v, map[0 := MutRef(0, v, v, v)], 3))
  {
    hide Leads, AfterUpgrade;
    var last := Alone(maxRef, threads, 1, 1, v, map[0 := MutRef(0, v, v, v)], 3);
    var s1 := Alone(maxRef, threads, 1, 1, v, map[0 := Strong(0)], 1);
    var s2 := Alone(maxRef, threads, 1, 1, v, map[0 := Strong(0), 1 := DowngradeLoop(0, 0, 1)], 2);
    var s3 := Alone(maxRef, threads, 1, 2, v, map[0 := Strong(0), 1 := Weak(0)], 2);
    var s4 := Alone(maxRef, threads, 0, 2, v, map[0 := MakeWeakLoad(0, v), 1 := Weak(0)], 2);
    var s5 := Alone(maxRef, threads, 0, 2, v, map[0 := MakeWeakLoad(0, v), 1 := Weak(0), 2 := UpgradeLoop(1, 0, 0)], 3);
    ComesBack(maxRef, threads, v);
    SawZero(s4, s5, v, AfterUpgrade(), last);
    TookLast(s3, s4, v, [Upgrade(1)] + AfterUpgrade(), last);
    GotWeak(s2, s3, [MakeMut(0)] + ([Upgrade(1)] + AfterUpgrade()), last);
    Downgraded(s1, s2, [Next(1)] + ([MakeMut(0)] + ([Upgrade(1)] + AfterUpgrade())), last);
    First(maxRef, threads, v, [Downgrade(0)] + ([Next(1)] + ([MakeMut(0)] + ([Upgrade(1)] + AfterUpgrade()))), last);
  }
}
