/** The two calls that loop on a compare-exchange, `Weak::upgrade` and `Arc::downgrade`: what they answer, with
    anything happening between their accesses. */
module ArcLoops {
  import opened ArcMachine
  import opened ArcLedger
  import opened ArcInvariant
  import opened ArcCounting
  import opened ArcSteps
  import opened ArcLockSteps
  import opened ArcMutSteps
  import opened ArcWeakSteps
  import opened ArcSafety
  import opened ArcOutcomes

  predicate IsLoop(e: Ent) { e.UpgradeLoop? || e.DowngradeLoop? }

  /** The counter that a loop works on. */
  function Counter(e: Ent, c: Cell): nat { if e.UpgradeLoop? then c.strong else c.weak }

  /** The call `i` is in its loop before and after every step of the run. */
  predicate Looping(s: State, acts: seq<Action>, i: Id)
    requires Runs(s, acts)
    decreases |acts|
  {
    && i in s.ents && IsLoop(s.ents[i])
    && (acts != [] ==> Looping(Step(s, acts[0]).s, acts[1..], i))
  }

  /** In some state of the run the strong count of `l` was `n`. */
  predicate SawStrong(s: State, acts: seq<Action>, l: Loc, n: nat)
    requires Runs(s, acts)
    decreases |acts|
  {
    || (l in s.heap && s.heap[l].strong == n)
    || (acts != [] && SawStrong(Step(s, acts[0]).s, acts[1..], l, n))
  }

  /** In some state of the run the weak count of `l` was `n`. */
  predicate SawWeak(s: State, acts: seq<Action>, l: Loc, n: nat)
    requires Runs(s, acts)
    decreases |acts|
  {
    || (l in s.heap && s.heap[l].weak == n)
    || (acts != [] && SawWeak(Step(s, acts[0]).s, acts[1..], l, n))
  }

  predicate Saw(s: State, acts: seq<Action>, e: Ent, n: nat)
    requires Runs(s, acts)
  {
    if e.UpgradeLoop? then SawStrong(s, acts, e.l, n) else SawWeak(s, acts, e.l, n)
  }

  // ---------- what the loop has in hand was the counter at some time ----------

  /** The same call, perhaps with a newer load. */
  predicate SameLoop(e: Ent, f: Ent) {
    IsLoop(e) && IsLoop(f) && (e.UpgradeLoop? <==> f.UpgradeLoop?) && e.h == f.h && e.l == f.l
  }

  function LoopRound(s: State, i: Id, spurious: bool): Result
    requires i in s.ents && IsLoop(s.ents[i])
  {
    var e := s.ents[i];
    if e.UpgradeLoop? then DoUpgradeLoop(s, i, e.h, e.l, e.cur, spurious)
    else DoDowngradeLoop(s, i, e.h, e.l, e.cur, spurious)
  }

  lemma ResumeIsLoop(s: State, i: Id, spurious: bool, copy: Value)
    requires Enabled(s, Resume(i, spurious, copy)) && i in s.ents && IsLoop(s.ents[i])
    ensures Step(s, Resume(i, spurious, copy)) == LoopRound(s, i, spurious)
  {
    hide Aborting, DoUpgradeLoop, DoDowngradeLoop;
  }

  lemma Reloads(s: State, i: Id, spurious: bool)
    requires i in s.ents && IsLoop(s.ents[i]) && s.ents[i].l in s.heap
    ensures var e := s.ents[i];
            var t := LoopRound(s, i, spurious).s;
            i in t.ents && IsLoop(t.ents[i]) ==>
              SameLoop(e, t.ents[i]) && t.ents[i].cur == Counter(e, s.heap[e.l])
  {
  }

  lemma LoopStep(s: State, a: Action, i: Id)
    requires Inv(s) && Enabled(s, a) && i in s.ents && IsLoop(s.ents[i])
    requires i in Step(s, a).s.ents && IsLoop(Step(s, a).s.ents[i])
    ensures s.ents[i].l in s.heap
    ensures var e, f := s.ents[i], Step(s, a).s.ents[i];
            SameLoop(e, f) && (f.cur == e.cur || f.cur == Counter(e, s.heap[e.l]))
  {
    hide Inv, Enabled, Step, LoopRound;
    EntInHeap(s, i);
    if a.Resume? && a.h == i {
      ResumeIsLoop(s, i, a.spurious, a.copy);
      Reloads(s, i, a.spurious);
    } else {
      CallKept(s, a, i);
    }
  }

  /** The load in hand is the one the run began with, or the counter was so in some state of the run. */
  lemma {:induction false} LoadWasTrue(s: State, acts: seq<Action>, i: Id)
    requires Inv(s) && Runs(s, acts) && Looping(s, acts, i) && i in s.ents
    ensures var t := Exec(s, acts);
            && Inv(t) && i in t.ents && SameLoop(s.ents[i], t.ents[i]) && t.maxRef == s.maxRef
            && (t.ents[i].cur == s.ents[i].cur || Saw(s, acts, s.ents[i], t.ents[i].cur))
    decreases |acts|
  {
    hide Inv, Enabled, Step;
    if acts != [] {
      var s1 := Step(s, acts[0]).s;
      LoopStep(s, acts[0], i);
      StepInv(s, acts[0]);
      StepConfig(s, acts[0]);
      LoadWasTrue(s1, acts[1..], i);
    }
  }

  lemma StepConfig(s: State, a: Action)
    requires Inv(s) && Enabled(s, a)
    ensures Step(s, a).s.maxRef == s.maxRef
  {
    hide Inv, Enabled, Step;
    NewId(s);
    StepOnlyAt(s, a);
  }

  // ---------- upgrade ----------

  /** One resumption, by what the call has in hand. */
  lemma UpgradeRound(t: State, i: Id, spurious: bool, copy: Value)
    requires Enabled(t, Resume(i, spurious, copy)) && i in t.ents && t.ents[i].UpgradeLoop? && t.ents[i].l in t.heap
    ensures var e := t.ents[i]; var r := Step(t, Resume(i, spurious, copy));
            && (e.cur == 0 ==> r.out == GotNone && r.s.ents == t.ents - {i})
            && (e.cur > t.maxRef ==> r.out == Panicked && r.s.ents == t.ents - {i})
            && (0 < e.cur <= t.maxRef && t.heap[e.l].strong == e.cur && !spurious ==>
                  && r.out == GotHandle(i) && r.s.ents == t.ents[i := Strong(e.l)]
                  && r.s.heap == t.heap[e.l := t.heap[e.l].(strong := e.cur + 1)])
            && (0 < e.cur <= t.maxRef && (t.heap[e.l].strong != e.cur || spurious) ==>
                  && r.out == Pending && r.s.ents == t.ents[i := UpgradeLoop(e.h, e.l, t.heap[e.l].strong)]
                  && r.s.heap == t.heap && r.s.threads == t.threads && r.s.aborted == t.aborted
                  && r.s.maxRef == t.maxRef)
  {
    ResumeIsLoop(t, i, spurious, copy);
    hide Enabled, Step;
    var e := t.ents[i];
    assert t.heap[e.l := t.heap[e.l]] == t.heap;
  }

  lemma UpgradeBegins(s: State, h: Id)
    requires Inv(s) && Enabled(s, Upgrade(h)) && h in s.ents
    ensures var t := Step(s, Upgrade(h)).s; var l := s.ents[h].l;
            && l in s.heap && t.heap == s.heap && t.maxRef == s.maxRef
            && s.next in t.ents && t.ents[s.next] == UpgradeLoop(h, l, s.heap[l].strong)
  {
    EntInHeap(s, h);
    hide Inv, Unborrowed, Aborting;
    assert s.heap[s.ents[h].l := s.heap[s.ents[h].l]] == s.heap;
  }

  /** What `upgrade` may answer, over any run.  None: the strong count was 0 at some time since the call began.
      A panic: it was over the limit at some time.  A handle: there was a strong reference the moment before,
      and now there is one more.  Otherwise the call goes on. */
  lemma UpgradeOverRun(s: State, h: Id, acts: seq<Action>, spurious: bool, copy: Value)
    requires Reachable(s) && Enabled(s, Upgrade(h)) && h in s.ents
    requires var s1 := Step(s, Upgrade(h)).s; Runs(s1, acts) && Looping(s1, acts, s.next)
    requires Enabled(Exec(Step(s, Upgrade(h)).s, acts), Resume(s.next, spurious, copy))
    ensures var s1, i, l := Step(s, Upgrade(h)).s, s.next, s.ents[h].l;
            var t := Exec(s1, acts);
            var r := Step(t, Resume(i, spurious, copy));
            && l in t.heap && (r.out == GotNone || r.out == Panicked || r.out == GotHandle(i) || r.out == Pending)
            && (r.out == GotNone ==> SawStrong(s1, acts, l, 0) && i !in r.s.ents)
            && (r.out == Panicked ==> i !in r.s.ents && exists n :: n > s.maxRef && SawStrong(s1, acts, l, n))
            && (r.out == GotHandle(i) ==>
                  && 0 < t.heap[l].strong <= s.maxRef && i in r.s.ents && r.s.ents[i] == Strong(l)
                  && l in r.s.heap && r.s.heap[l].strong == t.heap[l].strong + 1)
            && (r.out == Pending ==> i in r.s.ents && r.s.ents[i].UpgradeLoop?)
  {
    hide Inv, Reachable, Enabled, Step, Runs, Exec, Looping, SawWeak;
    ReachableInv(s);
    UpgradeBegins(s, h);
    StepInv(s, Upgrade(h));
    var s1, i := Step(s, Upgrade(h)).s, s.next;
    LoadWasTrue(s1, acts, i);
    var t := Exec(s1, acts);
    EntInHeap(t, i);
    UpgradeRound(t, i, spurious, copy);
    SawFirst(s1, acts, s1.ents[i]);
  }

  lemma SawFirst(s: State, acts: seq<Action>, e: Ent)
    requires Runs(s, acts) && e.l in s.heap
    ensures Saw(s, acts, e, Counter(e, s.heap[e.l]))
  {
  }

  lemma LoopEnabled(s: State, t: State, i: Id, e: Ent, copy: Value)
    requires Enabled(s, Resume(i, false, copy)) && i in s.ents && IsLoop(s.ents[i])
    requires t.aborted == s.aborted && t.threads == s.threads && IsLoop(e) && t.ents == s.ents[i := e]
    ensures Enabled(t, Resume(i, false, copy))
  {
    AbortingPut(s.ents, i, e);
    hide Aborting;
  }

  /** With nothing in between, at most two rounds that do not fail spuriously end an upgrade: with a handle
      if the count is neither 0 nor over the limit, and the load in hand was not either. */
  lemma UpgradeCompletes(t: State, i: Id, copy: Value)
    requires Reachable(t) && i in t.ents && t.ents[i].UpgradeLoop? && Enabled(t, Resume(i, false, copy))
    ensures var e, a := t.ents[i], Resume(i, false, copy);
            && e.l in t.heap
            && (e.cur == 0 ==> Step(t, a).out == GotNone)
            && (e.cur > t.maxRef ==> Step(t, a).out == Panicked)
            && (0 < e.cur <= t.maxRef && 0 < t.heap[e.l].strong <= t.maxRef && Step(t, a).out != GotHandle(i) ==>
                  && Step(t, a).out == Pending && Enabled(Step(t, a).s, a)
                  && Step(Step(t, a).s, a).out == GotHandle(i))
  {
    hide Inv, Reachable, Enabled, Step;
    ReachableInv(t);
    EntInHeap(t, i);
    UpgradeRound(t, i, false, copy);
    var e, a := t.ents[i], Resume(i, false, copy);
    if 0 < e.cur <= t.maxRef && t.heap[e.l].strong != e.cur {
      LoopEnabled(t, Step(t, a).s, i, UpgradeLoop(e.h, e.l, t.heap[e.l].strong), copy);
      UpgradeRound(Step(t, a).s, i, false, copy);
    }
  }

  // ---------- downgrade ----------

  lemma DowngradeRound(t: State, i: Id, spurious: bool, copy: Value)
    requires Enabled(t, Resume(i, spurious, copy)) && i in t.ents && t.ents[i].DowngradeLoop? && t.ents[i].l in t.heap
    requires 0 < t.maxRef
    ensures var e := t.ents[i]; var r := Step(t, Resume(i, spurious, copy));
            && (t.maxRef < e.cur != Max(t) ==> r.out == Panicked && r.s.ents == t.ents - {i})
            && (e.cur <= t.maxRef && t.heap[e.l].weak == e.cur && !spurious ==>
                  && r.out == GotHandle(i) && r.s.ents == t.ents[i := Weak(e.l)]
                  && r.s.heap == t.heap[e.l := t.heap[e.l].(weak := e.cur + 1)])
            && (e.cur == Max(t) || (e.cur <= t.maxRef && (t.heap[e.l].weak != e.cur || spurious)) ==>
                  && r.out == Pending && r.s.ents == t.ents[i := DowngradeLoop(e.h, e.l, t.heap[e.l].weak)]
                  && r.s.heap == t.heap && r.s.threads == t.threads && r.s.aborted == t.aborted
                  && r.s.maxRef == t.maxRef)
  {
    ResumeIsLoop(t, i, spurious, copy);
    hide Enabled, Step;
    var e := t.ents[i];
    assert t.heap[e.l := t.heap[e.l]] == t.heap;
  }

  lemma DowngradeBegins(s: State, h: Id)
    requires Inv(s) && Enabled(s, Downgrade(h)) && h in s.ents
    ensures var t := Step(s, Downgrade(h)).s; var l := s.ents[h].l;
            && l in s.heap && t.heap == s.heap && t.maxRef == s.maxRef
            && s.next in t.ents && t.ents[s.next] == DowngradeLoop(h, l, s.heap[l].weak)
  {
    EntInHeap(s, h);
    hide Inv, Unborrowed, Aborting;
    assert s.heap[s.ents[h].l := s.heap[s.ents[h].l]] == s.heap;
  }

  /** In some state of the run the weak count of `l` was over the limit, and not because it was locked. */
  predicate SawTooManyWeak(s: State, acts: seq<Action>, l: Loc)
    requires Runs(s, acts)
    decreases |acts|
  {
    || (l in s.heap && s.heap[l].weak > s.maxRef && !Locked(s.ents, l))
    || (acts != [] && SawTooManyWeak(Step(s, acts[0]).s, acts[1..], l))
  }

  lemma {:induction false} UnlockedThen(s: State, acts: seq<Action>, l: Loc, n: nat)
    requires Reachable(s) && Runs(s, acts) && SawWeak(s, acts, l, n) && s.maxRef < n != Max(s)
    ensures SawTooManyWeak(s, acts, l)
    decreases |acts|
  {
    hide Reachable, Enabled, Step, Locked;
    if l in s.heap && s.heap[l].weak == n {
      CountersDoNotWrap(s, l);
    } else {
      ReachableStep(s, acts[0]);
      ReachableInv(s);
      StepConfig(s, acts[0]);
      hide Inv;
      UnlockedThen(Step(s, acts[0]).s, acts[1..], l, n);
    }
  }

  lemma OneWeakMore(m: map<Id, Ent>, i: Id, l: Loc)
    requires i in m && m[i].DowngradeLoop?
    ensures |WeakHandles(m[i := Weak(l)], l)| == |WeakHandles(m, l)| + 1
  {
    assert WeakHandles(m[i := Weak(l)], l) == WeakHandles(m, l) + {i};
  }

  /** What `downgrade` may answer, over any run: a Weak, or a panic if the weak count was over the limit at
      some time since the call began; never that there is none.  Otherwise the call goes on. */
  lemma DowngradeOverRun(s: State, h: Id, acts: seq<Action>, spurious: bool, copy: Value)
    requires Reachable(s) && Enabled(s, Downgrade(h)) && h in s.ents
    requires var s1 := Step(s, Downgrade(h)).s; Runs(s1, acts) && Looping(s1, acts, s.next)
    requires Enabled(Exec(Step(s, Downgrade(h)).s, acts), Resume(s.next, spurious, copy))
    ensures var s1, i, l := Step(s, Downgrade(h)).s, s.next, s.ents[h].l;
            var t := Exec(s1, acts);
            var r := Step(t, Resume(i, spurious, copy));
            && (r.out == Panicked || r.out == GotHandle(i) || r.out == Pending)
            && (r.out == Panicked ==> SawTooManyWeak(s1, acts, l) && i !in r.s.ents)
            && (r.out == GotHandle(i) ==>
                  && i in r.s.ents && r.s.ents[i] == Weak(l)
                  && |WeakHandles(r.s.ents, l)| == |WeakHandles(t.ents, l)| + 1)
            && (r.out == Pending ==> i in r.s.ents && r.s.ents[i].DowngradeLoop?)
  {
    hide Inv, Reachable, Enabled, Step, Runs, Exec, Looping, SawStrong, SawTooManyWeak, WeakHandles;
    ReachableInv(s);
    DowngradeBegins(s, h);
    StepInv(s, Downgrade(h));
    ReachableStep(s, Downgrade(h));
    var s1, i, l := Step(s, Downgrade(h)).s, s.next, s.ents[h].l;
    LoadWasTrue(s1, acts, i);
    var t := Exec(s1, acts);
    EntInHeap(t, i);
    InvConfig(t);
    DowngradeRound(t, i, spurious, copy);
    SawFirst(s1, acts, s1.ents[i]);
    OneWeakMore(t.ents, i, l);
    if t.maxRef < t.ents[i].cur != Max(t) {
      UnlockedThen(s1, acts, l, t.ents[i].cur);
    }
  }

  /** With nothing in between, at most two rounds that do not fail spuriously end a downgrade: with a Weak if
      the count is not locked and not over the limit, and the load in hand was not over it either. */
  lemma DowngradeCompletes(t: State, i: Id, copy: Value)
    requires Reachable(t) && i in t.ents && t.ents[i].DowngradeLoop? && Enabled(t, Resume(i, false, copy))
    ensures var e, a := t.ents[i], Resume(i, false, copy);
            && e.l in t.heap
            && (t.maxRef < e.cur != Max(t) ==> Step(t, a).out == Panicked)
            && ((e.cur <= t.maxRef || e.cur == Max(t)) && t.heap[e.l].weak <= t.maxRef
                && Step(t, a).out != GotHandle(i) ==>
                  && Step(t, a).out == Pending && Enabled(Step(t, a).s, a)
                  && Step(Step(t, a).s, a).out == GotHandle(i))
  {
    hide Inv, Reachable, Enabled, Step;
    ReachableInv(t);
    EntInHeap(t, i);
    InvConfig(t);
    DowngradeRound(t, i, false, copy);
    var e, a := t.ents[i], Resume(i, false, copy);
    if e.cur == Max(t) || (e.cur <= t.maxRef && t.heap[e.l].weak != e.cur) {
      LoopEnabled(t, Step(t, a).s, i, DowngradeLoop(e.h, e.l, t.heap[e.l].weak), copy);
      DowngradeRound(Step(t, a).s, i, false, copy);
    }
  }
}
