/** Run one call at a time below the overflow limit, `Arc` and `Rc` agree: same results, same counters, same
    handles, same moments at which values are dropped and memory is freed. */
module ArcRcAgreement {
  import opened ArcMachine
  import opened ArcLedger
  import opened ArcInvariant
  import opened ArcSteps
  import opened ArcSafety
  import opened RcSpec

  // ---------- one uninterrupted call ----------

  /** The state and answer after a non-empty sequence of actions. */
  predicate Plays(s: State, acts: seq<Action>, r: Result)
    decreases |acts|
  {
    && acts != [] && Enabled(s, acts[0])
    && if |acts| == 1 then Step(s, acts[0]) == r else Plays(Step(s, acts[0]).s, acts[1..], r)
  }

  lemma PlaysOne(s: State, a: Action)
    requires Enabled(s, a)
    ensures Plays(s, [a], Step(s, a))
  {
    hide Enabled, Step;
  }

  lemma PlaysThen(s: State, a: Action, t: State, acts: seq<Action>, r: Result)
    requires Enabled(s, a) && Step(s, a).s == t && Plays(t, acts, r)
    ensures Plays(s, [a] + acts, r)
  {
    hide Enabled, Step;
    assert ([a] + acts)[1..] == acts;
  }

  /** The state `s` with the call `h` in progress on the allocation `l`. */
  function During(s: State, l: Loc, c: Cell, h: Id, e: Ent): State {
    s.(heap := s.heap[l := c], ents := s.ents[h := e])
  }

  function Afterwards(s: State, l: Loc, c: Cell, h: Id): State {
    s.(heap := s.heap[l := c], ents := s.ents - {h})
  }

  predicate Base(s: State, l: Loc, h: Id) {
    && !s.aborted && !s.ub && 0 < s.threads && l in s.heap && h < s.next
    && forall i | i in s.ents :: !IsAbort(s.ents[i])
  }

  lemma ResumeEnabled(s: State, l: Loc, c: Cell, h: Id, e: Ent, copy: Value)
    requires Base(s, l, h) && IsCall(e) && !IsAbort(e)
    ensures Enabled(During(s, l, c, h, e), Resume(h, false, copy))
  {
    NoAborts(During(s, l, c, h, e).ents);
    hide Aborting;
  }

  lemma LastResume(s: State, l: Loc, c: Cell, h: Id, e: Ent, copy: Value, r: Result)
    requires Base(s, l, h) && IsCall(e) && !IsAbort(e)
    requires DoResume(During(s, l, c, h, e), h, false, copy) == r
    ensures Plays(During(s, l, c, h, e), [Resume(h, false, copy)], r)
  {
    hide Plays, DoResume, Enabled, Base;
    ResumeEnabled(s, l, c, h, e, copy);
    PlaysOne(During(s, l, c, h, e), Resume(h, false, copy));
  }

  lemma ThenResume(s: State, l: Loc, c: Cell, h: Id, e: Ent, copy: Value, t: State, acts: seq<Action>, r: Result)
    requires Base(s, l, h) && IsCall(e) && !IsAbort(e)
    requires DoResume(During(s, l, c, h, e), h, false, copy).s == t && Plays(t, acts, r)
    ensures Plays(During(s, l, c, h, e), [Resume(h, false, copy)] + acts, r)
  {
    hide Plays, DoResume, Enabled, Base;
    ResumeEnabled(s, l, c, h, e, copy);
    PlaysThen(During(s, l, c, h, e), Resume(h, false, copy), t, acts, r);
  }

  lemma DuringPut(s: State, l: Loc, c: Cell, c': Cell, h: Id, e: Ent, e': Ent)
    requires Base(s, l, h) && !c.freed
    ensures At(During(s, l, c, h, e), l) == c
    ensures Put(Access(During(s, l, c, h, e), l, c'), h, e') == During(s, l, c', h, e')
    ensures c.data.Live? ==> Put(DataAccess(During(s, l, c, h, e), l, c'), h, e') == During(s, l, c', h, e')
    ensures Del(Access(During(s, l, c, h, e), l, c'), h) == Afterwards(s, l, c', h)
    ensures Del(During(s, l, c, h, e), h) == Afterwards(s, l, c, h)
    ensures Max(During(s, l, c, h, e)) == Max(s)
  {
    var t := During(s, l, c, h, e);
    assert t.heap[l := c'] == s.heap[l := c'];
    assert t.ents[h := e'] == s.ents[h := e'];
    assert t.ents - {h} == s.ents - {h};
  }

  // ---------- the end of an allocation ----------

  function ReleaseActs(c: Cell, h: Id, copy: Value): seq<Action> {
    if c.weak == 1 then [Resume(h, false, copy)] + [Resume(h, false, copy)] else [Resume(h, false, copy)]
  }

  function Answer(k: Cont): Out { if k.Return? then GotValue(k.v) else Unit }

  lemma ResumesEnd(t: State, h: Id, l: Loc, k: Cont, copy: Value)
    requires h in t.ents
    ensures t.ents[h] == ReleaseWeak(l, k) ==> DoResume(t, h, false, copy) == DoReleaseWeak(t, h, l, k)
    ensures t.ents[h] == Dealloc(l, k) ==> DoResume(t, h, false, copy) == DoDealloc(t, h, l, k)
    ensures t.ents[h] == Destroy(l, k) ==> DoResume(t, h, false, copy) == DoDestroy(t, h, l, k)
    ensures t.ents[h] == MoveOut(l) ==> DoResume(t, h, false, copy) == DoMoveOut(t, h, l)
  {
    hide DoReleaseWeak, DoDealloc, DoDestroy, DoMoveOut;
  }

  lemma PlaysRelease(s: State, l: Loc, c: Cell, h: Id, k: Cont, copy: Value)
    requires Base(s, l, h) && !c.freed && c.weak > 0 && !k.ThenMut?
    ensures Plays(During(s, l, c, h, ReleaseWeak(l, k)), ReleaseActs(c, h, copy),
                  Result(Afterwards(s, l, WeakDropped(Max(s), c), h), Answer(k)))
  {
    hide Plays, Base, Put, Del, Access, At, DoResume;
    var r := Result(Afterwards(s, l, WeakDropped(Max(s), c), h), Answer(k));
    var d := c.(weak := c.weak - 1);
    var first := During(s, l, c, h, ReleaseWeak(l, k));
    ResumesEnd(first, h, l, k, copy);
    DuringPut(s, l, c, d, h, ReleaseWeak(l, k), Dealloc(l, k));
    if c.weak == 1 {
      var second := During(s, l, d, h, Dealloc(l, k));
      ResumesEnd(second, h, l, k, copy);
      DuringPut(s, l, d, d.(freed := true, frees := d.frees + 1), h, Dealloc(l, k), Dealloc(l, k));
      hide During, Afterwards;
      LastResume(s, l, d, h, Dealloc(l, k), copy, r);
      ThenResume(s, l, c, h, ReleaseWeak(l, k), copy, second, [Resume(h, false, copy)], r);
    } else {
      hide During, Afterwards;
      LastResume(s, l, c, h, ReleaseWeak(l, k), copy, r);
    }
  }

  /** Destroying or moving out the value, and releasing what remains. */
  lemma PlaysEnd(s: State, l: Loc, c: Cell, h: Id, copy: Value)
    requires Base(s, l, h) && !c.freed && c.weak > 0 && c.data.Live?
    ensures Plays(During(s, l, c, h, Destroy(l, Done)), [Resume(h, false, copy)] + ReleaseActs(c, h, copy),
                  Result(Afterwards(s, l, WeakDropped(Max(s), Destroyed(c)), h), Unit))
    ensures Plays(During(s, l, c, h, MoveOut(l)), [Resume(h, false, copy)] + ReleaseActs(c, h, copy),
                  Result(Afterwards(s, l, WeakDropped(Max(s), c.(data := Gone, handed := c.handed + 1)), h),
                         GotValue(c.data.v)))
  {
    hide Plays, Base, Put, Del, Access, DataAccess, At, DoResume;
    var dropped := Destroyed(c);
    var moved := c.(data := Gone, handed := c.handed + 1);
    PlaysRelease(s, l, dropped, h, Done, copy);
    PlaysRelease(s, l, moved, h, Return(c.data.v), copy);
    ResumesEnd(During(s, l, c, h, Destroy(l, Done)), h, l, Done, copy);
    ResumesEnd(During(s, l, c, h, MoveOut(l)), h, l, Done, copy);
    DuringPut(s, l, c, dropped, h, Destroy(l, Done), ReleaseWeak(l, Done));
    DuringPut(s, l, c, moved, h, MoveOut(l), ReleaseWeak(l, Return(c.data.v)));
    hide During, Afterwards, WeakDropped;
    assert ReleaseActs(dropped, h, copy) == ReleaseActs(moved, h, copy) == ReleaseActs(c, h, copy);
    hide ReleaseActs;
    ThenResume(s, l, c, h, Destroy(l, Done), copy, During(s, l, dropped, h, ReleaseWeak(l, Done)),
               ReleaseActs(c, h, copy), Result(Afterwards(s, l, WeakDropped(Max(s), dropped), h), Unit));
    ThenResume(s, l, c, h, MoveOut(l), copy, During(s, l, moved, h, ReleaseWeak(l, Return(c.data.v))),
               ReleaseActs(c, h, copy), Result(Afterwards(s, l, WeakDropped(Max(s), moved), h), GotValue(c.data.v)));
  }

  // ---------- the calls ----------

  /** The steps of one whole call of `Arc`, when nothing else runs. */
  function Script(s: State, a: Action, copy: Value): seq<Action>
    requires a.New? || a.NewCyclic? || a.NewUnique? || a.h in s.ents
  {
    if a.New? || a.NewCyclic? || a.NewUnique? then [a]
    else
      var c := At(s, s.ents[a.h].l);
      var r := Resume(a.h, false, copy);
      if a.DropArc? || a.TryUnwrap? || a.IntoInner? then
        if c.strong == 1 then [a] + ([r] + ReleaseActs(c, a.h, copy)) else [a]
      else if a.DropWeak? then (if c.weak == 1 then [a] + [r] else [a])
      else if a.DropUnique? then [a] + ReleaseActs(c, a.h, copy)
      else if a.Downgrade? || a.Upgrade? || a.WeakCountOfWeak? then [a] + [Resume(s.next, false, copy)]
      else if a.GetMut? then (if c.weak == 1 then [a] + ([r] + [r]) else [a])
      else if a.MakeMut? then
        if c.strong != 1 then [a] + ([r] + ([r] + [r]))
        else if c.weak == 1 then [a] + ([r] + [r])
        else [a] + ([r] + ([r] + ([r] + [r])))
      else if a.CyclicInit? then [a] + [r]
      else [a]
  }

  /** What every call finds in a state where no call is in progress. */
  predicate Ready(s: State, l: Loc, h: Id) {
    && Base(s, l, h) && h in s.ents && s.next !in s.ents && s.next !in s.heap
    && !s.heap[l].freed && 0 < s.heap[l].weak < Max(s)
  }

  lemma Starts(s: State, l: Loc, h: Id, c: Cell, e: Ent)
    requires Ready(s, l, h)
    ensures At(s, l) == s.heap[l] && h != s.next
    ensures Put(Access(s, l, c), h, e) == During(s, l, c, h, e)
    ensures Put(Access(s, l, c), s.next, e) == During(Reserve(s), l, c, s.next, e)
    ensures Del(Access(s, l, c), h) == Afterwards(s, l, c, h)
    ensures s.heap[l].data.Live? ==> Del(DataAccess(s, l, c), h) == Afterwards(s, l, c, h)
    ensures s.heap[l].data.Live? ==> Put(DataAccess(s, l, c), h, e) == During(s, l, c, h, e)
    ensures Access(s, l, s.heap[l]) == s && Access(s, l, c).next == s.next
  {
    assert s.heap[l := s.heap[l]] == s.heap;
  }

  /** `a` with all its steps, and the same call of `Rc`. */
  predicate Agrees(s: State, a: Action, copy: Value) {
    && Enabled(s, a) && IsRcCall(a)
    && (a.New? || a.NewCyclic? || a.NewUnique? || a.h in s.ents)
    && Plays(s, Script(s, a, copy), RcStep(s, a, copy))
  }

  lemma AgreeDrop(s: State, h: Id, l: Loc, copy: Value)
    requires Ready(s, l, h) && s.ents[h] == Strong(l) && s.heap[l].data.Live? && s.heap[l].strong > 0
    requires Enabled(s, DropArc(h))
    ensures Agrees(s, DropArc(h), copy)
  {
    hide Enabled, Plays, Ready, Base, Put, Del, Access, DataAccess, At, DoResume, WeakDropped;
    ReadyBase(s, l, h);
    var c := s.heap[l];
    var d := c.(strong := c.strong - 1);
    Starts(s, l, h, d, Destroy(l, Done));
    if c.strong == 1 {
      Starts(s, l, h, WeakDropped(Max(s), Destroyed(d)), Destroy(l, Done));
      KeepsStrong(Max(s), Destroyed(d));
        PlaysEnd(s, l, d, h, copy);
      PlaysThen(s, DropArc(h), During(s, l, d, h, Destroy(l, Done)), [Resume(h, false, copy)] + ReleaseActs(c, h, copy),
                RcStep(s, DropArc(h), copy));
    } else {
      PlaysOne(s, DropArc(h));
    }
  }

  lemma KeepsStrong(max: nat, c: Cell)
    ensures WeakDropped(max, c).strong == c.strong
  {
  }

  lemma ReadyBase(s: State, l: Loc, h: Id)
    requires Ready(s, l, h)
    ensures Base(s, l, h) && Base(Reserve(s), l, s.next) && l in s.heap && h in s.ents
    ensures !s.heap[l].freed && 0 < s.heap[l].weak < Max(s)
  {
  }

  lemma AgreeTryUnwrap(s: State, h: Id, l: Loc, copy: Value)
    requires Ready(s, l, h) && s.ents[h] == Strong(l) && s.heap[l].data.Live? && s.heap[l].strong > 0
    requires Enabled(s, TryUnwrap(h))
    ensures Agrees(s, TryUnwrap(h), copy)
  {
    hide Enabled, Plays, Ready, Base, Put, Del, Access, DataAccess, At, DoResume, WeakDropped;
    ReadyBase(s, l, h);
    var c := s.heap[l];
    var d := c.(strong := c.strong - 1);
    Starts(s, l, h, d, MoveOut(l));
    if c.strong == 1 {
      Starts(s, l, h, MovedOut(Max(s), c), MoveOut(l));
        PlaysEnd(s, l, d, h, copy);
      PlaysThen(s, TryUnwrap(h), During(s, l, d, h, MoveOut(l)), [Resume(h, false, copy)] + ReleaseActs(c, h, copy),
                RcStep(s, TryUnwrap(h), copy));
    } else {
      PlaysOne(s, TryUnwrap(h));
    }
  }

  lemma AgreeIntoInner(s: State, h: Id, l: Loc, copy: Value)
    requires Ready(s, l, h) && s.ents[h] == Strong(l) && s.heap[l].data.Live? && s.heap[l].strong > 0
    requires Enabled(s, IntoInner(h))
    ensures Agrees(s, IntoInner(h), copy)
  {
    hide Enabled, Plays, Ready, Base, Put, Del, Access, DataAccess, At, DoResume, WeakDropped;
    ReadyBase(s, l, h);
    var c := s.heap[l];
    var d := c.(strong := c.strong - 1);
    Starts(s, l, h, d, MoveOut(l));
    if c.strong == 1 {
      Starts(s, l, h, MovedOut(Max(s), c), MoveOut(l));
        PlaysEnd(s, l, d, h, copy);
      PlaysThen(s, IntoInner(h), During(s, l, d, h, MoveOut(l)), [Resume(h, false, copy)] + ReleaseActs(c, h, copy),
                RcStep(s, IntoInner(h), copy));
    } else {
      PlaysOne(s, IntoInner(h));
    }
  }

  lemma AgreeDropWeak(s: State, h: Id, l: Loc, copy: Value)
    requires Ready(s, l, h) && s.ents[h] == Weak(l) && Enabled(s, DropWeak(h))
    ensures Agrees(s, DropWeak(h), copy)
  {
    hide Enabled, Plays, Ready, Base, Put, Del, Access, DataAccess, At, DoResume;
    ReadyBase(s, l, h);
    var c := s.heap[l];
    var d := c.(weak := c.weak - 1);
    var r := RcStep(s, DropWeak(h), copy);
    Starts(s, l, h, d, Dealloc(l, Done));
    if c.weak == 1 {
      var gone := d.(freed := true, frees := d.frees + 1);
      Starts(s, l, h, gone, Dealloc(l, Done));
      DuringPut(s, l, d, gone, h, Dealloc(l, Done), Dealloc(l, Done));
      ResumesEnd(During(s, l, d, h, Dealloc(l, Done)), h, l, Done, copy);
      LastResume(s, l, d, h, Dealloc(l, Done), copy, r);
      PlaysThen(s, DropWeak(h), During(s, l, d, h, Dealloc(l, Done)), [Resume(h, false, copy)], r);
    } else {
      PlaysOne(s, DropWeak(h));
    }
  }

  lemma AgreeDropUnique(s: State, h: Id, l: Loc, copy: Value)
    requires Ready(s, l, h) && s.ents[h] == Unique(l) && s.heap[l].data.Live? && Enabled(s, DropUnique(h))
    ensures Agrees(s, DropUnique(h), copy)
  {
    hide Enabled, Plays, Ready, Base, Put, Del, Access, DataAccess, At, DoResume, WeakDropped;
    ReadyBase(s, l, h);
    var c := s.heap[l];
    var d := Destroyed(c);
    Starts(s, l, h, d, ReleaseWeak(l, Done));
    Starts(s, l, h, WeakDropped(Max(s), d), Strong(l));
    PlaysRelease(s, l, d, h, Done, copy);
    PlaysThen(s, DropUnique(h), During(s, l, d, h, ReleaseWeak(l, Done)), ReleaseActs(c, h, copy),
              RcStep(s, DropUnique(h), copy));
  }

  // ---------- calls that borrow their handle ----------

  lemma ResumesLoop(t: State, i: Id, h: Id, l: Loc, cur: nat, seen: nat, held: bool, copy: Value)
    requires i in t.ents
    ensures t.ents[i] == DowngradeLoop(h, l, cur) ==>
              DoResume(t, i, false, copy) == DoDowngradeLoop(t, i, h, l, cur, false)
    ensures t.ents[i] == UpgradeLoop(h, l, cur) ==>
              DoResume(t, i, false, copy) == DoUpgradeLoop(t, i, h, l, cur, false)
    ensures t.ents[i] == WeakCountLoad(h, l, cur, seen, held) ==>
              DoResume(t, i, false, copy) == DoWeakCountLoad(t, i, l, cur)
  {
    hide DoDowngradeLoop, DoUpgradeLoop, DoWeakCountLoad;
  }

  lemma Reserved(s: State, l: Loc, h: Id)
    requires Ready(s, l, h)
    ensures Afterwards(Reserve(s), l, s.heap[l], s.next) == Reserve(s)
  {
    assert s.heap[l := s.heap[l]] == s.heap;
    assert s.ents - {s.next} == s.ents;
  }

  lemma AgreeDowngrade(s: State, h: Id, l: Loc, copy: Value)
    requires Ready(s, l, h) && s.ents[h] == Strong(l) && s.heap[l].weak <= s.maxRef && Enabled(s, Downgrade(h))
    ensures Agrees(s, Downgrade(h), copy)
  {
    hide Enabled, Plays, Ready, Base, Put, Del, Access, DataAccess, At, DoResume;
    ReadyBase(s, l, h);
    var c := s.heap[l];
    var i := s.next;
    var e := DowngradeLoop(h, l, c.weak);
    var t := During(Reserve(s), l, c, i, e);
    Starts(s, l, h, c, e);
    Starts(s, l, h, c.(weak := c.weak + 1), Weak(l));
    DuringPut(Reserve(s), l, c, c.(weak := c.weak + 1), i, e, Weak(l));
    ResumesLoop(t, i, h, l, c.weak, 0, false, copy);
    LastResume(Reserve(s), l, c, i, e, copy, RcStep(s, Downgrade(h), copy));
    PlaysThen(s, Downgrade(h), t, [Resume(i, false, copy)], RcStep(s, Downgrade(h), copy));
  }

  lemma AgreeUpgrade(s: State, h: Id, l: Loc, copy: Value)
    requires Ready(s, l, h) && IsWeakRef(s.ents[h]) && s.ents[h].l == l && s.heap[l].strong <= s.maxRef
    requires Enabled(s, Upgrade(h))
    ensures Agrees(s, Upgrade(h), copy)
  {
    hide Enabled, Plays, Ready, Base, Put, Del, Access, DataAccess, At, DoResume;
    ReadyBase(s, l, h);
    var c := s.heap[l];
    var i := s.next;
    var e := UpgradeLoop(h, l, c.strong);
    var t := During(Reserve(s), l, c, i, e);
    var d := c.(strong := c.strong + 1);
    Starts(s, l, h, c, e);
    Starts(s, l, h, d, Strong(l));
    DuringPut(Reserve(s), l, c, d, i, e, Strong(l));
    Reserved(s, l, h);
    ResumesLoop(t, i, h, l, c.strong, 0, false, copy);
    LastResume(Reserve(s), l, c, i, e, copy, RcStep(s, Upgrade(h), copy));
    PlaysThen(s, Upgrade(h), t, [Resume(i, false, copy)], RcStep(s, Upgrade(h), copy));
  }

  lemma AgreeWeakCount(s: State, h: Id, l: Loc, copy: Value)
    requires Ready(s, l, h) && IsWeakRef(s.ents[h]) && s.ents[h].l == l && Enabled(s, WeakCountOfWeak(h))
    ensures Agrees(s, WeakCountOfWeak(h), copy)
  {
    hide Enabled, Plays, Ready, Base, Put, Del, Access, DataAccess, At, DoResume, WeakHandles;
    ReadyBase(s, l, h);
    var c := s.heap[l];
    var i := s.next;
    var seen := |WeakHandles(s.ents, l)|;
    var e := WeakCountLoad(h, l, c.weak, seen, !c.data.Gone?);
    var t := During(Reserve(s), l, c, i, e);
    Starts(s, l, h, c, e);
    DuringPut(Reserve(s), l, c, c, i, e, e);
    Reserved(s, l, h);
    ResumesLoop(t, i, h, l, c.weak, seen, !c.data.Gone?, copy);
    LastResume(Reserve(s), l, c, i, e, copy, RcStep(s, WeakCountOfWeak(h), copy));
    PlaysThen(s, WeakCountOfWeak(h), t, [Resume(i, false, copy)], RcStep(s, WeakCountOfWeak(h), copy));
  }

  // ---------- calls that took their handle by `&mut` ----------

  lemma ResumesMut(t: State, h: Id, l: Loc, n: Loc, v: Value, unique: bool, copy: Value)
    requires h in t.ents
    ensures t.ents[h] == GetMutLoad(l) ==> DoResume(t, h, false, copy) == DoGetMutLoad(t, h, l)
    ensures t.ents[h] == GetMutStore(l, unique) ==> DoResume(t, h, false, copy) == DoGetMutStore(t, h, l, unique)
    ensures t.ents[h] == CyclicPublish(l) ==> DoResume(t, h, false, copy) == DoCyclicPublish(t, h, l)
    ensures t.ents[h] == MakeClone(l, v) ==> DoResume(t, h, false, copy) == DoMakeClone(t, h, l, v)
    ensures t.ents[h] == MakeCloneInit(l, n, v) ==>
              DoResume(t, h, false, copy) == DoMakeCloneInit(t, h, l, n, v, copy)
    ensures t.ents[h] == MakeDropOld(l, n, v, copy) ==>
              DoResume(t, h, false, copy) == DoMakeDropOld(t, h, l, n, v, copy)
    ensures t.ents[h] == MakeWeakLoad(l, v) ==> DoResume(t, h, false, copy) == DoMakeWeakLoad(t, h, l, v)
    ensures t.ents[h] == MakeStore(l, v) ==> DoResume(t, h, false, copy) == DoMakeStore(t, h, l, v)
    ensures t.ents[h] == MakeSteal(l, v) ==> DoResume(t, h, false, copy) == DoMakeSteal(t, h, l, v)
    ensures t.ents[h] == MakeMove(l, n, v) ==> DoResume(t, h, false, copy) == DoMakeMove(t, h, l, n, v)
  {
    hide DoGetMutLoad, DoGetMutStore, DoCyclicPublish, DoMakeClone, DoMakeCloneInit, DoMakeDropOld, DoMakeWeakLoad,
      DoMakeStore, DoMakeSteal, DoMakeMove;
  }

  lemma AgreeGetMut(s: State, h: Id, l: Loc, copy: Value)
    requires Ready(s, l, h) && s.ents[h] == Strong(l) && Enabled(s, GetMut(h))
    ensures Agrees(s, GetMut(h), copy)
  {
    hide Enabled, Plays, Ready, Base, Put, Del, Access, DataAccess, At, DoResume, Peek;
    ReadyBase(s, l, h);
    var c := s.heap[l];
    var v := Peek(c.data);
    var r := RcStep(s, GetMut(h), copy);
    if c.weak == 1 {
      var d := c.(weak := Max(s));
      var unique := c.strong == 1;
      Starts(s, l, h, d, GetMutLoad(l));
      Starts(s, l, h, c, MutRef(l, v, v, v));
      DuringPut(s, l, d, d, h, GetMutLoad(l), GetMutStore(l, unique));
      DuringPut(s, l, d, c, h, GetMutStore(l, unique), MutRef(l, v, v, v));
      DuringPut(s, l, d, c, h, GetMutStore(l, unique), Strong(l));
      assert d.(weak := 1) == c;
      var t1 := During(s, l, d, h, GetMutLoad(l));
      var t2 := During(s, l, d, h, GetMutStore(l, unique));
      ResumesMut(t1, h, l, l, v, unique, copy);
      ResumesMut(t2, h, l, l, v, unique, copy);
      Unchanged(s, l, h);
      LastResume(s, l, d, h, GetMutStore(l, unique), copy, r);
      ThenResume(s, l, d, h, GetMutLoad(l), copy, t2, [Resume(h, false, copy)], r);
      PlaysThen(s, GetMut(h), t1, [Resume(h, false, copy)] + [Resume(h, false, copy)], r);
    } else {
      Starts(s, l, h, c, Strong(l));
      PlaysOne(s, GetMut(h));
    }
  }

  lemma Unchanged(s: State, l: Loc, h: Id)
    requires Ready(s, l, h)
    ensures During(s, l, s.heap[l], h, s.ents[h]) == s
  {
    assert s.heap[l := s.heap[l]] == s.heap;
    assert s.ents[h := s.ents[h]] == s.ents;
  }

  lemma AgreeMakeSole(s: State, h: Id, l: Loc, copy: Value)
    requires Ready(s, l, h) && s.ents[h] == Strong(l) && s.heap[l].strong == 1 && s.heap[l].weak == 1
    requires Enabled(s, MakeMut(h))
    ensures Agrees(s, MakeMut(h), copy)
  {
    hide Enabled, Plays, Ready, Base, Put, Del, Access, DataAccess, At, DoResume, Peek;
    ReadyBase(s, l, h);
    var c := s.heap[l];
    var v := Peek(c.data);
    var r := RcStep(s, MakeMut(h), copy);
    var d := c.(strong := 0);
    assert d.(strong := 1) == c;
    Starts(s, l, h, d, MakeWeakLoad(l, v));
    Starts(s, l, h, c, MutRef(l, v, v, v));
    DuringPut(s, l, d, d, h, MakeWeakLoad(l, v), MakeStore(l, v));
    DuringPut(s, l, d, c, h, MakeStore(l, v), MutRef(l, v, v, v));
    var t1 := During(s, l, d, h, MakeWeakLoad(l, v));
    var t2 := During(s, l, d, h, MakeStore(l, v));
    ResumesMut(t1, h, l, l, v, false, copy);
    ResumesMut(t2, h, l, l, v, false, copy);
    LastResume(s, l, d, h, MakeStore(l, v), copy, r);
    ThenResume(s, l, d, h, MakeWeakLoad(l, v), copy, t2, [Resume(h, false, copy)], r);
    PlaysThen(s, MakeMut(h), t1, [Resume(h, false, copy)] + [Resume(h, false, copy)], r);
  }

  lemma AgreeCyclicInit(s: State, h: Id, l: Loc, v: Value, copy: Value)
    requires Ready(s, l, h) && s.ents[h] == Seed(l) && s.heap[l].strong == 0 && Enabled(s, CyclicInit(h, v))
    ensures Agrees(s, CyclicInit(h, v), copy)
  {
    hide Enabled, Plays, Ready, Base, Put, Del, Access, DataAccess, At, DoResume;
    ReadyBase(s, l, h);
    var c := s.heap[l];
    var r := RcStep(s, CyclicInit(h, v), copy);
    var d := c.(data := Live(v));
    var f := c.(data := Live(v), strong := 1);
    Starts(s, l, h, d, CyclicPublish(l));
    Starts(s, l, h, f, Strong(l));
    DuringPut(s, l, d, f, h, CyclicPublish(l), Strong(l));
    var t := During(s, l, d, h, CyclicPublish(l));
    ResumesMut(t, h, l, l, v, false, copy);
    LastResume(s, l, d, h, CyclicPublish(l), copy, r);
    PlaysThen(s, CyclicInit(h, v), t, [Resume(h, false, copy)], r);
  }
}
