/** `Arc` and `Rc` agree on every sequence of calls. */
module ArcRcRuns {
  import opened ArcMachine
  import opened ArcLedger
  import opened ArcInvariant
  import opened ArcCounting
  import opened ArcSteps
  import opened ArcLockSteps
  import opened ArcMutSteps
  import opened ArcWeakSteps
  import opened ArcSafety
  import opened ArcOutcomes
  import opened RcSpec
  import opened ArcRcAgreement

  // ---------- make_mut with a second allocation ----------

  /** `s` with a new allocation that holds `d`. */
  function Grown(s: State, d: Cell, clones: set<(Value, Value)>): State {
    s.(heap := s.heap[s.next := d], next := s.next + 1, clones := clones)
  }

  lemma GrownBase(s: State, l: Loc, h: Id, d: Cell, clones: set<(Value, Value)>)
    requires Ready(s, l, h)
    ensures Base(Grown(s, d, clones), l, h) && s.next != l
  {
  }

  lemma AllocDuring(s: State, l: Loc, h: Id, c: Cell, e: Ent, e': Ent, d: Cell)
    requires Ready(s, l, h)
    ensures Put(Alloc(During(s, l, c, h, e), d), h, e') == During(Grown(s, d, s.clones), l, c, h, e')
    ensures During(s, l, c, h, e).next == s.next
  {
    var t := During(s, l, c, h, e);
    assert t.heap[s.next := d] == s.heap[s.next := d][l := c];
    assert t.ents[h := e'] == s.ents[h := e'];
  }

  /** Writing the value of the new allocation. */
  lemma FillDuring(s: State, l: Loc, h: Id, c: Cell, c': Cell, e: Ent, e': Ent, d: Cell, d': Cell,
                   clones: set<(Value, Value)>)
    requires Ready(s, l, h) && !c.freed && c.data.Live? && !d.freed
    ensures var t := During(Grown(s, d, s.clones), l, c, h, e);
            var t1 := DataAccess(t, l, c');
            && At(t, l) == c && At(t1, s.next) == d && t.clones == s.clones
            && Put(Access(t1, s.next, d').(clones := clones), h, e') == During(Grown(s, d', clones), l, c', h, e')
  {
    var t := During(Grown(s, d, s.clones), l, c, h, e);
    assert t.heap[l := c'][s.next := d'] == s.heap[s.next := d'][l := c'];
    assert t.ents[h := e'] == s.ents[h := e'];
  }

  lemma RcSecond(s: State, l: Loc, h: Id, c: Cell, d: Cell, clones: set<(Value, Value)>, e: Ent)
    requires Ready(s, l, h) && s.heap[l].data.Live?
    ensures Put(Alloc(DataAccess(s, l, c).(clones := clones), d), h, e) == During(Grown(s, d, clones), l, c, h, e)
    ensures Put(Alloc(DataAccess(s, l, c), d), h, e) == During(Grown(s, d, s.clones), l, c, h, e)
  {
    assert s.heap[l := c][s.next := d] == s.heap[s.next := d][l := c];
  }

  // Each access of the two slow branches.

  lemma MakeAlloc(s: State, l: Loc, h: Id, c: Cell, v: Value, copy: Value)
    requires Ready(s, l, h)
    ensures DoResume(During(s, l, c, h, MakeClone(l, v)), h, false, copy).s
         == During(Grown(s, FreshCell(1, 1, Uninit), s.clones), l, c, h, MakeCloneInit(l, s.next, v))
    ensures DoResume(During(s, l, c, h, MakeSteal(l, v)), h, false, copy).s
         == During(Grown(s, FreshCell(1, 1, Uninit), s.clones), l, c, h, MakeMove(l, s.next, v))
  {
    hide Ready, Put, Alloc, Grown, During, At, DoResume;
    HasDuring(s, l, c, h, MakeClone(l, v));
    HasDuring(s, l, c, h, MakeSteal(l, v));
    ResumesMut(During(s, l, c, h, MakeClone(l, v)), h, l, l, v, false, copy);
    ResumesMut(During(s, l, c, h, MakeSteal(l, v)), h, l, l, v, false, copy);
    AllocDuring(s, l, h, c, MakeClone(l, v), MakeCloneInit(l, s.next, v), FreshCell(1, 1, Uninit));
    AllocDuring(s, l, h, c, MakeSteal(l, v), MakeMove(l, s.next, v), FreshCell(1, 1, Uninit));
  }

  lemma CloneInit(s: State, l: Loc, h: Id, c: Cell, v: Value, copy: Value)
    requires Ready(s, l, h) && !c.freed && c.data == Live(v)
    ensures DoResume(During(Grown(s, FreshCell(1, 1, Uninit), s.clones), l, c, h, MakeCloneInit(l, s.next, v)),
                     h, false, copy).s
         == During(Grown(s, FreshCell(1, 1, Live(copy)), s.clones + {(v, copy)}), l, c, h,
                   MakeDropOld(l, s.next, v, copy))
  {
    hide Ready, Put, Access, DataAccess, Grown, During, At, DoResume;
    var s2 := Grown(s, FreshCell(1, 1, Uninit), s.clones);
    HasDuring(s2, l, c, h, MakeCloneInit(l, s.next, v));
    ResumesMut(During(s2, l, c, h, MakeCloneInit(l, s.next, v)), h, l, s.next, v, false, copy);
    FillDuring(s, l, h, c, c, MakeCloneInit(l, s.next, v), MakeDropOld(l, s.next, v, copy),
               FreshCell(1, 1, Uninit), FreshCell(1, 1, Live(copy)), s.clones + {(v, copy)});
  }

  lemma MoveOver(s: State, l: Loc, h: Id, c: Cell, v: Value, copy: Value)
    requires Ready(s, l, h) && !c.freed && c.data == Live(v)
    ensures DoResume(During(Grown(s, FreshCell(1, 1, Uninit), s.clones), l, c, h, MakeMove(l, s.next, v)),
                     h, false, copy).s
         == During(Grown(s, FreshCell(1, 1, Live(v)), s.clones), l, c.(data := Gone, steals := c.steals + 1), h,
                   ReleaseWeak(l, ThenMut(s.next, v, v)))
  {
    var s2 := Grown(s, FreshCell(1, 1, Uninit), s.clones);
    HasDuring(s2, l, c, h, MakeMove(l, s.next, v));
    ResumesMut(During(s2, l, c, h, MakeMove(l, s.next, v)), h, l, s.next, v, false, copy);
    FillDuring(s, l, h, c, c.(data := Gone, steals := c.steals + 1), MakeMove(l, s.next, v),
               ReleaseWeak(l, ThenMut(s.next, v, v)), FreshCell(1, 1, Uninit), FreshCell(1, 1, Live(v)), s.clones);
    hide DoResume, Ready;
  }

  lemma MakeSees(s: State, l: Loc, h: Id, c: Cell, v: Value, copy: Value)
    requires Base(s, l, h) && !c.freed && c.weak != 1
    ensures DoResume(During(s, l, c, h, MakeWeakLoad(l, v)), h, false, copy).s == During(s, l, c, h, MakeSteal(l, v))
  {
    hide DoResume, Base, Put, Access, At, During;
    HasDuring(s, l, c, h, MakeWeakLoad(l, v));
    ResumesMut(During(s, l, c, h, MakeWeakLoad(l, v)), h, l, l, v, false, copy);
    DuringPut(s, l, c, c, h, MakeWeakLoad(l, v), MakeSteal(l, v));
  }

  lemma LeavesOld(s: State, l: Loc, h: Id, c: Cell, n: Loc, v: Value, copy: Value)
    requires Base(s, l, h) && !c.freed && c.strong > 1
    ensures DoResume(During(s, l, c, h, MakeDropOld(l, n, v, copy)), h, false, copy)
         == Result(During(s, l, c.(strong := c.strong - 1), h, MutRef(n, v, copy, copy)), GotMut)
  {
    hide DoResume, Base, Put, Access, At, During;
    HasDuring(s, l, c, h, MakeDropOld(l, n, v, copy));
    ResumesMut(During(s, l, c, h, MakeDropOld(l, n, v, copy)), h, l, n, v, false, copy);
    DuringPut(s, l, c, c.(strong := c.strong - 1), h, MakeDropOld(l, n, v, copy), MutRef(n, v, copy, copy));
  }

  lemma LeavesWeak(s: State, l: Loc, h: Id, c: Cell, n: Loc, v: Value, copy: Value)
    requires Base(s, l, h) && !c.freed && c.weak > 1
    ensures DoResume(During(s, l, c, h, ReleaseWeak(l, ThenMut(n, v, v))), h, false, copy)
         == Result(During(s, l, c.(weak := c.weak - 1), h, MutRef(n, v, v, v)), GotMut)
  {
    hide DoResume, Base, Put, Access, At, During;
    var k := ThenMut(n, v, v);
    HasDuring(s, l, c, h, ReleaseWeak(l, k));
    ResumesEnd(During(s, l, c, h, ReleaseWeak(l, k)), h, l, k, copy);
    DuringPut(s, l, c, c.(weak := c.weak - 1), h, ReleaseWeak(l, k), MutRef(n, v, v, v));
  }

  /** What the two slow branches come to in `Rc`. */
  lemma RcMakes(s: State, l: Loc, h: Id, copy: Value)
    requires Ready(s, l, h) && s.heap[l].data.Live?
    ensures var c := s.heap[l]; c.strong > 1 ==>
      RcMakeMut(s, h, l, copy) == Result(
        During(Grown(s, FreshCell(1, 1, Live(copy)), s.clones + {(c.data.v, copy)}), l, c.(strong := c.strong - 1), h,
               MutRef(s.next, c.data.v, copy, copy)), GotMut)
    ensures var c := s.heap[l]; c.strong == 1 && c.weak > 1 ==>
      RcMakeMut(s, h, l, copy) == Result(
        During(Grown(s, FreshCell(1, 1, c.data), s.clones), l,
               c.(strong := 0, data := Gone, steals := c.steals + 1, weak := c.weak - 1), h,
               MutRef(s.next, c.data.v, c.data.v, c.data.v)), GotMut)
  {
    hide Ready, Put, Access, DataAccess, Alloc, Grown, During, At;
    ReadyBase(s, l, h);
    var c := s.heap[l];
    var v := c.data.v;
    Starts(s, l, h, c, Strong(l));
    if c.strong > 1 {
      RcSecond(s, l, h, c.(strong := c.strong - 1), FreshCell(1, 1, Live(copy)), s.clones + {(v, copy)},
               MutRef(s.next, v, copy, copy));
    }
    RcSecond(s, l, h, c.(strong := 0, data := Gone, steals := c.steals + 1, weak := c.weak - 1),
             FreshCell(1, 1, c.data), s.clones, MutRef(s.next, v, v, v));
  }

  lemma HasDuring(s: State, l: Loc, c: Cell, h: Id, e: Ent)
    ensures h in During(s, l, c, h, e).ents && During(s, l, c, h, e).ents[h] == e
  {
  }

  lemma MakeStarts(s: State, l: Loc, h: Id)
    requires Ready(s, l, h) && s.heap[l].data.Live?
    ensures var c := s.heap[l];
            && (c.strong == 1 ==> DoMakeMut(s, h, l).s == During(s, l, c.(strong := 0), h, MakeWeakLoad(l, c.data.v)))
            && (c.strong != 1 ==> DoMakeMut(s, h, l).s == During(s, l, c, h, MakeClone(l, c.data.v)))
  {
    hide Ready, Put, Access, During, At;
    ReadyBase(s, l, h);
    var c := s.heap[l];
    Starts(s, l, h, c, MakeClone(l, c.data.v));
    Starts(s, l, h, c.(strong := 0), MakeWeakLoad(l, c.data.v));
  }

  lemma MakeCalls(s: State, h: Id, l: Loc, copy: Value)
    requires Enabled(s, MakeMut(h)) && h in s.ents && s.ents[h] == Strong(l)
    ensures Step(s, MakeMut(h)) == DoMakeMut(s, h, l) && RcStep(s, MakeMut(h), copy) == RcMakeMut(s, h, l, copy)
  {
    hide Enabled, DoMakeMut, RcMakeMut;
  }

  lemma AgreeMakeClone(s: State, h: Id, l: Loc, copy: Value)
    requires Ready(s, l, h) && s.ents[h] == Strong(l) && s.heap[l].strong > 1 && s.heap[l].data.Live?
    requires Enabled(s, MakeMut(h))
    ensures Agrees(s, MakeMut(h), copy)
  {
    hide Enabled, Plays, Ready, Base, At, DoResume, Grown, During, Step, RcStep, DoMakeMut, RcMakeMut;
    ReadyBase(s, l, h);
    var c := s.heap[l];
    var v := c.data.v;
    var n := s.next;
    var empty := FreshCell(1, 1, Uninit);
    var full := FreshCell(1, 1, Live(copy));
    var clones := s.clones + {(v, copy)};
    var s2 := Grown(s, empty, s.clones);
    var s3 := Grown(s, full, clones);
    var r := RcStep(s, MakeMut(h), copy);
    AtHeap(s, l);
    MakeCalls(s, h, l, copy);
    MakeStarts(s, l, h);
    GrownBase(s, l, h, empty, s.clones);
    GrownBase(s, l, h, full, clones);
    MakeAlloc(s, l, h, c, v, copy);
    CloneInit(s, l, h, c, v, copy);
    LeavesOld(s3, l, h, c, n, v, copy);
    RcMakes(s, l, h, copy);
    var one := [Resume(h, false, copy)];
    LastResume(s3, l, c, h, MakeDropOld(l, n, v, copy), copy, r);
    ThenResume(s2, l, c, h, MakeCloneInit(l, n, v), copy, During(s3, l, c, h, MakeDropOld(l, n, v, copy)), one, r);
    ThenResume(s, l, c, h, MakeClone(l, v), copy, During(s2, l, c, h, MakeCloneInit(l, n, v)), one + one, r);
    PlaysThen(s, MakeMut(h), During(s, l, c, h, MakeClone(l, v)), one + (one + one), r);
  }

  lemma AtHeap(s: State, l: Loc)
    requires l in s.heap
    ensures At(s, l) == s.heap[l]
  {
  }

  lemma AgreeMakeSteal(s: State, h: Id, l: Loc, copy: Value)
    requires Ready(s, l, h) && s.ents[h] == Strong(l) && s.heap[l].strong == 1 && s.heap[l].weak > 1
    requires s.heap[l].data.Live? && Enabled(s, MakeMut(h))
    ensures Agrees(s, MakeMut(h), copy)
  {
    hide Enabled, Plays, Ready, Base, At, DoResume, Grown, During, Step, RcStep, DoMakeMut, RcMakeMut;
    ReadyBase(s, l, h);
    var c := s.heap[l];
    var v := c.data.v;
    var n := s.next;
    var empty := FreshCell(1, 1, Uninit);
    var full := FreshCell(1, 1, Live(v));
    var d := c.(strong := 0);
    var f := d.(data := Gone, steals := c.steals + 1);
    var k := ThenMut(n, v, v);
    var s2 := Grown(s, empty, s.clones);
    var s3 := Grown(s, full, s.clones);
    var r := RcStep(s, MakeMut(h), copy);
    AtHeap(s, l);
    MakeCalls(s, h, l, copy);
    MakeStarts(s, l, h);
    GrownBase(s, l, h, empty, s.clones);
    GrownBase(s, l, h, full, s.clones);
    MakeSees(s, l, h, d, v, copy);
    MakeAlloc(s, l, h, d, v, copy);
    MoveOver(s, l, h, d, v, copy);
    LeavesWeak(s3, l, h, f, n, v, copy);
    RcMakes(s, l, h, copy);
    var one := [Resume(h, false, copy)];
    LastResume(s3, l, f, h, ReleaseWeak(l, k), copy, r);
    ThenResume(s2, l, d, h, MakeMove(l, n, v), copy, During(s3, l, f, h, ReleaseWeak(l, k)), one, r);
    ThenResume(s, l, d, h, MakeSteal(l, v), copy, During(s2, l, d, h, MakeMove(l, n, v)), one + one, r);
    ThenResume(s, l, d, h, MakeWeakLoad(l, v), copy, During(s, l, d, h, MakeSteal(l, v)), one + (one + one), r);
    PlaysThen(s, MakeMut(h), During(s, l, d, h, MakeWeakLoad(l, v)), one + (one + (one + one)), r);
  }

  // ---------- calls that are one access in both ----------

  predicate IsOneAccess(a: Action) {
    a.New? || a.NewCyclic? || a.NewUnique? || a.CloneArc? || a.Read? || a.StrongCount? || a.WeakCount? || a.CloneWeak?
    || a.UniqueDowngrade? || a.Write? || a.EndMut? || a.UniqueWrite? || a.IntoArc?
  }

  /** The counter that a call increments does not exceed the limit. */
  predicate BelowLimit(s: State, a: Action) {
    && (a.CloneArc? || a.Upgrade? ==> a.h in s.ents && At(s, s.ents[a.h].l).strong <= s.maxRef)
    && (a.Downgrade? || a.CloneWeak? || a.UniqueDowngrade? ==> a.h in s.ents && At(s, s.ents[a.h].l).weak <= s.maxRef)
  }

  lemma OneAccess(s: State, a: Action, copy: Value)
    requires Enabled(s, a) && IsOneAccess(a) && BelowLimit(s, a)
    requires a.WeakCount? ==> At(s, s.ents[a.h].l).weak < Max(s)
    ensures Step(s, a) == RcStep(s, a, copy)
  {
    hide Put, Del, Access, DataAccess, At, FreshCell, Aborting, Unborrowed;
    AccessKeepsNames(s);
  }

  lemma AccessKeepsNames(s: State)
    ensures forall l, c :: Access(s, l, c).next == s.next
  {
  }

  lemma ActorExists(s: State, a: Action)
    requires Enabled(s, a)
    ensures a.New? || a.NewCyclic? || a.NewUnique? || a.h in s.ents
    ensures !s.aborted && (!a.Resume? ==> 0 < s.threads)
  {
    hide Unborrowed;
  }

  lemma AgreeOneAccess(s: State, a: Action, copy: Value)
    requires Enabled(s, a) && IsOneAccess(a) && BelowLimit(s, a)
    requires a.WeakCount? ==> a.h in s.ents && At(s, s.ents[a.h].l).weak < Max(s)
    ensures Agrees(s, a, copy)
  {
    hide Enabled, Step, RcStep, Plays, BelowLimit, ReleaseActs;
    ActorExists(s, a);
    OneAccess(s, a, copy);
    PlaysOne(s, a);
  }

  // ---------- any call ----------

  /** No call is in progress. */
  predicate Resting(s: State) {
    forall i | i in s.ents :: !IsCall(s.ents[i])
  }

  lemma RestingUnlocked(s: State, l: Loc)
    requires Resting(s)
    ensures !Locked(s.ents, l)
  {
  }

  lemma HeldNums(maxRef: nat, c: Cell, n: Nums, a: Nums)
    requires CellOk(maxRef, c, n) && AtMost(a, n) && AtMost(ZERO, a) && n.fl.lock == 0
    requires a.st.plain + a.st.excl + a.we.expl + a.so.sole + a.so.seed > 0
    ensures !c.freed && c.weak > 0
    ensures a.st.plain > 0 ==> c.strong > 0 && c.data.Live?
    ensures a.so.sole > 0 ==> c.data.Live?  && c.strong == 0
    ensures a.so.seed > 0 ==> c.strong == 0
  {
  }

  lemma RestingHolds(e: Ent)
    requires !IsCall(e)
    ensures var a := Contrib(e, e.l);
            && a.st.plain + a.st.excl + a.we.expl + a.so.sole + a.so.seed > 0
            && (e.Strong? ==> a.st.plain > 0) && (e.Unique? ==> a.so.sole > 0) && (e.Seed? ==> a.so.seed > 0)
  {
  }

  lemma Prepared(s: State, h: Id)
    requires Reachable(s) && Resting(s) && h in s.ents && !s.aborted && 0 < s.threads
    ensures var l := s.ents[h].l;
            && Ready(s, l, h)
            && (s.ents[h].Strong? ==> s.heap[l].strong > 0 && s.heap[l].data.Live?)
            && (s.ents[h].Unique? ==> s.heap[l].data.Live?)
            && (s.ents[h].Seed? ==> s.heap[l].strong == 0)
            && s.heap[l].strong <= s.maxRef + 1 < Max(s) && s.heap[l].weak <= s.maxRef + 1
  {
    hide Inv, Reachable, Total, CellOk, AtMost, Contrib, Locked;
    var l := s.ents[h].l;
    ReachableInv(s);
    InvConfig(s);
    NewId(s);
    EntInHeap(s, h);
    LedgerAt(s, l);
    RestingUnlocked(s, l);
    LockedCounted(s.ents, l);
    CountersDoNotWrap(s, l);
    TotalHas(s.ents, h, l);
    HeldNonNegative(s.ents, h, l);
    RestingHolds(s.ents[h]);
    LockNonNegative(s.maxRef, s.heap[l], Total(s.ents, l));
    HeldNums(s.maxRef, s.heap[l], Total(s.ents, l), Contrib(s.ents[h], l));
    NoAborts(s.ents);
  }

  lemma LockNonNegative(maxRef: nat, c: Cell, n: Nums)
    requires CellOk(maxRef, c, n)
    ensures n.fl.lock >= 0
  {
  }

  predicate IsMaking(a: Action) { a.New? || a.NewCyclic? || a.NewUnique? }

  lemma HandleKind(s: State, a: Action)
    requires Enabled(s, a) && !IsMaking(a) && !a.Resume?
    ensures a.h in s.ents && !s.aborted && 0 < s.threads
    ensures (a.DropArc? || a.TryUnwrap? || a.IntoInner? || a.Downgrade? || a.GetMut? || a.MakeMut? || a.CloneArc?
             || a.WeakCount?) ==> s.ents[a.h] == Strong(s.ents[a.h].l)
    ensures a.Upgrade? || a.WeakCountOfWeak? || a.CloneWeak? ==> IsWeakRef(s.ents[a.h])
    ensures a.DropWeak? ==> s.ents[a.h] == Weak(s.ents[a.h].l)
    ensures a.DropUnique? || a.UniqueDowngrade? ==> s.ents[a.h] == Unique(s.ents[a.h].l)
    ensures a.CyclicInit? ==> s.ents[a.h] == Seed(s.ents[a.h].l)
  {
    hide Unborrowed, Aborting;
  }

  /** One call, with nothing else running, below the overflow limit. */
  lemma CallAgrees(s: State, a: Action, copy: Value)
    requires Reachable(s) && Resting(s) && Enabled(s, a) && IsRcCall(a) && BelowLimit(s, a)
    ensures Agrees(s, a, copy)
  {
    hide Reachable, Resting, Enabled, BelowLimit, Agrees, Ready;
    if a.New? || a.NewCyclic? || a.NewUnique? {
      AgreeOneAccess(s, a, copy);
    } else {
      HandleKind(s, a);
      Prepared(s, a.h);
      HandleCallAgrees(s, a, copy);
    }
  }

  lemma HandleCallAgrees(s: State, a: Action, copy: Value)
    requires Enabled(s, a) && IsRcCall(a) && BelowLimit(s, a) && !IsMaking(a) && a.h in s.ents
    requires Ready(s, s.ents[a.h].l, a.h)
    requires s.ents[a.h].l in s.heap && s.ents[a.h].Strong? ==>
               s.heap[s.ents[a.h].l].strong > 0 && s.heap[s.ents[a.h].l].data.Live?
    requires s.ents[a.h].l in s.heap && s.ents[a.h].Unique? ==> s.heap[s.ents[a.h].l].data.Live?
    requires s.ents[a.h].l in s.heap && s.ents[a.h].Seed? ==> s.heap[s.ents[a.h].l].strong == 0
    ensures Agrees(s, a, copy)
  {
    hide Enabled, Agrees, Ready, At, IsWeakRef;
    var l := s.ents[a.h].l;
    HandleKind(s, a);
    ReadyBase(s, l, a.h);
    AtHeap(s, l);
    if IsOneAccess(a) {
      AgreeOneAccess(s, a, copy);
    } else {
      match a {
        case DropArc(h) => AgreeDrop(s, h, l, copy);
        case TryUnwrap(h) => AgreeTryUnwrap(s, h, l, copy);
        case IntoInner(h) => AgreeIntoInner(s, h, l, copy);
        case Downgrade(h) => AgreeDowngrade(s, h, l, copy);
        case GetMut(h) => AgreeGetMut(s, h, l, copy);
        case MakeMut(h) => AgreeMakeMut(s, h, l, copy);
        case Upgrade(h) => AgreeUpgrade(s, h, l, copy);
        case WeakCountOfWeak(h) => AgreeWeakCount(s, h, l, copy);
        case DropWeak(h) => AgreeDropWeak(s, h, l, copy);
        case DropUnique(h) => AgreeDropUnique(s, h, l, copy);
        case CyclicInit(h, v) => AgreeCyclicInit(s, h, l, v, copy);
      }
    }
  }

  lemma AgreeMakeMut(s: State, h: Id, l: Loc, copy: Value)
    requires Ready(s, l, h) && s.ents[h] == Strong(l) && s.heap[l].strong > 0 && s.heap[l].data.Live?
    requires Enabled(s, MakeMut(h))
    ensures Agrees(s, MakeMut(h), copy)
  {
    hide Enabled, Agrees, Ready;
    ReadyBase(s, l, h);
    if s.heap[l].strong > 1 {
      AgreeMakeClone(s, h, l, copy);
    } else if s.heap[l].weak > 1 {
      AgreeMakeSteal(s, h, l, copy);
    } else {
      AgreeMakeSole(s, h, l, copy);
    }
  }

  // ---------- beyond the limit they differ ----------

  lemma PlaysAtLimit(s: State, a: Action, r: Result)
    requires Enabled(s, a) && Plays(s, [a], r)
    ensures Step(s, a) == r
  {
    hide Enabled, Step;
  }

  lemma PlaysTwo(s: State, a: Action, b: Action, r: Result)
    requires Plays(s, [a] + [b], r)
    ensures Enabled(s, a) && Enabled(Step(s, a).s, b) && Step(Step(s, a).s, b) == r
  {
    hide Enabled, Step;
    assert ([a] + [b])[1..] == [b];
  }

  lemma CloneBeyond(s: State, a: Action, copy: Value)
    requires Enabled(s, a) && !BelowLimit(s, a) && (a.CloneArc? || a.CloneWeak? || a.UniqueDowngrade?)
    requires a.h in s.ents && At(s, s.ents[a.h].l).strong < Max(s) && At(s, s.ents[a.h].l).weak < Max(s)
    ensures Step(s, a).out == Pending && RcStep(s, a, copy).out.GotHandle?
  {
    hide Put, Del, Access, At, Aborting, Unborrowed;
  }

  lemma LoopBeyond(s: State, a: Action, copy: Value)
    requires Enabled(s, a) && !BelowLimit(s, a) && (a.Downgrade? || a.Upgrade?)
    requires a.h in s.ents && At(s, s.ents[a.h].l).strong < Max(s) && At(s, s.ents[a.h].l).weak < Max(s)
    ensures RcStep(s, a, copy).out.GotHandle?
    ensures s.next in Step(s, a).s.ents
    ensures DoResume(Step(s, a).s, s.next, false, copy).out == Panicked
  {
    hide Access, At, Aborting, Unborrowed;
    AccessKeepsLimit(s);
  }

  lemma AccessKeepsLimit(s: State)
    ensures forall l, c :: Access(s, l, c).maxRef == s.maxRef && Access(s, l, c).next == s.next
  {
  }
}
