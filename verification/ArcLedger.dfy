/** What each entity of the protocol holds on an allocation, and the sum over all entities. */
module ArcLedger {
  import opened ArcMachine

  /** Strong references:
      plain:   their holder shares the value;
      excl:    their holder knows it is alone;
      build:   the value is not written yet. */
  datatype Strongs = Strongs(plain: int, excl: int, build: int)

  /** The implicit weak reference while there is no strong one, held together with the value:
      sole:    by a holder that may not be alone;
      lone:    by one that knows there is no explicit Weak;
      seed:    by one that has not written the value yet. */
  datatype Solo = Solo(sole: int, lone: int, seed: int)

  /** What may outlive the value:
      expl:    explicit Weak references;
      rel:     the implicit weak reference, about to be released after the value is gone;
      dealloc: calls about to free the memory. */
  datatype Rest = Rest(expl: int, rel: int, dealloc: int)

  /** lock:    calls that hold the lock in `weak`;
      abS/abW: references added by a call that is about to abort. */
  datatype Flags = Flags(lock: int, abS: int, abW: int)

  /** Holdings on one allocation. */
  datatype Nums = Nums(st: Strongs, so: Solo, we: Rest, fl: Flags)

  const ZERO: Nums := Nums(Strongs(0, 0, 0), Solo(0, 0, 0), Rest(0, 0, 0), Flags(0, 0, 0))
  const PLAIN: Nums := ZERO.(st := Strongs(1, 0, 0))
  const EXCL: Nums := ZERO.(st := Strongs(0, 1, 0))
  const BUILD: Nums := ZERO.(st := Strongs(0, 0, 1))
  const SOLE: Nums := ZERO.(so := Solo(1, 0, 0))
  const LONE: Nums := ZERO.(so := Solo(0, 1, 0))
  const SEED: Nums := ZERO.(so := Solo(0, 0, 1))
  const EXPL: Nums := ZERO.(we := Rest(1, 0, 0))
  const REL: Nums := ZERO.(we := Rest(0, 1, 0))
  const DEALLOC: Nums := ZERO.(we := Rest(0, 0, 1))
  const LOCK: Nums := ZERO.(fl := Flags(1, 0, 0))

  function Add(a: Nums, b: Nums): Nums {
    Nums(Strongs(a.st.plain + b.st.plain, a.st.excl + b.st.excl, a.st.build + b.st.build),
         Solo(a.so.sole + b.so.sole, a.so.lone + b.so.lone, a.so.seed + b.so.seed),
         Rest(a.we.expl + b.we.expl, a.we.rel + b.we.rel, a.we.dealloc + b.we.dealloc),
         Flags(a.fl.lock + b.fl.lock, a.fl.abS + b.fl.abS, a.fl.abW + b.fl.abW))
  }

  function Sub(a: Nums, b: Nums): Nums {
    Nums(Strongs(a.st.plain - b.st.plain, a.st.excl - b.st.excl, a.st.build - b.st.build),
         Solo(a.so.sole - b.so.sole, a.so.lone - b.so.lone, a.so.seed - b.so.seed),
         Rest(a.we.expl - b.we.expl, a.we.rel - b.we.rel, a.we.dealloc - b.we.dealloc),
         Flags(a.fl.lock - b.fl.lock, a.fl.abS - b.fl.abS, a.fl.abW - b.fl.abW))
  }

  predicate AtMost(a: Nums, b: Nums) {
    && a.st.plain <= b.st.plain && a.st.excl <= b.st.excl && a.st.build <= b.st.build && a.we.expl <= b.we.expl
    && a.so.sole <= b.so.sole && a.so.lone <= b.so.lone && a.so.seed <= b.so.seed && a.we.rel <= b.we.rel
    && a.fl.lock <= b.fl.lock && a.we.dealloc <= b.we.dealloc && a.fl.abS <= b.fl.abS && a.fl.abW <= b.fl.abW
  }

  /** What an entity holds on its allocation `l`. */
  datatype Role = Plain | Excl | Expl | Sole | Lone | Unwritten | Rel | Freeing | Nothing

  function RoleOf(e: Ent): Role {
    if e.Strong? || e.AbortStrong? || e.GetMutLoad? || (e.GetMutStore? && !e.unique) || e.MakeClone? || e.MakeCloneInit?
       || e.MakeDropOld? then Plain
    else if e.MutRef? || e.GetMutStore? then Excl
    else if e.Weak? || e.AbortWeak? then Expl
    else if e.Unique? || e.MakeWeakLoad? || e.MakeSteal? || e.MakeMove? || e.Destroy? || e.MoveOut? || e.CyclicPublish?
         then Sole
    else if e.MakeStore? then Lone
    else if e.Seed? then Unwritten
    else if e.ReleaseWeak? then Rel
    else if e.Dealloc? then Freeing
    else Nothing                                  // calls that only borrow a handle
  }

  function ContSecond(k: Cont): Option<Loc> {
    if k.ThenMut? then Some(k.n) else None
  }

  /** The second allocation of a call that replaces one allocation by another; the call holds the only
      strong reference to it. */
  function Second(e: Ent): Option<Loc> {
    if e.MakeCloneInit? || e.MakeDropOld? || e.MakeMove? then Some(e.n)
    else if e.Destroy? || e.ReleaseWeak? || e.Dealloc? then ContSecond(e.k)
    else None
  }

  predicate Locks(e: Ent) {
    e.UniqueLoad? || e.UniqueStore? || e.GetMutLoad? || e.GetMutStore?
  }

  predicate Builds(e: Ent) { e.MakeCloneInit? || e.MakeMove? }

  /** What an entity holds by its role. */
  function RolePart(r: Role): Nums {
    match r
    case Plain => PLAIN
    case Excl => EXCL
    case Expl => EXPL
    case Sole => SOLE
    case Lone => LONE
    case Unwritten => SEED
    case Rel => REL
    case Freeing => DEALLOC
    case Nothing => ZERO
  }

  function FlagsOf(e: Ent): Flags {
    Flags(if Locks(e) then 1 else 0, if e.AbortStrong? then 1 else 0, if e.AbortWeak? then 1 else 0)
  }

  function Contrib(e: Ent, l: Loc): Nums {
    if e.l == l then RolePart(RoleOf(e)).(fl := FlagsOf(e))
    else if Second(e) == Some(l) then (if Builds(e) then BUILD else EXCL)
    else ZERO
  }

  lemma NoAborts(m: map<Id, Ent>)
    requires forall i | i in m :: !IsAbort(m[i])
    ensures Aborting(m) == {}
  {
  }

  /** The sum of a family of holdings. */
  ghost function Sum(m: map<Id, Nums>): Nums
    decreases |m|
  {
    if m == map[] then ZERO
    else
      var i :| i in m;
      Add(m[i], Sum(m - {i}))
  }

  function Holdings(m: map<Id, Ent>, l: Loc): map<Id, Nums> {
    map i | i in m :: Contrib(m[i], l)
  }

  /** The holdings of all entities on `l`. */
  ghost function Total(m: map<Id, Ent>, l: Loc): Nums {
    Sum(Holdings(m, l))
  }

  // ---------- the sum does not depend on the order ----------

  lemma {:induction false} SumSplit(m: map<Id, Nums>, i: Id)
    requires i in m
    ensures Sum(m) == Add(m[i], Sum(m - {i}))
    decreases |m|
  {
    var j :| j in m && Sum(m) == Add(m[j], Sum(m - {j}));
    if j != i {
      SumSplit(m - {j}, i);
      SumSplit(m - {i}, j);
      assert m - {j} - {i} == m - {i} - {j};
      AddSwap(m[j], m[i], Sum(m - {i} - {j}));
    }
  }

  lemma AddSwap(a: Nums, b: Nums, c: Nums)
    ensures Add(a, Add(b, c)) == Add(b, Add(a, c))
  {
  }

  lemma {:induction false} SumNonNegative(m: map<Id, Nums>)
    requires forall i | i in m :: AtMost(ZERO, m[i])
    ensures AtMost(ZERO, Sum(m))
    decreases |m|
  {
    if m != map[] {
      var i :| i in m;
      SumSplit(m, i);
      SumNonNegative(m - {i});
    }
  }

  lemma {:induction false} SumZero(m: map<Id, Nums>)
    requires forall i | i in m :: m[i] == ZERO
    ensures Sum(m) == ZERO
    decreases |m|
  {
    hide Add;
    if m != map[] {
      var i :| i in m;
      SumSplit(m, i);
      SumZero(m - {i});
      AddZero();
    }
  }

  lemma AddZero()
    ensures Add(ZERO, ZERO) == ZERO
  {
  }

  lemma {:induction false} SumLock(m: map<Id, Nums>) returns (i: Id)
    requires Sum(m).fl.lock > 0
    ensures i in m && m[i].fl.lock > 0
    decreases |m|
  {
    i :| i in m;
    if m[i].fl.lock <= 0 {
      SumSplit(m, i);
      i := SumLock(m - {i});
    }
  }

  lemma {:induction false} SumAborts(m: map<Id, Nums>, a: set<Id>)
    requires forall i | i in m :: m[i].fl.abS + m[i].fl.abW <= (if i in a then 1 else 0)
    ensures Sum(m).fl.abS + Sum(m).fl.abW <= |a|
    decreases |m|
  {
    if m != map[] {
      var i :| i in m;
      SumSplit(m, i);
      SumAborts(m - {i}, a - {i});
    }
  }

  // ---------- the same for entities ----------

  function Held(m: map<Id, Ent>, i: Id, l: Loc): Nums {
    if i in m then Contrib(m[i], l) else ZERO
  }

  lemma TotalDel(m: map<Id, Ent>, i: Id, l: Loc)
    ensures Total(m - {i}, l) == Sub(Total(m, l), Held(m, i, l))
  {
    hide Contrib;
    assert Holdings(m - {i}, l) == Holdings(m, l) - {i};
    if i in m {
      SumSplit(Holdings(m, l), i);
    } else {
      assert m - {i} == m;
    }
  }

  lemma TotalPut(m: map<Id, Ent>, i: Id, e: Ent, l: Loc)
    ensures Total(m[i := e], l) == Add(Sub(Total(m, l), Held(m, i, l)), Contrib(e, l))
  {
    hide Contrib;
    SumSplit(Holdings(m[i := e], l), i);
    TotalDel(m, i, l);
    assert Holdings(m[i := e], l) - {i} == Holdings(m - {i}, l);
  }

  lemma TotalNonNegative(m: map<Id, Ent>, l: Loc)
    ensures AtMost(ZERO, Total(m, l))
  {
    SumNonNegative(Holdings(m, l));
  }

  lemma TotalHas(m: map<Id, Ent>, i: Id, l: Loc)
    ensures AtMost(Held(m, i, l), Total(m, l)) && AtMost(ZERO, Total(m, l))
  {
    hide Contrib;
    TotalNonNegative(m, l);
    TotalDel(m, i, l);
    TotalNonNegative(m - {i}, l);
  }

  /** Two different entities are both part of the sum. */
  lemma TotalPair(m: map<Id, Ent>, i: Id, j: Id, l: Loc)
    requires i != j
    ensures AtMost(Add(Held(m, i, l), Held(m, j, l)), Total(m, l))
    ensures AtMost(ZERO, Held(m, i, l)) && AtMost(ZERO, Held(m, j, l))
  {
    hide *;
    TotalDel(m, i, l);
    TotalHas(m - {i}, j, l);
    HeldElsewhere(m, i, j, l);
    AddBack(Held(m, i, l), Held(m, j, l), Total(m - {i}, l), Total(m, l));
    HeldNonNegative(m, i, l);
    HeldNonNegative(m, j, l);
  }

  lemma HeldElsewhere(m: map<Id, Ent>, i: Id, j: Id, l: Loc)
    requires i != j
    ensures Held(m - {i}, j, l) == Held(m, j, l)
  {
    hide Contrib;
  }

  lemma HeldNonNegative(m: map<Id, Ent>, i: Id, l: Loc)
    ensures AtMost(ZERO, Held(m, i, l))
  {
  }

  lemma AddBack(a: Nums, b: Nums, r: Nums, t: Nums)
    requires r == Sub(t, a) && AtMost(b, r)
    ensures AtMost(Add(a, b), t)
  {
  }

  lemma TotalZero(m: map<Id, Ent>, l: Loc)
    requires forall i | i in m :: Contrib(m[i], l) == ZERO
    ensures Total(m, l) == ZERO
  {
    SumZero(Holdings(m, l));
  }

  lemma LockHolder(m: map<Id, Ent>, l: Loc) returns (i: Id)
    requires Total(m, l).fl.lock > 0
    ensures i in m && Contrib(m[i], l).fl.lock > 0
  {
    i := SumLock(Holdings(m, l));
  }

  lemma ContribAborts(e: Ent, l: Loc)
    ensures Contrib(e, l).fl.abS + Contrib(e, l).fl.abW <= if IsAbort(e) then 1 else 0
  {
    hide RoleOf, Second;
  }

  lemma TotalAborts(m: map<Id, Ent>, l: Loc)
    ensures Total(m, l).fl.abS + Total(m, l).fl.abW <= |Aborting(m)|
  {
    forall i | i in m
      ensures Contrib(m[i], l).fl.abS + Contrib(m[i], l).fl.abW <= if i in Aborting(m) then 1 else 0
    {
      ContribAborts(m[i], l);
    }
    hide Contrib;
    SumAborts(Holdings(m, l), Aborting(m));
  }
}
