/** The ledger counts what it says: the sums of `ArcLedger` are numbers of handles and calls. */
module ArcCounting {
  import opened ArcMachine
  import opened ArcLedger
  import opened ArcInvariant

  // ---------- who owns what, spelled out ----------

  /** Owners of a strong reference: the Arc handles, the calls that took one by `&mut`, and a clone about
      to abort.  A call inside `make_mut` may own one in each of two allocations. */
  predicate OwnsStrong(e: Ent, l: Loc) {
    (e.l == l && (RoleOf(e) == Plain || RoleOf(e) == Excl)) || Second(e) == Some(l)
  }

  function StrongOwners(m: map<Id, Ent>, l: Loc): set<Id> {
    set i | i in m && OwnsStrong(m[i], l)
  }

  /** Holders of the implicit weak reference while there is no strong one: a UniqueArc, a new_cyclic_in
      that has not published yet, or a call that has taken the last strong reference and has not yet
      released the memory. */
  predicate HoldsImplicit(e: Ent, l: Loc) {
    e.l == l && (RoleOf(e) == Sole || RoleOf(e) == Lone || RoleOf(e) == Unwritten || RoleOf(e) == Rel)
  }

  function ImplicitHolders(m: map<Id, Ent>, l: Loc): set<Id> {
    set i | i in m && HoldsImplicit(m[i], l)
  }

  predicate Locked(m: map<Id, Ent>, l: Loc) {
    exists i | i in m :: Locks(m[i]) && m[i].l == l
  }

  predicate Mentions(e: Ent, l: Loc) {
    e.l == l || Second(e) == Some(l)
  }

  // ---------- the ledger counts them ----------

  function OwnParts(n: Nums): int { n.so.sole + n.so.lone + n.so.seed + n.we.rel }

  datatype Part = StrongPart | ExplicitPart | ImplicitPart

  function Pick(p: Part, n: Nums): int {
    match p
    case StrongPart => StrongRefs(n)
    case ExplicitPart => n.we.expl
    case ImplicitPart => OwnParts(n)
  }

  lemma PickAdd(p: Part, a: Nums, b: Nums)
    ensures Pick(p, Add(a, b)) == Pick(p, a) + Pick(p, b) && Pick(p, ZERO) == 0
  {
  }

  function Members(p: Part, m: map<Id, Nums>): set<Id> {
    set i | i in m && Pick(p, m[i]) > 0
  }

  lemma MembersSplit(p: Part, m: map<Id, Nums>, i: Id)
    requires i in m
    ensures Members(p, m) == Members(p, m - {i}) + (if Pick(p, m[i]) > 0 then {i} else {})
    ensures i !in Members(p, m - {i})
  {
    hide Pick;
    var m' := m - {i};
    forall j ensures j in Members(p, m) <==> j in Members(p, m') || (j == i && Pick(p, m[i]) > 0) {
      if j in m' { assert m'[j] == m[j]; }
    }
  }

  /** A part of a sum is the number of its members that have it. */
  lemma {:induction false} CountPart(p: Part, m: map<Id, Nums>)
    requires forall i | i in m :: 0 <= Pick(p, m[i]) <= 1
    ensures |Members(p, m)| == Pick(p, Sum(m))
    decreases |m|
  {
    hide Add, Pick;
    if m == map[] {
      assert Members(p, m) == {};
      PickAdd(p, ZERO, ZERO);
    } else {
      var i :| i in m;
      SumSplit(m, i);
      CountPart(p, m - {i});
      MembersSplit(p, m, i);
      PickAdd(p, m[i], Sum(m - {i}));
    }
  }

  lemma StrongMeans(e: Ent, l: Loc)
    requires Second(e) != Some(e.l)
    ensures StrongRefs(Contrib(e, l)) == if OwnsStrong(e, l) then 1 else 0
  {
    RoleMeans(RoleOf(e));
    hide Second, RoleOf, RolePart, Locks, Builds;
  }

  lemma RoleMeans(r: Role)
    ensures RolePart(r).st.plain == if r == Plain then 1 else 0
    ensures RolePart(r).st.excl == if r == Excl then 1 else 0
    ensures RolePart(r).st.build == 0
  {
  }

  lemma ExplicitMeans(e: Ent, l: Loc)
    ensures Contrib(e, l).we.expl == if (e.Weak? || e.AbortWeak?) && e.l == l then 1 else 0
  {
  }

  lemma ImplicitMeans(e: Ent, l: Loc)
    ensures OwnParts(Contrib(e, l)) == if HoldsImplicit(e, l) then 1 else 0
  {
    hide Second, RoleOf;
  }

  lemma SecondDiffers(s: State, i: Id)
    requires Inv(s) && i in s.ents
    ensures Second(s.ents[i]) != Some(s.ents[i].l)
  {
    hide LedgerOk;
    assert EntOk(s, i);
  }

  lemma StrongCounted(s: State, l: Loc)
    requires Inv(s)
    ensures StrongRefs(Total(s.ents, l)) == |StrongOwners(s.ents, l)|
  {
    hide Inv, Contrib, OwnsStrong, Sum, StrongRefs;
    var m := Holdings(s.ents, l);
    forall i | i in m ensures Pick(StrongPart, m[i]) == if OwnsStrong(s.ents[i], l) then 1 else 0 {
      SecondDiffers(s, i);
      StrongMeans(s.ents[i], l);
    }
    CountPart(StrongPart, m);
    assert Pick(StrongPart, Sum(m)) == StrongRefs(Sum(m));
    hide Pick;
    assert Members(StrongPart, m) == StrongOwners(s.ents, l);
  }

  lemma ExplicitCounted(m: map<Id, Ent>, l: Loc)
    ensures Total(m, l).we.expl == |WeakHandles(m, l)|
  {
    hide Contrib, Sum;
    var h := Holdings(m, l);
    forall i | i in h
      ensures Pick(ExplicitPart, h[i]) == if (m[i].Weak? || m[i].AbortWeak?) && m[i].l == l then 1 else 0
    {
      ExplicitMeans(m[i], l);
    }
    CountPart(ExplicitPart, h);
    assert Pick(ExplicitPart, Sum(h)) == Sum(h).we.expl;
    hide Pick;
    assert Members(ExplicitPart, h) == WeakHandles(m, l);
  }

  lemma ImplicitCounted(m: map<Id, Ent>, l: Loc)
    ensures OwnParts(Total(m, l)) == |ImplicitHolders(m, l)|
  {
    hide Contrib, HoldsImplicit, Sum, OwnParts;
    var h := Holdings(m, l);
    forall i | i in h ensures Pick(ImplicitPart, h[i]) == if HoldsImplicit(m[i], l) then 1 else 0 {
      ImplicitMeans(m[i], l);
    }
    CountPart(ImplicitPart, h);
    assert Pick(ImplicitPart, Sum(h)) == OwnParts(Sum(h));
    hide Pick;
    assert Members(ImplicitPart, h) == ImplicitHolders(m, l);
  }
}
