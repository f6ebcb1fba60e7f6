/** What the answers and effects of `Rc` mean: stated about the handles of the program, and not about the
    counters.  The states are those with no call in progress; `ArcRcAgreeing.ArcAgreesWithRc` says that every
    program of `Rc` calls below the limit leads to such states only. */
module RcAnswers {
  import opened ArcMachine
  import opened ArcLedger
  import opened ArcInvariant
  import opened ArcCounting
  import opened ArcSteps
  import opened ArcSafety
  import opened RcSpec
  import opened ArcRcAgreement
  import opened ArcRcRuns

  /** All handles of `l`. */
  function Parties(m: map<Id, Ent>, l: Loc): set<Id> {
    set i | i in m && m[i].l == l
  }

  predicate IsParty(e: Ent, l: Loc) {
    OwnsStrong(e, l) || HoldsImplicit(e, l) || (e.Weak? && e.l == l)
  }

  lemma PartiesSplit(s: State, l: Loc)
    requires Resting(s)
    ensures Parties(s.ents, l) == StrongOwners(s.ents, l) + ImplicitHolders(s.ents, l) + WeakHandles(s.ents, l)
  {
    forall i | i in s.ents
      ensures s.ents[i].l == l <==> IsParty(s.ents[i], l)
      ensures !s.ents[i].AbortWeak?
    {
      RestingKinds(s.ents[i], l);
    }
  }

  lemma RestingKinds(e: Ent, l: Loc)
    requires !IsCall(e)
    ensures e.l == l <==> IsParty(e, l)
    ensures !e.AbortWeak?
  {
  }

  lemma OneElement(a: set<Id>, h: Id)
    requires h in a
    ensures |a| == 1 <==> a == {h}
    ensures |a| >= 1
  {
    assert a == (a - {h}) + {h};
    if |a| == 1 {
      assert |a - {h}| == 0;
    }
  }

  lemma EmptySet(a: set<Id>)
    ensures |a| == 0 <==> a == {}
  {
  }

  /** What the counters say about the handle `h`, on the handles. */
  lemma CountersSay(s: State, h: Id)
    requires Reachable(s) && Resting(s) && h in s.ents && !s.aborted && 0 < s.threads
    ensures s.ents[h].l in s.heap
    ensures var l := s.ents[h].l; var c := s.heap[l];
            && (s.ents[h].Strong? ==>
                  && (c.strong == 1 <==> StrongOwners(s.ents, l) == {h}) && c.weak == |WeakHandles(s.ents, l)| + 1
                  && (c.strong == 1 && c.weak == 1 <==> Parties(s.ents, l) == {h}))
            && (s.ents[h].Weak? || s.ents[h].Unique? ==> (c.weak == 1 <==> Parties(s.ents, l) == {h}))
            && (c.strong == 0 <==> StrongOwners(s.ents, l) == {})
            && (c.strong > 0 ==> c.weak == |WeakHandles(s.ents, l)| + 1)
            && 0 < c.weak < Max(s) && c.strong < Max(s) && !c.freed
  {
    hide Reachable, Resting, StrongOwners, ImplicitHolders, WeakHandles, Parties, Locked;
    var l := s.ents[h].l;
    Prepared(s, h);
    CountersCount(s, l);
    RestingUnlocked(s, l);
    PartiesSplit(s, l);
    Placed(s.ents, h, l);
    EmptySet(StrongOwners(s.ents, l));
    EmptySet(ImplicitHolders(s.ents, l));
    EmptySet(WeakHandles(s.ents, l));
    if h in StrongOwners(s.ents, l) { OneElement(StrongOwners(s.ents, l), h); }
    if h in ImplicitHolders(s.ents, l) { OneElement(ImplicitHolders(s.ents, l), h); }
    if h in WeakHandles(s.ents, l) { OneElement(WeakHandles(s.ents, l), h); }
    Apart(s.ents, h, l);
    hide Ready, Base;
  }

  lemma Placed(m: map<Id, Ent>, h: Id, l: Loc)
    requires h in m && m[h].l == l
    ensures m[h].Strong? ==> h in StrongOwners(m, l)
    ensures m[h].Weak? ==> h in WeakHandles(m, l)
    ensures m[h].Unique? ==> h in ImplicitHolders(m, l)
  {
  }

  lemma Apart(m: map<Id, Ent>, h: Id, l: Loc)
    requires h in m && m[h].l == l
    ensures m[h].Strong? ==> h !in WeakHandles(m, l) && h !in ImplicitHolders(m, l)
    ensures m[h].Weak? ==> h !in StrongOwners(m, l) && h !in ImplicitHolders(m, l)
    ensures m[h].Unique? ==> h !in StrongOwners(m, l) && h !in WeakHandles(m, l)
  {
  }

  // ---------- the counts ----------

  lemma CallIs(s: State, a: Action)
    requires Enabled(s, a) && !IsMaking(a) && !a.Resume?
    ensures a.h in s.ents && !s.aborted && 0 < s.threads
  {
    hide Unborrowed, Aborting;
  }

  /** `Rc::weak_count` is the number of Weak handles. */
  lemma WeakCountAnswer(s: State, h: Id)
    requires Reachable(s) && Resting(s) && Enabled(s, WeakCount(h)) && h in s.ents
    ensures RcStep(s, WeakCount(h), 0).out == GotCount(|WeakHandles(s.ents, s.ents[h].l)|)
  {
    HandleKind(s, WeakCount(h));
    CountersSay(s, h);
    hide Reachable, Resting, Enabled, StrongOwners, WeakHandles, Parties;
  }

  /** `rc::Weak::weak_count` is the same, or 0 when there is no strong handle. */
  lemma WeakCountOfWeakAnswer(s: State, h: Id)
    requires Reachable(s) && Resting(s) && Enabled(s, WeakCountOfWeak(h)) && h in s.ents
    ensures RcStep(s, WeakCountOfWeak(h), 0).out
         == GotCount(if StrongOwners(s.ents, s.ents[h].l) == {} then 0 else |WeakHandles(s.ents, s.ents[h].l)|)
  {
    CallIs(s, WeakCountOfWeak(h));
    CountersSay(s, h);
    hide Reachable, Resting, Enabled, StrongOwners, WeakHandles, Parties;
  }

  /** `upgrade` gives a handle exactly when there is a strong one already. */
  lemma UpgradeAnswer(s: State, h: Id)
    requires Reachable(s) && Resting(s) && Enabled(s, Upgrade(h)) && h in s.ents
    ensures var l, r := s.ents[h].l, RcStep(s, Upgrade(h), 0);
            if StrongOwners(s.ents, l) == {} then r.out == GotNone && r.s.ents == s.ents
            else r.out == GotHandle(s.next) && r.s.ents == s.ents[s.next := Strong(l)]
  {
    CallIs(s, Upgrade(h));
    CountersSay(s, h);
    hide Reachable, Resting, Enabled, StrongOwners, WeakHandles, Parties;
  }

  // ---------- uniqueness ----------

  /** `is_unique`, as `get_mut` uses it: no other handle of any kind. */
  lemma GetMutAnswer(s: State, h: Id)
    requires Reachable(s) && Resting(s) && Enabled(s, GetMut(h)) && h in s.ents
    ensures RcStep(s, GetMut(h), 0).out == if Parties(s.ents, s.ents[h].l) == {h} then GotMut else GotNone
  {
    HandleKind(s, GetMut(h));
    CountersSay(s, h);
    hide Reachable, Resting, Enabled, StrongOwners, WeakHandles, Parties;
  }

  /** `try_unwrap` gives the value out exactly to the only strong handle. */
  lemma TryUnwrapAnswer(s: State, h: Id)
    requires Reachable(s) && Resting(s) && Enabled(s, TryUnwrap(h)) && h in s.ents
    ensures RcStep(s, TryUnwrap(h), 0).out.GotValue? <==> StrongOwners(s.ents, s.ents[h].l) == {h}
    ensures !RcStep(s, TryUnwrap(h), 0).out.GotValue? ==> RcStep(s, TryUnwrap(h), 0).out == Refused(h)
  {
    HandleKind(s, TryUnwrap(h));
    CountersSay(s, h);
    hide Reachable, Resting, Enabled, StrongOwners, WeakHandles, Parties, MovedOut;
  }

  // ---------- what dropping a handle does ----------

  /** Nothing but the allocation `l` and the handle `h` changes. */
  ghost predicate GivesBack(s: State, t: State, h: Id, l: Loc) {
    && l in s.heap && t.heap.Keys == s.heap.Keys && t.ents == s.ents - {h}
    && (forall x | x in s.heap && x != l :: t.heap[x] == s.heap[x])
  }

  lemma GivesBackAt(s: State, c: Cell, h: Id, l: Loc)
    requires l in s.heap
    ensures GivesBack(s, Del(Access(s, l, c), h), h, l) && GivesBack(s, Del(DataAccess(s, l, c), h), h, l)
    ensures Del(Access(s, l, c), h).heap[l] == c && Del(DataAccess(s, l, c), h).heap[l] == c && At(s, l) == s.heap[l]
  {
  }

  lemma DroppedCell(max: nat, c: Cell)
    requires c.weak > 0 && !c.freed
    ensures var d := WeakDropped(max, c); (d.freed <==> c.weak == 1) && d.data == c.data && d.drops == c.drops
  {
  }

  /** Dropping an Rc destroys the value exactly when it is the last strong handle, and frees the memory exactly
      when it is the last handle of any kind. */
  lemma DropEffect(s: State, h: Id)
    requires Reachable(s) && Resting(s) && Enabled(s, DropArc(h)) && h in s.ents
    ensures var l, t := s.ents[h].l, RcStep(s, DropArc(h), 0).s;
            && GivesBack(s, t, h, l)
            && t.heap[l].drops == s.heap[l].drops + (if StrongOwners(s.ents, l) == {h} then 1 else 0)
            && t.heap[l].data == (if StrongOwners(s.ents, l) == {h} then Gone else s.heap[l].data)
            && (t.heap[l].freed <==> Parties(s.ents, l) == {h})
  {
    HandleKind(s, DropArc(h));
    CountersSay(s, h);
    Prepared(s, h);
    var l := s.ents[h].l;
    var c := s.heap[l];
    GivesBackAt(s, StrongDropped(Max(s), c), h, l);
    DroppedCell(Max(s), Destroyed(c.(strong := 0)));
    hide Reachable, Resting, Enabled, StrongOwners, WeakHandles, Parties, WeakDropped, GivesBack, Del, Access,
      DataAccess, At, Ready;
  }

  /** Dropping a Weak leaves the value alone, and frees the memory exactly when it is the last handle. */
  lemma DropWeakEffect(s: State, h: Id)
    requires Reachable(s) && Resting(s) && Enabled(s, DropWeak(h)) && h in s.ents
    ensures var l, t := s.ents[h].l, RcStep(s, DropWeak(h), 0).s;
            && GivesBack(s, t, h, l)
            && t.heap[l].drops == s.heap[l].drops && t.heap[l].data == s.heap[l].data
            && (t.heap[l].freed <==> Parties(s.ents, l) == {h})
  {
    HandleKind(s, DropWeak(h));
    CountersSay(s, h);
    var l := s.ents[h].l;
    GivesBackAt(s, WeakDropped(Max(s), s.heap[l]), h, l);
    DroppedCell(Max(s), s.heap[l]);
    hide Reachable, Resting, Enabled, StrongOwners, WeakHandles, Parties, WeakDropped, GivesBack, Del, Access, At;
  }

  /** Dropping a UniqueRc destroys the value, and frees the memory exactly when there is no Weak. */
  lemma DropUniqueEffect(s: State, h: Id)
    requires Reachable(s) && Resting(s) && Enabled(s, DropUnique(h)) && h in s.ents
    ensures var l, t := s.ents[h].l, RcStep(s, DropUnique(h), 0).s;
            && GivesBack(s, t, h, l)
            && t.heap[l].drops == s.heap[l].drops + 1 && t.heap[l].data == Gone
            && (t.heap[l].freed <==> Parties(s.ents, l) == {h})
  {
    HandleKind(s, DropUnique(h));
    CountersSay(s, h);
    var l := s.ents[h].l;
    GivesBackAt(s, WeakDropped(Max(s), Destroyed(s.heap[l])), h, l);
    DroppedCell(Max(s), Destroyed(s.heap[l]));
    hide Reachable, Resting, Enabled, StrongOwners, WeakHandles, Parties, WeakDropped, GivesBack, Del, DataAccess, At;
  }

  // ---------- publication ----------

  /** Before `new_cyclic_in` publishes its value no Weak of it upgrades; afterwards every one does. */
  lemma PublishEffect(s: State, h: Id, v: Value, w: Id)
    requires Reachable(s) && Resting(s) && Enabled(s, CyclicInit(h, v)) && h in s.ents && w != h
    requires w in s.ents && s.ents[w] == Weak(s.ents[h].l) && Enabled(s, Upgrade(w))
    ensures RcStep(s, Upgrade(w), 0).out == GotNone
    ensures var t := RcStep(s, CyclicInit(h, v), 0).s;
            Enabled(t, Upgrade(w)) ==>
              RcStep(t, Upgrade(w), 0).out.GotHandle? && Peek(At(t, s.ents[h].l).data) == v
  {
    HandleKind(s, CyclicInit(h, v));
    Prepared(s, h);
    PublishedCell(s, h, s.ents[h].l, v, w);
    hide Reachable, Resting, Enabled, Ready;
  }

  lemma PublishedCell(s: State, h: Id, l: Loc, v: Value, w: Id)
    requires Enabled(s, CyclicInit(h, v)) && Enabled(s, Upgrade(w)) && h in s.ents && s.ents[h].l == l && l in s.heap
    requires w in s.ents && w != h && s.ents[w] == Weak(l) && s.heap[l].strong == 0 && 1 < Max(s)
    ensures RcStep(s, Upgrade(w), 0).out == GotNone
    ensures var t := RcStep(s, CyclicInit(h, v), 0).s;
            Enabled(t, Upgrade(w)) ==> RcStep(t, Upgrade(w), 0).out.GotHandle? && Peek(At(t, l).data) == v
  {
    hide Enabled;
  }
}
