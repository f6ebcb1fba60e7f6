/** Every step of the `Arc` protocol keeps the invariant. */
module ArcSteps {
  import opened ArcMachine
  import opened ArcLedger
  import opened ArcInvariant

  /** Entity `e` holds on other allocations what `i` held there before. */
  predicate SameSecond(m: map<Id, Ent>, i: Id, e: Ent) {
    if i in m then m[i].l == e.l && Second(m[i]) == Second(e) && Builds(m[i]) == Builds(e) else Second(e) == None
  }

  lemma SameElsewhere(m: map<Id, Ent>, i: Id, e: Ent, x: Loc)
    requires SameSecond(m, i, e) && x != e.l
    ensures Contrib(e, x) == Held(m, i, x)
  {
    hide RoleOf, Second;
  }

  lemma NothingElsewhere(e: Ent, x: Loc)
    requires Second(e) == None && x != e.l
    ensures Contrib(e, x) == ZERO
  {
    hide RoleOf, Second;
  }

  /** What is known about the allocation of an entity. */
  lemma Facts(s: State, i: Id)
    requires Inv(s) && i in s.ents
    ensures EntOk(s, i) && s.ents[i].l in s.heap
    ensures CellOk(s.maxRef, s.heap[s.ents[i].l], Total(s.ents, s.ents[i].l))
    ensures AtMost(Contrib(s.ents[i], s.ents[i].l), Total(s.ents, s.ents[i].l))
    ensures Total(s.ents, s.ents[i].l).fl.abS + Total(s.ents, s.ents[i].l).fl.abW <= s.threads < s.maxRef
    ensures i < s.next && s.ents[i].l < s.next && !s.ub
  {
    hide Contrib, CellOk, Total, AtMost, BorrowOk, ValuesOk, CopiesOk;
    var l := s.ents[i].l;
    assert EntOk(s, i);
    assert LedgerOk(s, l);
    TotalHas(s.ents, i, l);
    TotalAborts(s.ents, l);
  }

  /** One entity and the cell of its allocation change. */
  lemma StepPut(s: State, t: State, i: Id, e: Ent, c: Cell)
    requires Inv(s) && SameConfig(s, t) && !t.ub && Free(s, i)
    requires t.ents == s.ents[i := e] && SameSecond(s.ents, i, e)
    requires e.l in s.heap && t.heap == s.heap[e.l := c]
    requires IsAbort(e) ==> |Aborting(s.ents)| < s.threads
    requires EntOk(t, i)
    requires c.data == s.heap[e.l].data || Owners(Held(s.ents, i, e.l)) > 0
    requires CellOk(s.maxRef, c, Add(Sub(Total(s.ents, e.l), Held(s.ents, i, e.l)), Contrib(e, e.l)))
    ensures Inv(t)
  {
    hide CellOk, Contrib, Total, AtMost, ValuesOk, LocsOk, BorrowOk, CopiesOk, Free, IsAbort, Aborting, OthersKeep,
      SameSecond, Add, Sub;
    var l := e.l;
    assert LedgerOk(s, l);
    forall x | x in t.heap && x != l ensures Held(t.ents, i, x) == Held(s.ents, i, x) {
      SameElsewhere(s.ents, i, e, x);
    }
    if c.data == s.heap[l].data {
      SameDataKeep(s, t, i);
    } else {
      OwnerKeeps(s, t, i, l, l);
    }
    PutInv(s, t, i, e, l, l);
  }

  predicate Simple(e: Ent) {
    && Second(e) == None && Borrowed(e) == None && Remembered(e) == None && Copied(e) == None
    && !e.MutRef? && !e.WeakCountLoad?
  }

  lemma SimpleOk(t: State, i: Id, e: Ent)
    requires i in t.ents && t.ents[i] == e && i < t.next && e.l in t.heap && Simple(e)
    ensures EntOk(t, i)
  {
    hide Second, Borrowed, Remembered, Copied;
  }

  lemma NewId(s: State)
    requires Inv(s)
    ensures s.next !in s.ents && s.next !in s.heap && Free(s, s.next)
  {
    hide CellOk, Total, ValuesOk, LocsOk, BorrowOk, CopiesOk;
    assert s.next in s.ents ==> EntOk(s, s.next);
    assert s.next in s.heap ==> LedgerOk(s, s.next);
  }

  /** One entity goes, and the cell of its allocation changes. */
  lemma StepDel(s: State, t: State, i: Id, c: Cell)
    requires Inv(s) && SameConfig(s, t) && !t.ub && Free(s, i)
    requires i in s.ents && t.ents == s.ents - {i} && Second(s.ents[i]) == None
    requires s.ents[i].l in s.heap && t.heap == s.heap[s.ents[i].l := c]
    requires c.data == s.heap[s.ents[i].l].data
    requires CellOk(s.maxRef, c, Add(Sub(Total(s.ents, s.ents[i].l), Held(s.ents, i, s.ents[i].l)), ZERO))
    ensures Inv(t)
  {
    hide CellOk, Contrib, Total, AtMost, ValuesOk, LocsOk, BorrowOk, CopiesOk, Free, OthersKeep, Add, Sub, Second;
    var l := s.ents[i].l;
    assert LedgerOk(s, l);
    forall x | x in t.heap && x != l ensures Held(t.ents, i, x) == Held(s.ents, i, x) {
      NothingElsewhere(s.ents[i], x);
    }
    SameDataKeep(s, t, i);
    DelInv(s, t, i, l);
  }

  /** A first handle to a new allocation. */
  lemma StepNew(s: State, t: State, e: Ent, c: Cell)
    requires Inv(s) && SameConfig(s, t) && !t.ub
    requires t.ents == s.ents[s.next := e] && t.heap == s.heap[s.next := c] && t.next == s.next + 1
    requires e.l == s.next && Simple(e) && !IsAbort(e)
    requires CellOk(s.maxRef, c, Contrib(e, s.next))
    ensures Inv(t)
  {
    hide CellOk, Contrib, Total, AtMost, ValuesOk, LocsOk, BorrowOk, CopiesOk, Free, OthersKeep, Simple, EntOk,
      LedgerOk;
    var l := s.next;
    NewId(s);
    FreshLoc(s, l);
    SimpleOk(t, l, e);
    forall x | x in t.heap && x != l ensures Held(t.ents, l, x) == Held(s.ents, l, x) {
      SimpleElsewhere(e, x);
    }
    SameDataKeep(s, t, l);
    assert Add(Sub(ZERO, ZERO), Contrib(e, l)) == Contrib(e, l);
    PutInv(s, t, l, e, l, l);
  }

  lemma SimpleElsewhere(e: Ent, x: Loc)
    requires Simple(e) && x != e.l
    ensures Contrib(e, x) == ZERO
  {
    NothingElsewhere(e, x);
  }

  // ---------- creating and cloning strong references ----------

  lemma FirstNums(maxRef: nat, c: Cell, n: Nums)
    requires 0 < maxRef
    requires n.st.plain + n.so.sole + n.so.seed == 1 && 0 <= n.st.plain && 0 <= n.so.sole && 0 <= n.so.seed
    requires n == ZERO.(st := ZERO.st.(plain := n.st.plain), so := ZERO.so.(sole := n.so.sole, seed := n.so.seed))
    requires c == FreshCell(n.st.plain, 1, c.data)
    requires if n.so.seed > 0 then c.data.Uninit? else c.data.Live?
    ensures CellOk(maxRef, c, n)
  {
  }

  lemma NewInv(s: State, v: Value)
    requires Inv(s)
    ensures Inv(DoNew(s, v).s)
  {
    hide Inv, Total, CellOk;
    InvConfig(s);
    var c := FreshCell(1, 1, Live(v));
    FirstNums(s.maxRef, c, PLAIN);
    StepNew(s, DoNew(s, v).s, Strong(s.next), c);
  }

  lemma NewCyclicInv(s: State)
    requires Inv(s)
    ensures Inv(DoNewCyclic(s).s)
  {
    hide Inv, Total, CellOk;
    InvConfig(s);
    var c := FreshCell(0, 1, Uninit);
    FirstNums(s.maxRef, c, SEED);
    StepNew(s, DoNewCyclic(s).s, Seed(s.next), c);
  }

  lemma NewUniqueInv(s: State, v: Value)
    requires Inv(s)
    ensures Inv(DoNewUnique(s, v).s)
  {
    hide Inv, Total, CellOk;
    InvConfig(s);
    var c := FreshCell(0, 1, Live(v));
    FirstNums(s.maxRef, c, SOLE);
    StepNew(s, DoNewUnique(s, v).s, Unique(s.next), c);
  }

  lemma InvConfig(s: State)
    requires Inv(s)
    ensures 0 < s.maxRef && s.threads < s.maxRef && !s.ub
  {
    hide LedgerOk, EntOk;
  }

  lemma CloneArcNums(maxRef: nat, c: Cell, n: Nums)
    requires CellOk(maxRef, c, n) && n.st.plain > 0 && n.fl.abS < maxRef
    ensures c.strong + 1 < 2 * maxRef + 2 && !c.freed
    ensures var d := PLAIN.(fl := PLAIN.fl.(abS := (if c.strong > maxRef then 1 else 0)));
            CellOk(maxRef, c.(strong := c.strong + 1), Add(Sub(n, ZERO), d))
  {
  }

  lemma CloneArcInv(s: State, h: Id)
    requires Inv(s) && Enabled(s, CloneArc(h))
    ensures Inv(DoCloneArc(s, s.ents[h].l).s)
  {
    hide Unborrowed, ValuesOk, CopiesOk, Aborting, Total, Inv, CellOk, Sub, Add, Free, BorrowOk, EntOk;
    Facts(s, h);
    NewId(s);
    var l := s.ents[h].l;
    var c := s.heap[l];
    var n := Total(s.ents, l);
    var e := if c.strong > s.maxRef then AbortStrong(l) else Strong(l);
    CloneArcNums(s.maxRef, c, n);
    var t := DoCloneArc(s, l).s;
    assert t.heap == s.heap[l := c.(strong := c.strong + 1)];
    assert Simple(e);
    SimpleOk(t, s.next, e);
    StepPut(s, t, s.next, e, c.(strong := c.strong + 1));
  }

  // ---------- giving up a strong reference ----------

  /** What can become of the last strong reference: somebody takes the value apart, alone. */
  lemma LastStrongNums(maxRef: nat, c: Cell, n: Nums)
    requires CellOk(maxRef, c, n) && n.st.plain > 0
    requires n.fl.lock > 0 ==> StrongRefs(n) > 1
    ensures c.strong > 0 && !c.freed
    ensures c.strong == 1 ==> CellOk(maxRef, c.(strong := 0), Add(Sub(n, PLAIN), SOLE))
    ensures c.strong != 1 ==> CellOk(maxRef, c.(strong := c.strong - 1), Add(Sub(n, PLAIN), ZERO))
  {
  }

  lemma StrongPlain(e: Ent)
    requires e.Strong? || e.MakeDropOld?
    ensures Contrib(e, e.l) == PLAIN
  {
  }

  lemma FreeStrong(s: State, h: Id)
    requires Inv(s) && h in s.ents && s.ents[h].Strong? && Unborrowed(s, h)
    ensures Free(s, h)
    ensures Held(s.ents, h, s.ents[h].l) == PLAIN
    ensures Total(s.ents, s.ents[h].l).fl.lock > 0 ==> StrongRefs(Total(s.ents, s.ents[h].l)) > 1
  {
    hide Inv, Total, Contrib;
    StrongPlain(s.ents[h]);
    if Total(s.ents, s.ents[h].l).fl.lock > 0 {
      LockNeedsAnother(s, h, s.ents[h].l);
    }
  }

  /** `drop`, `into_inner`, `try_unwrap` and `make_mut` give up a strong reference in the same way. */
  lemma GiveUpInv(s: State, h: Id, t: State, e: Ent)
    requires Inv(s) && h in s.ents && s.ents[h].Strong? && Unborrowed(s, h)
    requires s.ents[h].l in s.heap && s.heap[s.ents[h].l].strong == 1
    requires e == Destroy(s.ents[h].l, Done) || e == MoveOut(s.ents[h].l)
          || e == MakeWeakLoad(s.ents[h].l, Peek(s.heap[s.ents[h].l].data))
    requires t == Put(Access(s, s.ents[h].l, s.heap[s.ents[h].l].(strong := 0)), h, e)
    ensures Inv(t)
  {
    hide Unborrowed, Aborting, Total, Inv, CellOk, Sub, Add, Free, BorrowOk, EntOk;
    Facts(s, h);
    FreeStrong(s, h);
    var l := s.ents[h].l;
    var c := s.heap[l];
    LastStrongNums(s.maxRef, c, Total(s.ents, l));
    PlainIsLive(s.maxRef, c, Total(s.ents, l));
    GivenUpOk(t, h, e, c.data);
    StepPut(s, t, h, e, c.(strong := 0));
  }

  lemma PlainIsLive(maxRef: nat, c: Cell, n: Nums)
    requires CellOk(maxRef, c, n) && n.st.plain > 0
    ensures c.data.Live?
  {
  }

  lemma GivenUpOk(t: State, i: Id, e: Ent, d: Data)
    requires i in t.ents && t.ents[i] == e && i < t.next && e.l in t.heap && t.heap[e.l].data == d && d.Live?
    requires e == Destroy(e.l, Done) || e == MoveOut(e.l) || e == MakeWeakLoad(e.l, Peek(d))
          || e == MakeClone(e.l, Peek(d))
    ensures EntOk(t, i)
  {
  }

  lemma DropStrongInv(s: State, h: Id)
    requires Inv(s) && h in s.ents && s.ents[h].Strong? && Unborrowed(s, h)
    requires s.ents[h].l in s.heap && s.heap[s.ents[h].l].strong != 1
    ensures Inv(Del(Access(s, s.ents[h].l, s.heap[s.ents[h].l].(strong := Dec(s, s.heap[s.ents[h].l].strong))), h))
  {
    hide Unborrowed, Aborting, Total, Inv, CellOk, Sub, Add, Free, BorrowOk, EntOk;
    Facts(s, h);
    FreeStrong(s, h);
    var l := s.ents[h].l;
    var c := s.heap[l];
    LastStrongNums(s.maxRef, c, Total(s.ents, l));
    StepDel(s, Del(Access(s, l, c.(strong := c.strong - 1)), h), h, c.(strong := c.strong - 1));
  }

  lemma TouchNothing(s: State, l: Loc)
    requires Inv(s) && l in s.heap && !s.heap[l].freed
    ensures Access(s, l, s.heap[l]) == s
  {
    hide Inv;
    assert s.heap[l := s.heap[l]] == s.heap;
  }

  lemma HolderNotFreed(maxRef: nat, c: Cell, n: Nums, a: Nums)
    requires CellOk(maxRef, c, n) && AtMost(a, n)
    requires a.st.plain + Owners(a) + a.we.expl + a.we.rel + a.we.dealloc > 0 && AtMost(ZERO, a)
    ensures !c.freed
  {
  }

  lemma DropArcInv(s: State, h: Id)
    requires Inv(s) && Enabled(s, DropArc(h))
    ensures Inv(DoDropArc(s, h, s.ents[h].l).s)
  {
    hide Inv, Unborrowed, CellOk, Total;
    Facts(s, h);
    var l := s.ents[h].l;
    if s.heap[l].strong == 1 {
      GiveUpInv(s, h, DoDropArc(s, h, l).s, Destroy(l, Done));
    } else {
      DropStrongInv(s, h);
    }
  }

  lemma IntoInnerInv(s: State, h: Id)
    requires Inv(s) && Enabled(s, IntoInner(h))
    ensures Inv(DoIntoInner(s, h, s.ents[h].l).s)
  {
    hide Inv, Unborrowed, CellOk, Total;
    Facts(s, h);
    var l := s.ents[h].l;
    if s.heap[l].strong == 1 {
      GiveUpInv(s, h, DoIntoInner(s, h, l).s, MoveOut(l));
    } else {
      DropStrongInv(s, h);
    }
  }

  /** A reference to a cell that its entity keeps alive. */
  lemma Touch(s: State, i: Id)
    requires Inv(s) && i in s.ents && (RoleOf(s.ents[i]) != Nothing)
    ensures s.ents[i].l in s.heap && !s.heap[s.ents[i].l].freed
    ensures Access(s, s.ents[i].l, s.heap[s.ents[i].l]) == s
  {
    hide Inv, Total, CellOk, Add, Sub;
    Facts(s, i);
    var l := s.ents[i].l;
    HolderNotFreed(s.maxRef, s.heap[l], Total(s.ents, l), Contrib(s.ents[i], l));
    TouchNothing(s, l);
  }

  lemma TryUnwrapInv(s: State, h: Id)
    requires Inv(s) && Enabled(s, TryUnwrap(h))
    ensures Inv(DoTryUnwrap(s, h, s.ents[h].l).s)
  {
    hide Inv, Unborrowed, CellOk, Total;
    Touch(s, h);
    var l := s.ents[h].l;
    if s.heap[l].strong == 1 {
      GiveUpInv(s, h, DoTryUnwrap(s, h, l).s, MoveOut(l));
    }
  }

  lemma KeepNums(maxRef: nat, c: Cell, n: Nums, a: Nums)
    requires CellOk(maxRef, c, n)
    ensures CellOk(maxRef, c, Add(Sub(n, a), a))
  {
    hide CellOk;
    assert Add(Sub(n, a), a) == n;
  }

  lemma MakeMutInv(s: State, h: Id)
    requires Inv(s) && Enabled(s, MakeMut(h))
    ensures Inv(DoMakeMut(s, h, s.ents[h].l).s)
  {
    hide Inv, Unborrowed, CellOk, Total, Aborting, Add, Sub, EntOk, Free;
    Touch(s, h);
    Facts(s, h);
    FreeStrong(s, h);
    var l := s.ents[h].l;
    var c := s.heap[l];
    var t := DoMakeMut(s, h, l).s;
    if c.strong == 1 {
      GiveUpInv(s, h, t, MakeWeakLoad(l, Peek(c.data)));
    } else {
      var e := MakeClone(l, Peek(c.data));
      PlainIsLive(s.maxRef, c, Total(s.ents, l));
      GivenUpOk(t, h, e, c.data);
      KeepNums(s.maxRef, c, Total(s.ents, l), PLAIN);
      StepPut(s, t, h, e, c);
    }
  }
}
