/** The reference-counting protocol of `Arc`, `Weak` and `UniqueArc`
    (library/alloc/src/sync.rs) as a state machine.

    A step is one call or one resumption of a call, and performs at most one atomic access or one
    data access, so any interleaving of any number of calls is a sequence of steps.  (Copying a value
    into an allocation that nobody else knows yet counts as one data access.)  Accesses are
    sequentially consistent.

    Handles and calls in flight share one map of "entities".  A call that takes its handle by value
    or by `&mut` replaces the handle's entity, so nothing else can use the handle meanwhile.  A call
    that takes `&self` and needs several accesses is an entity of its own that borrows the handle.
    A handle given to `mem::forget` is one that no later step mentions. */
module ArcMachine {

  type Loc = nat
  type Id = nat
  type Value = int

  datatype Data = Uninit | Live(v: Value) | Gone

  /** One `ArcInner`.  The last four fields record history: how often the value was dropped in place,
      handed to a caller, moved to another allocation by `make_mut`, and how often the memory was
      freed. */
  datatype Cell = Cell(strong: nat, weak: nat, data: Data, freed: bool,
                       drops: nat, handed: nat, steals: nat, frees: nat)

  function FreshCell(strong: nat, weak: nat, data: Data): Cell {
    Cell(strong, weak, data, false, 0, 0, 0, 0)
  }

  /** What a call does after it has released the last reference it holds on the old allocation. */
  datatype Cont =
    | Done
    | Return(v: Value)
    | ThenMut(n: Loc, v0: Value, got: Value)

  datatype Ent =
    // Handles at rest.
    | Strong(l: Loc)
    | Weak(l: Loc)
    | Unique(l: Loc)
    | Seed(l: Loc)                                // the Weak that new_cyclic_in lends to its closure
    // Calls that borrow the handle `h` by shared reference.
    | DowngradeLoop(h: Id, l: Loc, cur: nat)
    | UpgradeLoop(h: Id, l: Loc, cur: nat)
    | UniqueLoad(h: Id, l: Loc)                   // is_unique holds the lock
    | UniqueStore(h: Id, l: Loc, unique: bool)
    | WeakCountLoad(h: Id, l: Loc, cur: nat, seen: nat, held: bool)
    | AbortStrong(l: Loc)                         // past an over-limit fetch_add, before abort()
    | AbortWeak(l: Loc)
    // Calls that took the handle by `&mut`.
    | GetMutLoad(l: Loc)
    | GetMutStore(l: Loc, unique: bool)
    | MakeClone(l: Loc, v0: Value)
    | MakeCloneInit(l: Loc, n: Loc, v0: Value)
    | MakeDropOld(l: Loc, n: Loc, v0: Value, got: Value)
    | MakeWeakLoad(l: Loc, v0: Value)
    | MakeStore(l: Loc, v0: Value)
    | MakeSteal(l: Loc, v0: Value)
    | MakeMove(l: Loc, n: Loc, v0: Value)
    | MutRef(l: Loc, v0: Value, got: Value, v: Value)   // a live `&mut T`
    // Calls that took the handle by value.
    | Destroy(l: Loc, k: Cont)
    | MoveOut(l: Loc)
    | ReleaseWeak(l: Loc, k: Cont)
    | Dealloc(l: Loc, k: Cont)
    | CyclicPublish(l: Loc)

  /** `maxRef` is isize::MAX of the target, so usize::MAX is 2 * maxRef + 1.  `clones` lists the pairs
      (original, copy) that the user's `Clone` has produced.  `ub` is set by any access to freed
      memory and by any read, drop or move of a value that is not there. */
  datatype State = State(maxRef: nat, threads: nat, heap: map<Loc, Cell>, ents: map<Id, Ent>,
                         next: nat, clones: set<(Value, Value)>, aborted: bool, ub: bool)

  datatype Action =
    | New(v: Value)
    | CloneArc(h: Id)
    | DropArc(h: Id)
    | Read(h: Id)
    | StrongCount(h: Id)
    | WeakCount(h: Id)
    | Downgrade(h: Id)
    | IsUnique(h: Id)
    | GetMut(h: Id)
    | MakeMut(h: Id)
    | Write(h: Id, v: Value)
    | EndMut(h: Id)
    | TryUnwrap(h: Id)
    | IntoInner(h: Id)
    | CloneWeak(h: Id)
    | DropWeak(h: Id)
    | Upgrade(h: Id)
    | WeakCountOfWeak(h: Id)
    | NewCyclic
    | CyclicInit(h: Id, v: Value)
    | NewUnique(v: Value)
    | UniqueDowngrade(h: Id)
    | UniqueWrite(h: Id, v: Value)
    | IntoArc(h: Id)
    | DropUnique(h: Id)
    | Resume(h: Id, spurious: bool, copy: Value)  // next access of the call `h`

  datatype Out =
    | Pending
    | Unit
    | GotHandle(h: Id)
    | GotNone
    | GotValue(v: Value)
    | GotMut
    | Refused(h: Id)
    | GotCount(n: nat)
    | GotBool(b: bool)
    | Panicked
    | Aborted

  datatype Result = Result(s: State, out: Out)

  // ---------- entities ----------

  predicate IsWeakRef(e: Ent) { e.Weak? || e.Seed? }

  predicate IsCall(e: Ent) {
    !(e.Strong? || e.Weak? || e.Unique? || e.Seed? || e.MutRef?)
  }

  predicate IsAbort(e: Ent) { e.AbortStrong? || e.AbortWeak? }

  datatype Option<T> = None | Some(value: T)

  /** The handle that a shared call borrows. */
  function Borrowed(e: Ent): Option<Id> {
    if e.DowngradeLoop? || e.UpgradeLoop? || e.UniqueLoad? || e.UniqueStore? || e.WeakCountLoad? then Some(e.h)
    else None
  }

  predicate Unborrowed(s: State, h: Id) {
    forall i | i in s.ents :: Borrowed(s.ents[i]) != Some(h)
  }

  function Aborting(m: map<Id, Ent>): set<Id> {
    set i | i in m && IsAbort(m[i])
  }

  function Max(s: State): nat { 2 * s.maxRef + 1 }
  function Inc(s: State, n: nat): nat { if n == Max(s) then 0 else n + 1 }
  function Dec(s: State, n: nat): nat { if n == 0 then Max(s) else n - 1 }

  function Peek(d: Data): Value { if d.Live? then d.v else 0 }

  // ---------- state updates ----------

  /** The cell at `l`; memory that was never allocated reads as freed. */
  function At(s: State, l: Loc): Cell {
    if l in s.heap then s.heap[l] else Cell(0, 0, Gone, true, 0, 0, 0, 0)
  }

  /** An access to the cell at `l` that leaves `c` there. */
  function Access(s: State, l: Loc, c: Cell): State {
    s.(heap := s.heap[l := c], ub := s.ub || At(s, l).freed)
  }

  /** An access to the value at `l`, which has to be there. */
  function DataAccess(s: State, l: Loc, c: Cell): State {
    s.(heap := s.heap[l := c], ub := s.ub || At(s, l).freed || !At(s, l).data.Live?)
  }

  function Put(s: State, i: Id, e: Ent): State {
    s.(ents := s.ents[i := e], next := if i == s.next then s.next + 1 else s.next)
  }

  function Del(s: State, i: Id): State {
    s.(ents := s.ents - {i})
  }

  function Alloc(s: State, c: Cell): State {
    s.(heap := s.heap[s.next := c], next := s.next + 1)
  }

  function Finish(s: State, i: Id, k: Cont): Result {
    match k
    case Done => Result(Del(s, i), Unit)
    case Return(v) => Result(Del(s, i), GotValue(v))
    case ThenMut(n, v0, got) => Result(Put(s, i, MutRef(n, v0, got, got)), GotMut)
  }

  // ---------- calls on Arc ----------

  function DoNew(s: State, v: Value): Result {
    Result(Put(s.(heap := s.heap[s.next := FreshCell(1, 1, Live(v))]), s.next, Strong(s.next)), GotHandle(s.next))
  }

  function DoCloneArc(s: State, l: Loc): Result {
    var c := At(s, l);
    var s1 := Access(s, l, c.(strong := Inc(s, c.strong)));
    if c.strong > s.maxRef then Result(Put(s1, s.next, AbortStrong(l)), Pending)
    else Result(Put(s1, s.next, Strong(l)), GotHandle(s.next))
  }

  function DoDropArc(s: State, h: Id, l: Loc): Result {
    var c := At(s, l);
    var s1 := Access(s, l, c.(strong := Dec(s, c.strong)));
    if c.strong != 1 then Result(Del(s1, h), Unit) else Result(Put(s1, h, Destroy(l, Done)), Pending)
  }

  function DoRead(s: State, l: Loc): Result {
    Result(DataAccess(s, l, At(s, l)), GotValue(Peek(At(s, l).data)))
  }

  function DoStrongCount(s: State, l: Loc): Result {
    Result(Access(s, l, At(s, l)), GotCount(At(s, l).strong))
  }

  function DoWeakCount(s: State, l: Loc): Result {
    var c := At(s, l);
    Result(Access(s, l, c), GotCount(if c.weak == Max(s) then 0 else Dec(s, c.weak)))
  }

  function DoDowngrade(s: State, h: Id, l: Loc): Result {
    Result(Put(Access(s, l, At(s, l)), s.next, DowngradeLoop(h, l, At(s, l).weak)), Pending)
  }

  function DoDowngradeLoop(s: State, i: Id, h: Id, l: Loc, cur: nat, spurious: bool): Result {
    var c := At(s, l);
    if cur == Max(s) then Result(Put(Access(s, l, c), i, DowngradeLoop(h, l, c.weak)), Pending)
    else if cur > s.maxRef then Result(Del(s, i), Panicked)
    else if c.weak == cur && !spurious then
      Result(Put(Access(s, l, c.(weak := cur + 1)), i, Weak(l)), GotHandle(i))
    else Result(Put(Access(s, l, c), i, DowngradeLoop(h, l, c.weak)), Pending)
  }

  function DoIsUnique(s: State, h: Id, l: Loc): Result {
    var c := At(s, l);
    if c.weak == 1 then
      Result(Put(Access(s, l, c.(weak := Max(s))), s.next, UniqueLoad(h, l)), Pending)
    else Result(Access(s, l, c), GotBool(false))
  }

  function DoUniqueLoad(s: State, i: Id, h: Id, l: Loc): Result {
    Result(Put(Access(s, l, At(s, l)), i, UniqueStore(h, l, At(s, l).strong == 1)), Pending)
  }

  function DoUniqueStore(s: State, i: Id, l: Loc, unique: bool): Result {
    Result(Del(Access(s, l, At(s, l).(weak := 1)), i), GotBool(unique))
  }

  function DoGetMut(s: State, h: Id, l: Loc): Result {
    var c := At(s, l);
    if c.weak == 1 then Result(Put(Access(s, l, c.(weak := Max(s))), h, GetMutLoad(l)), Pending)
    else Result(Access(s, l, c), GotNone)
  }

  function DoGetMutLoad(s: State, i: Id, l: Loc): Result {
    Result(Put(Access(s, l, At(s, l)), i, GetMutStore(l, At(s, l).strong == 1)), Pending)
  }

  function DoGetMutStore(s: State, i: Id, l: Loc, unique: bool): Result {
    var c := At(s, l);
    var s1 := Access(s, l, c.(weak := 1));
    if unique then Result(Put(s1, i, MutRef(l, Peek(c.data), Peek(c.data), Peek(c.data))), GotMut)
    else Result(Put(s1, i, Strong(l)), GotNone)
  }

  function DoMakeMut(s: State, h: Id, l: Loc): Result {
    var c := At(s, l);
    if c.strong == 1 then
      Result(Put(Access(s, l, c.(strong := 0)), h, MakeWeakLoad(l, Peek(c.data))), Pending)
    else Result(Put(Access(s, l, c), h, MakeClone(l, Peek(c.data))), Pending)
  }

  function DoMakeClone(s: State, i: Id, l: Loc, v0: Value): Result {
    Result(Put(Alloc(s, FreshCell(1, 1, Uninit)), i, MakeCloneInit(l, s.next, v0)), Pending)
  }

  function DoMakeCloneInit(s: State, i: Id, l: Loc, n: Loc, v0: Value, copy: Value): Result {
    var s1 := DataAccess(s, l, At(s, l));
    var s2 := Access(s1, n, At(s1, n).(data := Live(copy)));
    var s3 := s2.(clones := s.clones + {(Peek(At(s, l).data), copy)});
    Result(Put(s3, i, MakeDropOld(l, n, v0, copy)), Pending)
  }

  function DoMakeDropOld(s: State, i: Id, l: Loc, n: Loc, v0: Value, got: Value): Result {
    var c := At(s, l);
    var s1 := Access(s, l, c.(strong := Dec(s, c.strong)));
    if c.strong != 1 then Result(Put(s1, i, MutRef(n, v0, got, got)), GotMut)
    else Result(Put(s1, i, Destroy(l, ThenMut(n, v0, got))), Pending)
  }

  function DoMakeWeakLoad(s: State, i: Id, l: Loc, v0: Value): Result {
    Result(Put(Access(s, l, At(s, l)), i, if At(s, l).weak != 1 then MakeSteal(l, v0) else MakeStore(l, v0)), Pending)
  }

  function DoMakeStore(s: State, i: Id, l: Loc, v0: Value): Result {
    Result(Put(Access(s, l, At(s, l).(strong := 1)), i, MutRef(l, v0, v0, v0)), GotMut)
  }

  function DoMakeSteal(s: State, i: Id, l: Loc, v0: Value): Result {
    Result(Put(Alloc(s, FreshCell(1, 1, Uninit)), i, MakeMove(l, s.next, v0)), Pending)
  }

  function DoMakeMove(s: State, i: Id, l: Loc, n: Loc, v0: Value): Result {
    var c := At(s, l);
    var s1 := DataAccess(s, l, c.(data := Gone, steals := c.steals + 1));
    var s2 := Access(s1, n, At(s1, n).(data := c.data));
    Result(Put(s2, i, ReleaseWeak(l, ThenMut(n, v0, Peek(c.data)))), Pending)
  }

  function DoWrite(s: State, i: Id, e: Ent, v: Value): Result
    requires e.MutRef?
  {
    Result(Put(DataAccess(s, e.l, At(s, e.l).(data := Live(v))), i, e.(v := v)), Unit)
  }

  function DoTryUnwrap(s: State, h: Id, l: Loc): Result {
    var c := At(s, l);
    if c.strong == 1 then Result(Put(Access(s, l, c.(strong := 0)), h, MoveOut(l)), Pending)
    else Result(Access(s, l, c), Refused(h))
  }

  function DoIntoInner(s: State, h: Id, l: Loc): Result {
    var c := At(s, l);
    var s1 := Access(s, l, c.(strong := Dec(s, c.strong)));
    if c.strong != 1 then Result(Del(s1, h), GotNone) else Result(Put(s1, h, MoveOut(l)), Pending)
  }

  function DoMoveOut(s: State, i: Id, l: Loc): Result {
    var c := At(s, l);
    var s1 := DataAccess(s, l, c.(data := Gone, handed := c.handed + 1));
    Result(Put(s1, i, ReleaseWeak(l, Return(Peek(c.data)))), Pending)
  }

  function DoDestroy(s: State, i: Id, l: Loc, k: Cont): Result {
    var c := At(s, l);
    Result(Put(DataAccess(s, l, c.(data := Gone, drops := c.drops + 1)), i, ReleaseWeak(l, k)), Pending)
  }

  function DoReleaseWeak(s: State, i: Id, l: Loc, k: Cont): Result {
    var c := At(s, l);
    var s1 := Access(s, l, c.(weak := Dec(s, c.weak)));
    if c.weak == 1 then Result(Put(s1, i, Dealloc(l, k)), Pending) else Finish(s1, i, k)
  }

  function DoDealloc(s: State, i: Id, l: Loc, k: Cont): Result {
    var c := At(s, l);
    Finish(Access(s, l, c.(freed := true, frees := c.frees + 1)), i, k)
  }

  // ---------- calls on Weak ----------

  function DoCloneWeak(s: State, l: Loc): Result {
    var c := At(s, l);
    var s1 := Access(s, l, c.(weak := Inc(s, c.weak)));
    if c.weak > s.maxRef then Result(Put(s1, s.next, AbortWeak(l)), Pending)
    else Result(Put(s1, s.next, Weak(l)), GotHandle(s.next))
  }

  function DoDropWeak(s: State, h: Id, l: Loc): Result {
    DoReleaseWeak(s, h, l, Done)
  }

  function DoUpgrade(s: State, h: Id, l: Loc): Result {
    Result(Put(Access(s, l, At(s, l)), s.next, UpgradeLoop(h, l, At(s, l).strong)), Pending)
  }

  function DoUpgradeLoop(s: State, i: Id, h: Id, l: Loc, cur: nat, spurious: bool): Result {
    var c := At(s, l);
    if cur == 0 then Result(Del(s, i), GotNone)
    else if cur > s.maxRef then Result(Del(s, i), Panicked)
    else if c.strong == cur && !spurious then
      Result(Put(Access(s, l, c.(strong := cur + 1)), i, Strong(l)), GotHandle(i))
    else Result(Put(Access(s, l, c), i, UpgradeLoop(h, l, c.strong)), Pending)
  }

  /** The explicit `Weak` handles of `l`. */
  function WeakHandles(m: map<Id, Ent>, l: Loc): set<Id> {
    set i | i in m && ((m[i].Weak? || m[i].AbortWeak?) && m[i].l == l)
  }

  /** The first of the two loads of `Weak::weak_count`.  `seen` and `held` record, for the proofs only,
      how many explicit `Weak` handles there were and whether the value was still there. */
  function DoWeakCountOfWeak(s: State, h: Id, l: Loc): Result {
    var c := At(s, l);
    var seen := |WeakHandles(s.ents, l)|;
    Result(Put(Access(s, l, c), s.next, WeakCountLoad(h, l, c.weak, seen, !c.data.Gone?)), Pending)
  }

  function DoWeakCountLoad(s: State, i: Id, l: Loc, cur: nat): Result {
    var c := At(s, l);
    Result(Del(Access(s, l, c), i), GotCount(if c.strong == 0 then 0 else Dec(s, cur)))
  }

  // ---------- new_cyclic_in and UniqueArc ----------

  function DoNewCyclic(s: State): Result {
    Result(Put(s.(heap := s.heap[s.next := FreshCell(0, 1, Uninit)]), s.next, Seed(s.next)), Pending)
  }

  function DoCyclicInit(s: State, h: Id, l: Loc, v: Value): Result {
    Result(Put(Access(s, l, At(s, l).(data := Live(v))), h, CyclicPublish(l)), Pending)
  }

  function DoCyclicPublish(s: State, i: Id, l: Loc): Result {
    var c := At(s, l);
    Result(Put(Access(s, l, c.(strong := Inc(s, c.strong))), i, Strong(l)), GotHandle(i))
  }

  function DoNewUnique(s: State, v: Value): Result {
    Result(Put(s.(heap := s.heap[s.next := FreshCell(0, 1, Live(v))]), s.next, Unique(s.next)), GotHandle(s.next))
  }

  function DoUniqueWrite(s: State, l: Loc, v: Value): Result {
    Result(DataAccess(s, l, At(s, l).(data := Live(v))), Unit)
  }

  function DoIntoArc(s: State, h: Id, l: Loc): Result {
    Result(Put(Access(s, l, At(s, l).(strong := 1)), h, Strong(l)), GotHandle(h))
  }

  // ---------- the machine ----------

  predicate Enabled(s: State, a: Action) {
    && !s.aborted
    && ((a.Resume? && a.h in s.ents && IsAbort(s.ents[a.h])) || |Aborting(s.ents)| < s.threads)
    && match a
       case New(_) => true
       case NewCyclic => true
       case NewUnique(_) => true
       case CloneArc(h) => h in s.ents && s.ents[h].Strong?
       case Read(h) => h in s.ents && (s.ents[h].Strong? || s.ents[h].Unique? || s.ents[h].MutRef?)
       case StrongCount(h) => h in s.ents && (s.ents[h].Strong? || IsWeakRef(s.ents[h]))
       case WeakCount(h) => h in s.ents && s.ents[h].Strong?
       case Downgrade(h) => h in s.ents && s.ents[h].Strong?
       case IsUnique(h) => h in s.ents && s.ents[h].Strong?
       case DropArc(h) => h in s.ents && s.ents[h].Strong? && Unborrowed(s, h)
       case GetMut(h) => h in s.ents && s.ents[h].Strong? && Unborrowed(s, h)
       case MakeMut(h) => h in s.ents && s.ents[h].Strong? && Unborrowed(s, h)
       case TryUnwrap(h) => h in s.ents && s.ents[h].Strong? && Unborrowed(s, h)
       case IntoInner(h) => h in s.ents && s.ents[h].Strong? && Unborrowed(s, h)
       case Write(h, _) => h in s.ents && s.ents[h].MutRef?
       case EndMut(h) => h in s.ents && s.ents[h].MutRef?
       case CloneWeak(h) => h in s.ents && IsWeakRef(s.ents[h])
       case Upgrade(h) => h in s.ents && IsWeakRef(s.ents[h])
       case WeakCountOfWeak(h) => h in s.ents && IsWeakRef(s.ents[h])
       case DropWeak(h) => h in s.ents && s.ents[h].Weak? && Unborrowed(s, h)
       case CyclicInit(h, _) => h in s.ents && s.ents[h].Seed? && Unborrowed(s, h)
       case UniqueDowngrade(h) => h in s.ents && s.ents[h].Unique?
       case UniqueWrite(h, _) => h in s.ents && s.ents[h].Unique?
       case IntoArc(h) => h in s.ents && s.ents[h].Unique?
       case DropUnique(h) => h in s.ents && s.ents[h].Unique?
       case Resume(h, _, _) => h in s.ents && IsCall(s.ents[h])
  }

  function DoResume(s: State, i: Id, spurious: bool, copy: Value): Result
    requires i in s.ents && IsCall(s.ents[i])
  {
    match s.ents[i]
    case DowngradeLoop(h, l, cur) => DoDowngradeLoop(s, i, h, l, cur, spurious)
    case UpgradeLoop(h, l, cur) => DoUpgradeLoop(s, i, h, l, cur, spurious)
    case UniqueLoad(h, l) => DoUniqueLoad(s, i, h, l)
    case UniqueStore(_, l, unique) => DoUniqueStore(s, i, l, unique)
    case WeakCountLoad(_, l, cur, _, _) => DoWeakCountLoad(s, i, l, cur)
    case AbortStrong(_) => Result(s.(aborted := true), Aborted)
    case AbortWeak(_) => Result(s.(aborted := true), Aborted)
    case GetMutLoad(l) => DoGetMutLoad(s, i, l)
    case GetMutStore(l, unique) => DoGetMutStore(s, i, l, unique)
    case MakeClone(l, v0) => DoMakeClone(s, i, l, v0)
    case MakeCloneInit(l, n, v0) => DoMakeCloneInit(s, i, l, n, v0, copy)
    case MakeDropOld(l, n, v0, got) => DoMakeDropOld(s, i, l, n, v0, got)
    case MakeWeakLoad(l, v0) => DoMakeWeakLoad(s, i, l, v0)
    case MakeStore(l, v0) => DoMakeStore(s, i, l, v0)
    case MakeSteal(l, v0) => DoMakeSteal(s, i, l, v0)
    case MakeMove(l, n, v0) => DoMakeMove(s, i, l, n, v0)
    case Destroy(l, k) => DoDestroy(s, i, l, k)
    case MoveOut(l) => DoMoveOut(s, i, l)
    case ReleaseWeak(l, k) => DoReleaseWeak(s, i, l, k)
    case Dealloc(l, k) => DoDealloc(s, i, l, k)
    case CyclicPublish(l) => DoCyclicPublish(s, i, l)
  }

  function Step(s: State, a: Action): Result
    requires Enabled(s, a)
  {
    match a
    case New(v) => DoNew(s, v)
    case CloneArc(h) => DoCloneArc(s, s.ents[h].l)
    case DropArc(h) => DoDropArc(s, h, s.ents[h].l)
    case Read(h) => DoRead(s, s.ents[h].l)
    case StrongCount(h) => DoStrongCount(s, s.ents[h].l)
    case WeakCount(h) => DoWeakCount(s, s.ents[h].l)
    case Downgrade(h) => DoDowngrade(s, h, s.ents[h].l)
    case IsUnique(h) => DoIsUnique(s, h, s.ents[h].l)
    case GetMut(h) => DoGetMut(s, h, s.ents[h].l)
    case MakeMut(h) => DoMakeMut(s, h, s.ents[h].l)
    case Write(h, v) => DoWrite(s, h, s.ents[h], v)
    case EndMut(h) => Result(Put(s, h, Strong(s.ents[h].l)), Unit)
    case TryUnwrap(h) => DoTryUnwrap(s, h, s.ents[h].l)
    case IntoInner(h) => DoIntoInner(s, h, s.ents[h].l)
    case CloneWeak(h) => DoCloneWeak(s, s.ents[h].l)
    case DropWeak(h) => DoDropWeak(s, h, s.ents[h].l)
    case Upgrade(h) => DoUpgrade(s, h, s.ents[h].l)
    case WeakCountOfWeak(h) => DoWeakCountOfWeak(s, h, s.ents[h].l)
    case NewCyclic => DoNewCyclic(s)
    case CyclicInit(h, v) => DoCyclicInit(s, h, s.ents[h].l, v)
    case NewUnique(v) => DoNewUnique(s, v)
    case UniqueDowngrade(h) => DoCloneWeak(s, s.ents[h].l)
    case UniqueWrite(h, v) => DoUniqueWrite(s, s.ents[h].l, v)
    case IntoArc(h) => DoIntoArc(s, h, s.ents[h].l)
    case DropUnique(h) => DoDestroy(s, h, s.ents[h].l, Done)
    case Resume(h, spurious, copy) => DoResume(s, h, spurious, copy)
  }

  function Init(maxRef: nat, threads: nat): State {
    State(maxRef, threads, map[], map[], 0, {}, false, false)
  }

  /** `acts` can be performed one after another from `s`. */
  predicate Runs(s: State, acts: seq<Action>)
    decreases |acts|
  {
    acts == [] || (Enabled(s, acts[0]) && Runs(Step(s, acts[0]).s, acts[1..]))
  }

  function Exec(s: State, acts: seq<Action>): State
    requires Runs(s, acts)
    decreases |acts|
  {
    if acts == [] then s else Exec(Step(s, acts[0]).s, acts[1..])
  }
}
