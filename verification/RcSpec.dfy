/** `Rc`, `rc::Weak` and `UniqueRc` (library/alloc/src/rc.rs) as functions: what each call does to the
    counters, the value and the memory of one allocation, and to a whole program.

    A program has the same allocations, handles and calls as in `ArcMachine`, but a call is one step. */
module RcSpec {
  import opened ArcMachine

  // ---------- one allocation ----------

  /** usize arithmetic with `max` = usize::MAX. */
  function Up(max: nat, n: nat): nat { if n == max then 0 else n + 1 }
  function Down(max: nat, n: nat): nat { if n == 0 then max else n - 1 }

  /** `Weak::drop`: the last reference of any kind frees the memory. */
  function WeakDropped(max: nat, c: Cell): Cell {
    var d := c.(weak := Down(max, c.weak));
    if d.weak == 0 then d.(freed := true, frees := d.frees + 1) else d
  }

  function Destroyed(c: Cell): Cell { c.(data := Gone, drops := c.drops + 1) }

  /** `Rc::drop`: the last owner destroys the value and releases the implicit weak reference. */
  function StrongDropped(max: nat, c: Cell): Cell {
    var d := c.(strong := Down(max, c.strong));
    if d.strong == 0 then WeakDropped(max, Destroyed(d)) else d
  }

  /** A successful `try_unwrap`. */
  function MovedOut(max: nat, c: Cell): Cell {
    WeakDropped(max, c.(data := Gone, handed := c.handed + 1, strong := Down(max, c.strong)))
  }

  /** The allocation that `make_mut` leaves behind to the Weak handles. */
  function Stolen(max: nat, c: Cell): Cell {
    c.(data := Gone, steals := c.steals + 1, strong := Down(max, c.strong), weak := Down(max, c.weak))
  }

  predicate IsAlone(max: nat, c: Cell) { Down(max, c.weak) == 0 && c.strong == 1 }

  // ---------- one call ----------

  /** A name that a call of `Arc` uses for itself. */
  function Reserve(s: State): State { s.(next := s.next + 1) }

  function Named(s: State, e: Ent): Result { Result(Put(s, s.next, e), GotHandle(s.next)) }

  function RcClone(s: State, l: Loc): Result {
    var c := At(s, l);
    var d := c.(strong := Up(Max(s), c.strong));
    if d.strong == 0 then Result(Access(s, l, d).(aborted := true), Aborted)
    else Named(Access(s, l, d), Strong(l))
  }

  function RcNewWeak(s: State, l: Loc): Result {
    var c := At(s, l);
    var d := c.(weak := Up(Max(s), c.weak));
    if d.weak == 0 then Result(Access(s, l, d).(aborted := true), Aborted)
    else Named(Access(s, l, d), Weak(l))
  }

  function RcDrop(s: State, h: Id, l: Loc): State {
    var c := At(s, l);
    var d := StrongDropped(Max(s), c);
    Del(if d.strong == 0 then DataAccess(s, l, d) else Access(s, l, d), h)
  }

  function RcUpgrade(s: State, l: Loc): Result {
    if At(s, l).strong == 0 then Result(Reserve(Access(s, l, At(s, l))), GotNone) else RcClone(s, l)
  }

  function RcGetMut(s: State, h: Id, l: Loc): Result {
    var c := At(s, l);
    if IsAlone(Max(s), c) then
      Result(Put(Access(s, l, c), h, MutRef(l, Peek(c.data), Peek(c.data), Peek(c.data))), GotMut)
    else Result(Access(s, l, c), GotNone)
  }

  function RcMakeMut(s: State, h: Id, l: Loc, copy: Value): Result {
    var c := At(s, l);
    var v := Peek(c.data);
    if c.strong != 1 then
      var s1 := DataAccess(s, l, StrongDropped(Max(s), c)).(clones := s.clones + {(v, copy)});
      Result(Put(Alloc(s1, FreshCell(1, 1, Live(copy))), h, MutRef(s.next, v, copy, copy)), GotMut)
    else if Down(Max(s), c.weak) != 0 then
      var s1 := DataAccess(s, l, Stolen(Max(s), c));
      Result(Put(Alloc(s1, FreshCell(1, 1, c.data)), h, MutRef(s.next, v, v, v)), GotMut)
    else Result(Put(Access(s, l, c), h, MutRef(l, v, v, v)), GotMut)
  }

  function RcTryUnwrap(s: State, h: Id, l: Loc): Result {
    var c := At(s, l);
    if c.strong == 1 then Result(Del(DataAccess(s, l, MovedOut(Max(s), c)), h), GotValue(Peek(c.data)))
    else Result(Access(s, l, c), Refused(h))
  }

  /** `try_unwrap(this).ok()`: a refused handle is dropped. */
  function RcIntoInner(s: State, h: Id, l: Loc): Result {
    var r := RcTryUnwrap(s, h, l);
    if r.out.Refused? then Result(RcDrop(r.s, h, l), GotNone) else r
  }

  function RcWeakCountOfWeak(s: State, l: Loc): Result {
    var c := At(s, l);
    Result(Reserve(Access(s, l, c)), GotCount(if c.strong > 0 then Down(Max(s), c.weak) else 0))
  }

  function RcDropUnique(s: State, h: Id, l: Loc): Result {
    Result(Del(DataAccess(s, l, WeakDropped(Max(s), Destroyed(At(s, l)))), h), Unit)
  }

  /** Calls that exist in both libraries. */
  predicate IsRcCall(a: Action) { !a.Resume? && !a.IsUnique? }

  /** A whole call of the `Rc` library.  `copy` is what the user's `Clone` produces. */
  function RcStep(s: State, a: Action, copy: Value): Result
    requires Enabled(s, a) && IsRcCall(a)
  {
    match a
    case New(v) => Named(s.(heap := s.heap[s.next := FreshCell(1, 1, Live(v))]), Strong(s.next))
    case NewCyclic => Result(Put(s.(heap := s.heap[s.next := FreshCell(0, 1, Uninit)]), s.next, Seed(s.next)), Pending)
    case NewUnique(v) => Named(s.(heap := s.heap[s.next := FreshCell(0, 1, Live(v))]), Unique(s.next))
    case CloneArc(h) => RcClone(s, s.ents[h].l)
    case DropArc(h) => Result(RcDrop(s, h, s.ents[h].l), Unit)
    case Read(h) => DoRead(s, s.ents[h].l)
    case StrongCount(h) => Result(Access(s, s.ents[h].l, At(s, s.ents[h].l)), GotCount(At(s, s.ents[h].l).strong))
    case WeakCount(h) =>
      Result(Access(s, s.ents[h].l, At(s, s.ents[h].l)), GotCount(Down(Max(s), At(s, s.ents[h].l).weak)))
    case Downgrade(h) => RcNewWeak(s, s.ents[h].l)
    case GetMut(h) => RcGetMut(s, h, s.ents[h].l)
    case MakeMut(h) => RcMakeMut(s, h, s.ents[h].l, copy)
    case Write(h, v) => DoWrite(s, h, s.ents[h], v)
    case EndMut(h) => Result(Put(s, h, Strong(s.ents[h].l)), Unit)
    case TryUnwrap(h) => RcTryUnwrap(s, h, s.ents[h].l)
    case IntoInner(h) => RcIntoInner(s, h, s.ents[h].l)
    case CloneWeak(h) => RcNewWeak(s, s.ents[h].l)
    case DropWeak(h) => Result(Del(Access(s, s.ents[h].l, WeakDropped(Max(s), At(s, s.ents[h].l))), h), Unit)
    case Upgrade(h) => RcUpgrade(s, s.ents[h].l)
    case WeakCountOfWeak(h) => RcWeakCountOfWeak(s, s.ents[h].l)
    case CyclicInit(h, v) =>
      Result(Put(Access(s, s.ents[h].l, At(s, s.ents[h].l).(data := Live(v), strong := 1)), h, Strong(s.ents[h].l)),
             GotHandle(h))
    case UniqueDowngrade(h) => RcNewWeak(s, s.ents[h].l)
    case UniqueWrite(h, v) => DoUniqueWrite(s, s.ents[h].l, v)
    case IntoArc(h) => DoIntoArc(s, h, s.ents[h].l)
    case DropUnique(h) => RcDropUnique(s, h, s.ents[h].l)
  }
}
