/** The reference-counted allocation of `Rc` (library/alloc/src/rc.rs), with its counters updated in place. */
module Rc {
  import opened ArcMachine
  import opened RcSpec

  class RcInner {
    const max: nat                  // usize::MAX
    var strong: nat
    var weak: nat
    var value: Data
    ghost var freed: bool
    ghost var drops: nat
    ghost var handed: nat
    ghost var steals: nat
    ghost var frees: nat

    ghost function Contents(): Cell
      reads this
    {
      Cell(strong, weak, value, freed, drops, handed, steals, frees)
    }

    /** What an owner or a Weak may rely on. */
    ghost predicate Counted()
      reads this
    {
      0 < strong <= max && 0 < weak <= max && value.Live? && !freed
    }

    constructor (max: nat, strong: nat, weak: nat, value: Data)
      ensures this.max == max && Contents() == FreshCell(strong, weak, value)
    {
      this.max, this.strong, this.weak, this.value := max, strong, weak, value;
      freed, drops, handed, steals, frees := false, 0, 0, 0, 0;
    }

    // ---------- RcInnerPtr ----------

    /** The caller holds a reference, so the counter is not 0; a counter that wraps to 0 aborts the program. */
    method IncStrong() returns (aborts: bool)
      requires 0 < strong <= max
      modifies this`strong
      ensures aborts <==> old(strong) == max
      ensures !aborts ==> strong == old(strong) + 1
      ensures aborts ==> strong == 0
    {
      strong := if strong == max then 0 else strong + 1;
      aborts := strong == 0;
    }

    method DecStrong()
      requires strong > 0
      modifies this`strong
      ensures strong == old(strong) - 1
    {
      strong := strong - 1;
    }

    method IncWeak() returns (aborts: bool)
      requires 0 < weak <= max
      modifies this`weak
      ensures aborts <==> old(weak) == max
      ensures !aborts ==> weak == old(weak) + 1
      ensures aborts ==> weak == 0
    {
      weak := if weak == max then 0 else weak + 1;
      aborts := weak == 0;
    }

    method DecWeak()
      requires weak > 0
      modifies this`weak
      ensures weak == old(weak) - 1
    {
      weak := weak - 1;
    }

    // ---------- the value and the memory ----------

    method DropValue()
      requires value.Live? && !freed
      modifies this`value, this`drops
      ensures Contents() == Destroyed(old(Contents()))
    {
      value := Gone;
      drops := drops + 1;
    }

    method ReadOut() returns (v: Value)
      requires value.Live? && !freed
      modifies this`value, this`handed
      ensures old(value) == Live(v) && value == Gone && handed == old(handed) + 1
    {
      v := value.v;
      value := Gone;
      handed := handed + 1;
    }

    method Deallocate()
      requires !freed
      modifies this`freed, this`frees
      ensures freed && frees == old(frees) + 1
    {
      freed := true;
      frees := frees + 1;
    }

    // ---------- Weak ----------

    method DropWeak()
      requires weak > 0 && !freed
      modifies this
      ensures Contents() == WeakDropped(max, old(Contents()))
    {
      DecWeak();
      if weak == 0 {
        Deallocate();
      }
    }

    method Upgrade() returns (some: bool, aborts: bool)
      requires strong <= max && !freed
      modifies this
      ensures some <==> old(strong) > 0
      ensures Contents() == old(Contents()).(strong := if old(strong) == 0 then 0 else Up(max, old(strong)))
      ensures aborts <==> old(strong) == max && max > 0
    {
      if strong == 0 {
        return false, false;
      }
      aborts := IncStrong();
      some := true;
    }

    method WeakCountOfWeak() returns (n: nat)
      requires weak > 0 && !freed
      ensures n == if strong > 0 then weak - 1 else 0
    {
      if strong > 0 {
        n := weak - 1;
      } else {
        n := 0;
      }
    }

    // ---------- Rc ----------

    /** Destroys the value, then releases the implicit weak reference. */
    method DropSlow()
      requires value.Live? && weak > 0 && !freed
      modifies this
      ensures Contents() == WeakDropped(max, Destroyed(old(Contents())))
    {
      DropValue();
      DropWeak();
    }

    /** One of several owners only gives up its reference.  The last one destroys the value, once, and frees the
        memory exactly when there is no Weak. */
    method Drop()
      requires Counted()
      modifies this
      ensures Contents() == StrongDropped(max, old(Contents()))
      ensures old(strong) > 1 ==> Contents() == old(Contents()).(strong := old(strong) - 1)
      ensures old(strong) == 1 ==> strong == 0 && value == Gone && drops == old(drops) + 1 && weak == old(weak) - 1
      ensures old(strong) == 1 ==> (freed <==> old(weak) == 1) && handed == old(handed) && steals == old(steals)
    {
      DecStrong();
      if strong == 0 {
        DropSlow();
      }
    }

    method Clone() returns (aborts: bool)
      requires Counted()
      modifies this`strong
      ensures strong == Up(max, old(strong)) && (aborts <==> strong == 0)
    {
      aborts := IncStrong();
    }

    method Downgrade() returns (aborts: bool)
      requires Counted()
      modifies this`weak
      ensures weak == Up(max, old(weak)) && (aborts <==> weak == 0)
    {
      aborts := IncWeak();
    }

    method IsUnique() returns (unique: bool)
      requires Counted()
      ensures unique <==> weak == 1 && strong == 1
    {
      unique := weak - 1 == 0 && strong == 1;
    }

    method TryUnwrap() returns (v: Option<Value>)
      requires Counted()
      modifies this
      ensures v.Some? <==> old(strong) == 1
      ensures v.Some? ==> old(value) == Live(v.value) && Contents() == MovedOut(max, old(Contents()))
      ensures v.None? ==> Contents() == old(Contents())
    {
      if strong == 1 {
        var val := ReadOut();
        DecStrong();
        DropWeak();
        v := Some(val);
      } else {
        v := None;
      }
    }

    method IntoInner() returns (v: Option<Value>)
      requires Counted()
      modifies this
      ensures v.Some? <==> old(strong) == 1
      ensures v.Some? ==> old(value) == Live(v.value) && Contents() == MovedOut(max, old(Contents()))
      ensures v.None? ==> Contents() == StrongDropped(max, old(Contents())) && value == old(value)
    {
      v := TryUnwrap();
      if v.None? {
        Drop();
      }
    }

    /** The allocation the handle refers to afterwards.  `copy` is what the user's `Clone` produces. */
    method MakeMut(copy: Value) returns (r: RcInner)
      requires Counted()
      modifies this
      ensures r.max == max && r.value.Live? && r.strong == 1 && r.weak == 1
      ensures old(strong) != 1 ==>
                fresh(r) && r.Contents() == FreshCell(1, 1, Live(copy))
                && Contents() == StrongDropped(max, old(Contents()))
      ensures old(strong) == 1 && old(weak) != 1 ==>
                fresh(r) && r.Contents() == FreshCell(1, 1, old(value)) && Contents() == Stolen(max, old(Contents()))
      ensures old(strong) == 1 && old(weak) == 1 ==> r == this && Contents() == old(Contents())
    {
      r := this;
      if strong != 1 {
        r := new RcInner(max, 1, 1, Live(copy));
        Drop();
      } else if weak - 1 != 0 {
        r := new RcInner(max, 1, 1, value);
        value := Gone;
        steals := steals + 1;
        DecStrong();
        DecWeak();
      }
    }

    // ---------- UniqueRc ----------

    /** `new_cyclic_in` after the closure has returned the value. */
    method Publish(v: Value)
      requires strong == 0 && value.Uninit? && !freed
      modifies this
      ensures Contents() == old(Contents()).(strong := 1, data := Live(v))
    {
      value := Live(v);
      strong := 1;
    }

    method IntoRc()
      requires strong == 0 && value.Live? && !freed
      modifies this`strong
      ensures strong == 1
    {
      strong := 1;
    }

    method DropUnique()
      requires value.Live? && weak > 0 && !freed
      modifies this
      ensures Contents() == WeakDropped(max, Destroyed(old(Contents())))
    {
      DropValue();
      DecWeak();
      if weak == 0 {
        Deallocate();
      }
    }
  }
}
