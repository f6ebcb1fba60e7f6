/** `Global` (library/alloc/src/alloc.rs): growing and shrinking a block of memory.

    A block has a name of its own for each time it is allocated; reallocating gives it a new name, whether or
    not its address changes.  `oom` says whether the foreign allocator fails; a call asks it at most once. */
module GlobalAlloc {
  import opened Utf8
  import opened Memory

  datatype Layout = Layout(size: nat, align: nat)

  /** A pointer to no bytes, or to the start of a block. */
  datatype Ptr = Dangling(align: nat) | To(id: nat)

  datatype Block = Block(align: nat, bytes: seq<Slot<Byte>>)

  /** `frees` is the history of the blocks given back. */
  datatype Heap = Heap(blocks: map<nat, Block>, next: nat, frees: seq<nat>)

  datatype Allocated = Ok(ptr: Ptr, size: nat) | AllocError

  /** `ptr` was returned for `layout` and has not been given back. */
  predicate Fits(h: Heap, ptr: Ptr, layout: Layout) {
    layout.size > 0 ==>
      ptr.To? && ptr.id in h.blocks && h.blocks[ptr.id].align == layout.align && |h.blocks[ptr.id].bytes| == layout.size
  }

  function Bytes(h: Heap, ptr: Ptr, layout: Layout): (b: seq<Slot<Byte>>)
    requires Fits(h, ptr, layout)
    ensures |b| == layout.size
  {
    if layout.size == 0 then [] else h.blocks[ptr.id].bytes
  }

  function Fill(n: nat, zeroed: bool): (b: seq<Slot<Byte>>)
    ensures |b| == n
  {
    seq(n, i requires 0 <= i < n => if zeroed then Full(0) else Blank)
  }

  // ---------- the specification ----------

  function WithBlock(h: Heap, layout: Layout, bytes: seq<Slot<Byte>>): Heap {
    if layout.size == 0 then h
    else h.(blocks := h.blocks[h.next := Block(layout.align, bytes)], next := h.next + 1)
  }

  function Without(h: Heap, ptr: Ptr, layout: Layout): Heap
    requires Fits(h, ptr, layout)
  {
    if layout.size == 0 then h else h.(blocks := h.blocks - {ptr.id}, frees := h.frees + [ptr.id])
  }

  function NewPtr(h: Heap, layout: Layout): Ptr {
    if layout.size == 0 then Dangling(layout.align) else To(h.next)
  }

  function Min(a: nat, b: nat): nat { if a < b then a else b }

  /** What the new block holds. */
  function Resized(b: seq<Slot<Byte>>, size: nat, zeroed: bool): (r: seq<Slot<Byte>>)
    ensures |r| == size
  {
    b[..Min(|b|, size)] + Fill(size - Min(|b|, size), zeroed)
  }

  /** The heap after a block has been resized. */
  function Resize(h: Heap, ptr: Ptr, layout: Layout, layout': Layout, zeroed: bool): Heap
    requires Sound(h) && Fits(h, ptr, layout)
  {
    Without(WithBlock(h, layout', Resized(Bytes(h, ptr, layout), layout'.size, zeroed)), ptr, layout)
  }

  /** Names are not used twice. */
  predicate Sound(h: Heap) {
    && (forall i | i in h.blocks :: i < h.next && i !in h.frees)
    && (forall i | i in h.frees :: i < h.next)
    && (forall i, j | 0 <= i < j < |h.frees| :: h.frees[i] != h.frees[j])
  }

  // ---------- what the specification means ----------

  /** The first min(old, new) bytes are kept and the tail is zero when asked; the old block is gone, the other
      blocks are as they were, and no block is ever freed twice. */
  lemma ResizeMeans(h: Heap, ptr: Ptr, layout: Layout, layout': Layout, zeroed: bool)
    requires Sound(h) && Fits(h, ptr, layout)
    ensures var h' := Resize(h, ptr, layout, layout', zeroed);
            var p := NewPtr(h, layout');
            && Sound(h') && Fits(h', p, layout')
            && (forall i | 0 <= i < layout.size && i < layout'.size ::
                  Bytes(h', p, layout')[i] == Bytes(h, ptr, layout)[i])
            && (zeroed ==> forall i | layout.size <= i < layout'.size :: Bytes(h', p, layout')[i] == Full(0))
            && (forall i | i in h.blocks && To(i) != ptr :: i in h'.blocks && h'.blocks[i] == h.blocks[i])
            && h'.blocks.Keys == h.blocks.Keys - (if layout.size > 0 then {ptr.id} else {})
                                 + (if layout'.size > 0 then {h.next} else {})
            && h'.frees == h.frees + if layout.size > 0 then [ptr.id] else []
  {
    var bytes := Resized(Bytes(h, ptr, layout), layout'.size, zeroed);
    hide Resized;
    ResizedMeans(Bytes(h, ptr, layout), layout'.size, zeroed);
  }

  /** Allocating gives a new block of the right size, zeroed if asked, and touches no other; freeing takes one
      block away, for the first time. */
  lemma AllocMeans(h: Heap, layout: Layout, zeroed: bool)
    requires Sound(h)
    ensures var h', p := WithBlock(h, layout, Fill(layout.size, zeroed)), NewPtr(h, layout);
            && Sound(h') && Fits(h', p, layout) && h'.frees == h.frees
            && h'.blocks.Keys == h.blocks.Keys + (if layout.size > 0 then {h.next} else {}) && h.next !in h.blocks
            && (zeroed ==> forall i | 0 <= i < layout.size :: Bytes(h', p, layout)[i] == Full(0))
            && (forall i | i in h.blocks :: i in h'.blocks && h'.blocks[i] == h.blocks[i])
  {
  }

  lemma FreeMeans(h: Heap, ptr: Ptr, layout: Layout)
    requires Sound(h) && Fits(h, ptr, layout)
    ensures var h' := Without(h, ptr, layout);
            && Sound(h') && h'.frees == h.frees + (if layout.size > 0 then [ptr.id] else [])
            && (layout.size > 0 ==> ptr.id !in h.frees && ptr.id !in h'.blocks)
            && (forall i | i in h.blocks && (layout.size > 0 ==> i != ptr.id) ::
                  i in h'.blocks && h'.blocks[i] == h.blocks[i])
  {
  }

  lemma ResizedMeans(b: seq<Slot<Byte>>, size: nat, zeroed: bool)
    ensures forall i | 0 <= i < |b| && i < size :: Resized(b, size, zeroed)[i] == b[i]
    ensures zeroed ==> forall i | |b| <= i < size :: Resized(b, size, zeroed)[i] == Full(0)
  {
  }

  // ---------- the two ways of getting there ----------

  function ZeroedAt(h: Heap, id: nat, from: nat, count: nat): Heap
    requires id in h.blocks && from + count <= |h.blocks[id].bytes|
  {
    var b := h.blocks[id];
    h.(blocks := h.blocks[id := b.(bytes := b.bytes[..from] + Fill(count, true) + b.bytes[from + count..])])
  }

  function CopiedTo(h: Heap, src: Ptr, dst: Ptr, count: nat): Heap
    requires count > 0 ==> src.To? && dst.To? && src.id in h.blocks && dst.id in h.blocks
    requires count > 0 ==> count <= |h.blocks[src.id].bytes| && count <= |h.blocks[dst.id].bytes|
  {
    if count == 0 then h
    else
      var d := h.blocks[dst.id];
      h.(blocks := h.blocks[dst.id := d.(bytes := h.blocks[src.id].bytes[..count] + d.bytes[count..])])
  }

  /** Reallocate, then zero the tail. */
  lemma ReallocThenZero(h: Heap, ptr: Ptr, layout: Layout, size: nat)
    requires Sound(h) && Fits(h, ptr, layout) && 0 < layout.size <= size
    ensures var h1 := Resize(h, ptr, layout, Layout(size, layout.align), false);
            && h.next in h1.blocks && |h1.blocks[h.next].bytes| == size
            && ZeroedAt(h1, h.next, layout.size, size - layout.size)
               == Resize(h, ptr, layout, Layout(size, layout.align), true)
  {
    ZeroedTail(h.blocks[ptr.id].bytes, size);
    hide Resized, Fill;
    var h1 := Resize(h, ptr, layout, Layout(size, layout.align), false);
    var h2 := Resize(h, ptr, layout, Layout(size, layout.align), true);
    assert h1.blocks[h.next].bytes == Resized(h.blocks[ptr.id].bytes, size, false);
    assert h2.blocks == h1.blocks[h.next := Block(layout.align, Resized(h.blocks[ptr.id].bytes, size, true))];
  }

  /** Allocate, copy, free. */
  lemma AllocCopyFree(h: Heap, ptr: Ptr, layout: Layout, layout': Layout, zeroed: bool, count: nat)
    requires Sound(h) && Fits(h, ptr, layout) && count == Min(layout.size, layout'.size)
    ensures var h1 := WithBlock(h, layout', Fill(layout'.size, zeroed));
            var p := NewPtr(h, layout');
            && (count > 0 ==> ptr.To? && p.To? && ptr != p && ptr.id in h1.blocks && p.id in h1.blocks)
            && (count > 0 ==> count <= |h1.blocks[ptr.id].bytes| && count <= |h1.blocks[p.id].bytes|)
            && Fits(CopiedTo(h1, ptr, p, count), ptr, layout)
            && Without(CopiedTo(h1, ptr, p, count), ptr, layout) == Resize(h, ptr, layout, layout', zeroed)
  {
    var b := Bytes(h, ptr, layout);
    CopiedOver(b, layout'.size, zeroed);
    hide Resized, Fill;
    var h1 := WithBlock(h, layout', Fill(layout'.size, zeroed));
    var h2 := CopiedTo(h1, ptr, NewPtr(h, layout'), count);
    if layout'.size > 0 {
      assert b[..0] + Fill(layout'.size, zeroed)[0..] == Fill(layout'.size, zeroed);
      assert h2.blocks == h.blocks[h.next := Block(layout'.align, Resized(b, layout'.size, zeroed))];
    }
  }

  class Global {
    var blocks: map<nat, Block>
    var next: nat
    var frees: seq<nat>

    function State(): Heap
      reads this
    {
      Heap(blocks, next, frees)
    }

    // ---------- the foreign allocator ----------

    method RustAlloc(layout: Layout, zeroed: bool, oom: bool) returns (id: nat, ok: bool)
      requires layout.size > 0
      modifies this
      ensures ok == !oom
      ensures ok ==> id == old(next) && State() == WithBlock(old(State()), layout, Fill(layout.size, zeroed))
      ensures !ok ==> State() == old(State())
    {
      if oom {
        return 0, false;
      }
      id, ok := next, true;
      blocks, next := blocks[next := Block(layout.align, Fill(layout.size, zeroed))], next + 1;
    }

    method RustDealloc(ptr: Ptr, layout: Layout)
      requires layout.size > 0 && Fits(State(), ptr, layout)
      modifies this
      ensures State() == Without(old(State()), ptr, layout)
    {
      blocks, frees := blocks - {ptr.id}, frees + [ptr.id];
    }

    method RustRealloc(ptr: Ptr, layout: Layout, newSize: nat, oom: bool) returns (id: nat, ok: bool)
      requires Sound(State()) && layout.size > 0 && Fits(State(), ptr, layout) && newSize > 0
      modifies this
      ensures ok == !oom
      ensures ok ==> id == old(next)
      ensures ok ==> State() == Resize(old(State()), ptr, layout, Layout(newSize, layout.align), false)
      ensures !ok ==> State() == old(State())
    {
      if oom {
        return 0, false;
      }
      var block := Block(layout.align, Resized(blocks[ptr.id].bytes, newSize, false));
      id, ok := next, true;
      blocks, next, frees := blocks[next := block] - {ptr.id}, next + 1, frees + [ptr.id];
    }

    /** `write_bytes(0, count)` from byte `from` of a block on. */
    method WriteZeros(id: nat, from: nat, count: nat)
      requires id in blocks && from + count <= |blocks[id].bytes|
      modifies this`blocks
      ensures State() == ZeroedAt(old(State()), id, from, count)
    {
      var b := blocks[id];
      blocks := blocks[id := b.(bytes := b.bytes[..from] + Fill(count, true) + b.bytes[from + count..])];
    }

    /** `copy_nonoverlapping` of the first `count` bytes. */
    method CopyBytes(src: Ptr, dst: Ptr, count: nat)
      requires count > 0 ==> src.To? && dst.To? && src != dst && src.id in blocks && dst.id in blocks
      requires count > 0 ==> count <= |blocks[src.id].bytes| && count <= |blocks[dst.id].bytes|
      modifies this`blocks
      ensures State() == CopiedTo(old(State()), src, dst, count)
    {
      if count > 0 {
        var d := blocks[dst.id];
        blocks := blocks[dst.id := d.(bytes := blocks[src.id].bytes[..count] + d.bytes[count..])];
      }
    }

    // ---------- Global ----------

    /** At run time, `alloc` or `alloc_zeroed`. */
    method AllocImpl(layout: Layout, zeroed: bool, oom: bool) returns (r: Allocated)
      modifies this
      ensures r == if layout.size > 0 && oom then AllocError else Ok(NewPtr(old(State()), layout), layout.size)
      ensures State() == if r.Ok? then WithBlock(old(State()), layout, Fill(layout.size, zeroed)) else old(State())
    {
      if layout.size == 0 {
        return Ok(Dangling(layout.align), 0);
      }
      var id, ok := RustAlloc(layout, zeroed, oom);
      if !ok {
        return AllocError;
      }
      r := Ok(To(id), layout.size);
    }

    /** In constant evaluation, there is no zeroed allocation: the bytes are written afterwards. */
    method AllocImplConst(layout: Layout, zeroed: bool, oom: bool) returns (r: Allocated)
      modifies this
      ensures r == if layout.size > 0 && oom then AllocError else Ok(NewPtr(old(State()), layout), layout.size)
      ensures State() == if r.Ok? then WithBlock(old(State()), layout, Fill(layout.size, zeroed)) else old(State())
    {
      if layout.size == 0 {
        return Ok(Dangling(layout.align), 0);
      }
      var id, ok := RustAlloc(layout, false, oom);
      if !ok {
        return AllocError;
      }
      if zeroed {
        WriteZeros(id, 0, layout.size);
        assert blocks[id].bytes == Fill(layout.size, true);
      }
      r := Ok(To(id), layout.size);
    }

    method DeallocateImpl(ptr: Ptr, layout: Layout)
      requires Fits(State(), ptr, layout)
      modifies this
      ensures State() == Without(old(State()), ptr, layout)
    {
      if layout.size != 0 {
        RustDealloc(ptr, layout);
      }
    }

    /** Growing: three branches, one specification. */
    method GrowImpl(ptr: Ptr, layout: Layout, layout': Layout, zeroed: bool, oom: bool) returns (r: Allocated)
      requires Sound(State()) && Fits(State(), ptr, layout) && layout.size <= layout'.size
      modifies this
      ensures r == if layout'.size > 0 && oom then AllocError else Ok(NewPtr(old(State()), layout'), layout'.size)
      ensures State() == if r.Ok? then Resize(old(State()), ptr, layout, layout', zeroed) else old(State())
    {
      hide Resized, Fill, Without, WithBlock, Fits, Sound, CopiedTo, ZeroedAt;
      ResizesNothing(State(), ptr, layout, layout', zeroed);
      AllocCopyFree(State(), ptr, layout, layout', zeroed, layout.size);
      if layout.size == 0 {
        r := AllocImpl(layout', zeroed, oom);
      } else if layout.align == layout'.align {
        ReallocThenZero(State(), ptr, layout, layout'.size);
        var id, ok := RustRealloc(ptr, layout, layout'.size, oom);
        if !ok {
          return AllocError;
        }
        if zeroed {
          WriteZeros(id, layout.size, layout'.size - layout.size);
        }
        r := Ok(To(id), layout'.size);
      } else {
        r := AllocImpl(layout', zeroed, oom);
        if r.AllocError? {
          return;
        }
        CopyBytes(ptr, r.ptr, layout.size);
        DeallocateImpl(ptr, layout);
      }
    }

    /** Shrinking: three branches, the same specification. */
    method ShrinkImpl(ptr: Ptr, layout: Layout, layout': Layout, oom: bool) returns (r: Allocated)
      requires Sound(State()) && Fits(State(), ptr, layout) && layout'.size <= layout.size
      modifies this
      ensures r == if layout'.size > 0 && oom then AllocError else Ok(NewPtr(old(State()), layout'), layout'.size)
      ensures State() == if r.Ok? then Resize(old(State()), ptr, layout, layout', false) else old(State())
    {
      ShrinksToNothing(State(), ptr, layout, layout');
      AllocCopyFree(State(), ptr, layout, layout', false, layout'.size);
      hide Resized, Fill, Without, WithBlock, Fits, Sound, CopiedTo, Resize;
      if layout'.size == 0 {
        DeallocateImpl(ptr, layout);
        r := Ok(Dangling(layout'.align), 0);
      } else if layout.align == layout'.align {
        var id, ok := RustRealloc(ptr, layout, layout'.size, oom);
        if !ok {
          return AllocError;
        }
        r := Ok(To(id), layout'.size);
      } else {
        r := AllocImpl(layout', false, oom);
        if r.AllocError? {
          return;
        }
        CopyBytes(ptr, r.ptr, layout'.size);
        DeallocateImpl(ptr, layout);
      }
    }

    /** Both, in constant evaluation. */
    method GrowShrinkImplConst(ptr: Ptr, layout: Layout, layout': Layout, zeroed: bool, oom: bool)
      returns (r: Allocated)
      requires Sound(State()) && Fits(State(), ptr, layout)
      modifies this
      ensures r == if layout'.size > 0 && oom then AllocError else Ok(NewPtr(old(State()), layout'), layout'.size)
      ensures State() == if r.Ok? then Resize(old(State()), ptr, layout, layout', zeroed) else old(State())
    {
      hide Resized, Fill, Without, WithBlock, Fits, Sound, CopiedTo, Resize;
      AllocCopyFree(State(), ptr, layout, layout', zeroed, Min(layout.size, layout'.size));
      r := AllocImplConst(layout', zeroed, oom);
      if r.AllocError? {
        return;
      }
      CopyBytes(ptr, r.ptr, Min(layout.size, layout'.size));
      DeallocateImpl(ptr, layout);
    }
  }

  /** A block of no bytes is resized by allocating. */
  lemma ResizesNothing(h: Heap, ptr: Ptr, layout: Layout, layout': Layout, zeroed: bool)
    requires Sound(h) && Fits(h, ptr, layout)
    ensures layout.size == 0 ==>
              Resize(h, ptr, layout, layout', zeroed) == WithBlock(h, layout', Fill(layout'.size, zeroed))
  {
    if layout.size == 0 {
      assert Resized([], layout'.size, zeroed) == Fill(layout'.size, zeroed);
    }
  }

  lemma ShrinksToNothing(h: Heap, ptr: Ptr, layout: Layout, layout': Layout)
    requires Sound(h) && Fits(h, ptr, layout)
    ensures layout'.size == 0 ==> Resize(h, ptr, layout, layout', false) == Without(h, ptr, layout)
  {
  }

  /** Zeroing the tail of a grown block. */
  lemma ZeroedTail(b: seq<Slot<Byte>>, size: nat)
    requires |b| <= size
    ensures Resized(b, size, false)[..|b|] + Fill(size - |b|, true) + Resized(b, size, false)[size..]
         == Resized(b, size, true)
  {
  }

  /** Copying over a fresh block. */
  lemma CopiedOver(b: seq<Slot<Byte>>, size: nat, zeroed: bool)
    ensures b[..Min(|b|, size)] + Fill(size, zeroed)[Min(|b|, size)..] == Resized(b, size, zeroed)
  {
  }
}
