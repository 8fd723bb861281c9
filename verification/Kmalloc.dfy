/**
  kmalloc and kfree: the slab allocator for small sizes on top of the buddy allocator for page runs.
  Live allocations are read off the allocator's own state; the methods say how each call changes them.
 */
module Kmalloc {
  import opened Bits
  import opened BuddyTheory
  import opened BuddyAllocator
  import opened Common

  const PAGE_SIZE: nat := 4096
  const SLAB_INIT_SIZE: nat := 2 * 1024 * 1024
  const SLAB_MIN_ORDER: nat := 5
  const SLAB_MAX_ORDER: nat := 11
  /** A slab is a buddy block of this order: 512 pages. */
  const SLAB_BLOCK_ORDER: nat := 9

  /** A slab header: the object order and the free slots, first to be handed out first. */
  datatype Slab = Slab(order: nat, free: seq<nat>)

  datatype Alloc = Alloc(addr: nat, len: nat)

  /** Bug stands for a BUG_ON that stops the kernel. */
  datatype KResult = Addr(addr: nat) | Null | Bug

  // ---- What is live --------------------------------------------------------------------------------

  /** The allocator's state: zone, slab tag of each page, slab headers by base address, chain of slabs per order. */
  datatype Heap = Heap(start: nat, zone: Zone, tags: seq<nat>, slabs: map<nat, Slab>, chains: seq<seq<nat>>)

  function PageAddr(start: nat, page: nat): nat {
    start + page * PAGE_SIZE
  }

  function BlockAddr(start: nat, b: Block): nat {
    PageAddr(start, Start(b))
  }

  function SlabNum(start: nat, base: nat): int {
    (base - start) / SLAB_INIT_SIZE
  }

  /** base is the address of the num-th run of 512 pages. */
  ghost predicate IsBase(start: nat, base: nat) {
    base >= start && base == start + SLAB_INIT_SIZE * SlabNum(start, base)
  }

  function SlabBlock(start: nat, base: nat): Block
    requires base >= start
  {
    Block(SlabNum(start, base), SLAB_BLOCK_ORDER)
  }

  /** A slot of a slab of the given object order; the first object holds the header. */
  ghost predicate IsSlot(base: nat, order: nat, addr: nat) {
    base < addr < base + SLAB_INIT_SIZE && (addr - base) % Pow2(order) == 0
  }

  ghost predicate SlotLive(h: Heap, base: nat, a: Alloc) {
    && base in h.slabs
    && IsSlot(base, h.slabs[base].order, a.addr) && a.addr !in h.slabs[base].free
    && a.len == Pow2(h.slabs[base].order)
  }

  ghost predicate BlockLive(h: Heap, b: Block, a: Alloc) {
    && b in h.zone.live && a == Alloc(BlockAddr(h.start, b), PAGE_SIZE * Pow2(b.order))
    && !(b.order == SLAB_BLOCK_ORDER && a.addr in h.slabs)
  }

  /** a is a slot taken from a slab, or a page run taken from the buddy allocator for a caller. */
  ghost predicate IsLive(h: Heap, a: Alloc) {
    || (exists base :: SlotLive(h, base, a))
    || (exists b :: BlockLive(h, b, a))
  }

  ghost predicate SlabsOk(h: Heap) {
    forall s :: s in h.slabs ==>
      && IsBase(h.start, s) && SlabBlock(h.start, s) in h.zone.live
      && SLAB_MIN_ORDER <= h.slabs[s].order <= SLAB_MAX_ORDER
      && NoDuplicates(h.slabs[s].free)
      && forall a :: a in h.slabs[s].free ==> IsSlot(s, h.slabs[s].order, a)
  }

  /** A page carries a slab address exactly when it belongs to that slab. */
  ghost predicate TagsOk(h: Heap) {
    && |h.tags| == h.zone.n
    && (forall q :: 0 <= q < |h.tags| && h.tags[q] != 0 ==>
          h.tags[q] in h.slabs && h.tags[q] == h.start + SLAB_INIT_SIZE * (q / 512))
    && (forall s, q :: s in h.slabs && 0 <= q < |h.tags| && q / 512 == SlabNum(h.start, s) ==> h.tags[q] == s)
  }

  ghost predicate ChainsOk(h: Heap) {
    && |h.chains| == SLAB_MAX_ORDER + 1
    && (forall k, s :: 0 <= k < |h.chains| && s in h.chains[k] ==> s in h.slabs && h.slabs[s].order == k)
    && (forall s :: s in h.slabs && h.slabs[s].order < |h.chains| ==> s in h.chains[h.slabs[s].order])
  }

  ghost predicate HeapInv(h: Heap) {
    h.start > 0 && Inv(h.zone) && SlabsOk(h) && TagsOk(h) && ChainsOk(h)
  }

  // ---- Slots are conserved -------------------------------------------------------------------------

  ghost function SlotSet(base: nat, order: nat): set<nat> {
    set a: nat | base < a < base + SLAB_INIT_SIZE && IsSlot(base, order, a)
  }

  /** How many slots a slab of the given object order has. */
  function SlotCount(order: nat): nat
    requires SLAB_MIN_ORDER <= order <= SLAB_MAX_ORDER
  {
    Pow2(21 - order) - 1
  }

  function FirstSlots(base: nat, size: nat, k: nat): set<nat> {
    set i: nat | 1 <= i < k :: base + i * size
  }

  lemma {:induction false} FirstSlotsCount(base: nat, size: nat, k: nat)
    requires size > 0 && k > 0
    ensures |FirstSlots(base, size, k)| == k - 1
  {
    if k > 1 {
      FirstSlotsCount(base, size, k - 1);
      var last := base + (k - 1) * size;
      assert FirstSlots(base, size, k) == FirstSlots(base, size, k - 1) + {last};
      SlotIsMultiple(base, size, k - 1, last);
    } else {
      assert FirstSlots(base, size, k) == {};
    }
  }

  lemma SlotIsMultiple(base: nat, size: nat, n: nat, a: nat)
    requires size > 0
    ensures a in FirstSlots(base, size, n) <==> base < a < base + n * size && (a - base) % size == 0
  {
    if base < a < base + n * size && (a - base) % size == 0 {
      var i := (a - base) / size;
      assert a == base + i * size;
      ScaleLess(0, i, size);
      ScaleLess(i, n, size);
    }
    if a in FirstSlots(base, size, n) {
      var i: nat :| 1 <= i < n && a == base + i * size;
      Unscale(i, size);
      ScaleLess(0, i, size);
      ScaleLess(i, n, size);
    }
  }

  lemma SlotSetCount(base: nat, order: nat)
    requires SLAB_MIN_ORDER <= order <= SLAB_MAX_ORDER
    ensures |SlotSet(base, order)| == SlotCount(order)
  {
    var size, n := Pow2(order), Pow2(21 - order);
    SlabHolds(order);
    hide Pow2;
    forall a: nat
      ensures a in SlotSet(base, order) <==> a in FirstSlots(base, size, n)
    {
      SlotIsMultiple(base, size, n, a);
    }
    assert SlotSet(base, order) == FirstSlots(base, size, n);
    FirstSlotsCount(base, size, n);
  }

  lemma SlabHolds(order: nat)
    requires SLAB_MIN_ORDER <= order <= SLAB_MAX_ORDER
    ensures Pow2(21 - order) * Pow2(order) == SLAB_INIT_SIZE && Pow2(21 - order) > 1 && Pow2(order) > 0
  {
    assert Pow2(10) == 1024 && Pow2(16) == 0x1_0000;
    assert Pow2(5) == 32 && Pow2(6) == 64 && Pow2(7) == 128 && Pow2(8) == 256 && Pow2(9) == 512 && Pow2(11) == 2048;
    assert Pow2(12) == 4096 && Pow2(13) == 8192 && Pow2(14) == 16384 && Pow2(15) == 32768;
  }

  /** In every slab the slots handed out and the slots on the free list are together always the same number. */
  lemma SlotsConserved(h: Heap, base: nat)
    requires HeapInv(h) && base in h.slabs
    ensures SLAB_MIN_ORDER <= h.slabs[base].order <= SLAB_MAX_ORDER
    ensures |LiveSlots(h, base)| + |h.slabs[base].free| == SlotCount(h.slabs[base].order)
  {
    var sl := h.slabs[base];
    SlotSetCount(base, sl.order);
    ElementsCount(sl.free);
    hide Inv, IsSlot, TagsOk, ChainsOk;
    assert SlotSet(base, sl.order) == LiveSlots(h, base) + Elements(sl.free) by { FreeAreSlots(h, base); }
    assert LiveSlots(h, base) !! Elements(sl.free);
  }

  ghost function LiveSlots(h: Heap, base: nat): set<nat>
    requires base in h.slabs
  {
    set a | a in SlotSet(base, h.slabs[base].order) && SlotLive(h, base, Alloc(a, Pow2(h.slabs[base].order)))
  }

  lemma FreeAreSlots(h: Heap, base: nat)
    requires SlabsOk(h) && base in h.slabs
    ensures forall a: nat :: a in SlotSet(base, h.slabs[base].order) <==> IsSlot(base, h.slabs[base].order, a)
    ensures forall a: nat :: a in h.slabs[base].free ==> a in SlotSet(base, h.slabs[base].order)
  {
  }

  // ---- Live allocations never overlap -------------------------------------------------------------------

  ghost predicate Apart(a: Alloc, b: Alloc) {
    a.addr + a.len <= b.addr || b.addr + b.len <= a.addr
  }

  lemma LiveBlocksApart(z: Zone, b: Block, c: Block)
    requires Inv(z) && b in z.live && c in z.live && b != c
    ensures Start(b) + Pow2(b.order) <= Start(c) || Start(c) + Pow2(c.order) <= Start(b)
  {
    var p := if Start(b) <= Start(c) then Start(c) else Start(b);
    if Start(b) < Start(c) + Pow2(c.order) && Start(c) < Start(b) + Pow2(b.order) {
      ShrInterval(p, b.num, b.order);
      ShrInterval(p, c.num, c.order);
      assert b in z.free + z.live && c in z.free + z.live;
      OneBlockPerPage(z, b, c, p);
    }
  }

  lemma SlabBlockPages(start: nat, base: nat)
    requires IsBase(start, base)
    ensures Start(SlabBlock(start, base)) == 512 * SlabNum(start, base)
    ensures BlockAddr(start, SlabBlock(start, base)) == base
    ensures Pow2(SLAB_BLOCK_ORDER) == 512
  {
    ShlMul(SlabNum(start, base), SLAB_BLOCK_ORDER);
    assert Pow2(5) == 32;
    assert Pow2(9) == 16 * Pow2(5);
  }

  /** Multiples of c that differ are at least c apart. */
  lemma MultiplesApart(x: nat, y: nat, c: nat)
    requires c > 0 && x % c == 0 && y % c == 0 && x < y
    ensures x + c <= y
  {
    var i, j := x / c, y / c;
    assert x == c * i && y == c * j;
    assert i >= j ==> c * i >= c * j;
    assert c * (i + 1) <= c * j;
  }

  lemma ObjectSizes(order: nat)
    requires SLAB_MIN_ORDER <= order <= SLAB_MAX_ORDER
    ensures SLAB_INIT_SIZE % Pow2(order) == 0 && 32 <= Pow2(order) <= 2048
  {
    assert Pow2(5) == 32;
    assert order == 5 || order == 6 || order == 7 || order == 8 || order == 9 || order == 10 || order == 11;
    assert Pow2(6) == 64 && Pow2(7) == 128 && Pow2(8) == 256;
    assert Pow2(9) == 512 && Pow2(10) == 1024 && Pow2(11) == 2048;
  }

  /** Each slot lies inside its slab. */
  lemma SlotInSlab(base: nat, order: nat, addr: nat)
    requires SLAB_MIN_ORDER <= order <= SLAB_MAX_ORDER && IsSlot(base, order, addr)
    ensures addr + Pow2(order) <= base + SLAB_INIT_SIZE
  {
    ObjectSizes(order);
    MultiplesApart(addr - base, SLAB_INIT_SIZE, Pow2(order));
  }

  /** The page run behind a live allocation. */
  lemma BlockBehind(h: Heap, a: Alloc) returns (b: Block)
    requires HeapInv(h) && IsLive(h, a)
    ensures b in h.zone.live
    ensures BlockAddr(h.start, b) <= a.addr && a.addr + a.len <= BlockAddr(h.start, b) + PAGE_SIZE * Pow2(b.order)
    ensures BlockLive(h, b, a) || exists base :: SlotLive(h, base, a) && b == SlabBlock(h.start, base)
  {
    if base :| SlotLive(h, base, a) {
      b := SlabBlock(h.start, base);
      SlabBlockPages(h.start, base);
      SlotInSlab(base, h.slabs[base].order, a.addr);
    } else {
      b :| BlockLive(h, b, a);
    }
  }

  /** The base address is determined by the slab's block. */
  lemma SlabBlockInjective(start: nat, base: nat, base': nat)
    requires IsBase(start, base) && IsBase(start, base') && SlabBlock(start, base) == SlabBlock(start, base')
    ensures base == base'
  {
  }

  /** A slab's block is not also handed out as a page run. */
  lemma SlabNotRun(h: Heap, base: nat, a: Alloc)
    requires HeapInv(h) && base in h.slabs
    ensures !BlockLive(h, SlabBlock(h.start, base), a)
  {
    SlabBlockPages(h.start, base);
  }

  lemma SlotsApart(base: nat, order: nat, a: nat, a': nat)
    requires IsSlot(base, order, a) && IsSlot(base, order, a') && a != a'
    ensures Apart(Alloc(a, Pow2(order)), Alloc(a', Pow2(order)))
  {
    if a < a' {
      MultiplesApart(a - base, a' - base, Pow2(order));
    } else {
      MultiplesApart(a' - base, a - base, Pow2(order));
    }
  }

  /** Live allocations are pairwise disjoint, whichever allocator they came from. */
  lemma LiveDisjoint(h: Heap, a: Alloc, a': Alloc)
    requires HeapInv(h) && IsLive(h, a) && IsLive(h, a') && a != a'
    ensures Apart(a, a')
  {
    var b := BlockBehind(h, a);
    var b' := BlockBehind(h, a');
    hide Inv, TagsOk, ChainsOk, IsSlot, Start, IsLive;
    if b != b' {
      LiveBlocksApart(h.zone, b, b');
    } else if base :| SlotLive(h, base, a) && b == SlabBlock(h.start, base) {
      SlabNotRun(h, base, a');
      var base' :| SlotLive(h, base', a') && b' == SlabBlock(h.start, base');
      SlabBlockInjective(h.start, base, base');
      SlotsApart(base, h.slabs[base].order, a.addr, a'.addr);
    } else if base' :| SlotLive(h, base', a') && b' == SlabBlock(h.start, base') {
      SlabNotRun(h, base', a);
    }
  }

  /** Every live allocation lies inside the memory that the allocator was given. */
  lemma LiveInside(h: Heap, a: Alloc)
    requires HeapInv(h) && IsLive(h, a)
    ensures h.start <= a.addr && a.addr + a.len <= h.start + h.zone.n * PAGE_SIZE
  {
    var b := BlockBehind(h, a);
    InBounds(h.zone, b);
    hide Inv, IsLive, SlabsOk, TagsOk, ChainsOk, Pow2, Start;
    assert (Start(b) + Pow2(b.order)) * PAGE_SIZE <= h.zone.n * PAGE_SIZE;
  }

  /** The first page of a run handed out to a caller carries no slab address. */
  lemma RunUntagged(h: Heap, b: Block, a: Alloc)
    requires HeapInv(h) && BlockLive(h, b, a)
    ensures Start(b) < |h.tags| && h.tags[Start(b)] == 0
  {
    hide Inv, ChainsOk, IsSlot, NoDuplicates;
    InBounds(h.zone, b);
    var page := Start(b);
    var s := h.tags[page];
    if s != 0 {
      assert page / 512 == SlabNum(h.start, s);
      SlabPageInBlock(h.start, s, page);
      StartContained(b);
      OneBlock(h.zone, b, SlabBlock(h.start, s), page);
      SlabNotRun(h, s, a);
    }
  }

  lemma SlabPageInBlock(start: nat, base: nat, page: nat)
    requires IsBase(start, base) && page / 512 == SlabNum(start, base)
    ensures Contains(SlabBlock(start, base), page)
  {
    SlabBlockPages(start, base);
    ShrInterval(page, SlabNum(start, base), SLAB_BLOCK_ORDER);
  }

  lemma OneBlock(z: Zone, b: Block, c: Block, page: nat)
    requires Inv(z) && b in z.live && c in z.live && Contains(b, page) && Contains(c, page)
    ensures b == c
  {
    assert b in z.free + z.live && c in z.free + z.live;
    OneBlockPerPage(z, b, c, page);
  }

  lemma SlotTagged(h: Heap, base: nat, a: Alloc)
    requires HeapInv(h) && SlotLive(h, base, a)
    ensures a.addr >= h.start
    ensures var page := (a.addr - h.start) / PAGE_SIZE; page < |h.tags| && h.tags[page] == base
  {
    hide IsSlot, Inv, Start;
    var order := h.slabs[base].order;
    SlotInSlab(base, order, a.addr);
    var b := SlabBlock(h.start, base);
    SlabBlockPages(h.start, base);
    InBounds(h.zone, b);
    SlotBounds(base, order, a.addr);
    PageOfSlot(h.start, base, a.addr);
  }

  lemma SlotBounds(base: nat, order: nat, addr: nat)
    requires IsSlot(base, order, addr)
    ensures base < addr < base + SLAB_INIT_SIZE
  {
  }

  lemma PageOfSlot(start: nat, base: nat, addr: nat)
    requires IsBase(start, base) && base < addr < base + SLAB_INIT_SIZE
    ensures var page := (addr - start) / PAGE_SIZE;
            page / 512 == SlabNum(start, base) && page < 512 * SlabNum(start, base) + 512
  {
  }

  lemma InBounds(z: Zone, b: Block)
    requires Inv(z) && b in z.live
    ensures Start(b) + Pow2(b.order) <= z.n
  {
    assert b in z.free + z.live;
  }

  /**
    kfree's test: the page of a live allocation carries a slab address exactly when it is a slot, and then that
    slab's.
   */
  lemma TagDecides(h: Heap, a: Alloc)
    requires HeapInv(h) && IsLive(h, a)
    ensures a.addr >= h.start && (a.addr - h.start) / PAGE_SIZE < |h.tags|
    ensures var tag := h.tags[(a.addr - h.start) / PAGE_SIZE];
            if tag != 0 then SlotLive(h, tag, a) else exists b :: BlockLive(h, b, a)
  {
    hide HeapInv, SlotLive;
    if base :| SlotLive(h, base, a) {
      SlotTagged(h, base, a);
      StartPositive(h, base, a);
    } else {
      var b :| BlockLive(h, b, a);
      RunUntagged(h, b, a);
    }
  }

  lemma SlotKnown(h: Heap, base: nat, a: Alloc)
    requires SlotLive(h, base, a)
    ensures base in h.slabs
  {
  }

  lemma StartPositive(h: Heap, base: nat, a: Alloc)
    requires HeapInv(h) && SlotLive(h, base, a)
    ensures base > 0
  {
  }

  // ---- Sizes to orders -----------------------------------------------------------------------------------

  /** size_to_order: the least order whose size is enough. Callers pass sizes that fit an int. */
  method SizeToOrder(size: nat) returns (order: nat)
    requires size < 0x8000_0000
    ensures size <= Pow2(order)
    ensures order > 0 ==> Pow2(order - 1) < size
  {
    order := 0;
    var tmp := size;
    while tmp > 1
      invariant Shr(size, order) == tmp
      invariant order > 0 ==> tmp > 0
    {
      tmp := tmp / 2;
      order := order + 1;
    }
    ShrInterval(size, tmp, order);
    ShlOne(order);
    if size > Pow2(order) {
      order := order + 1;
    }
  }

  /** size_to_page_order: the least order whose run of pages is enough. */
  method SizeToPageOrder(size: nat) returns (order: nat)
    ensures size <= PAGE_SIZE * Pow2(order)
    ensures order > 0 ==> PAGE_SIZE * Pow2(order - 1) < size
  {
    order := 0;
    var pgNum := (size + PAGE_SIZE - 1) / PAGE_SIZE;
    var tmp := pgNum;
    while tmp > 1
      invariant Shr(pgNum, order) == tmp
      invariant order > 0 ==> tmp > 0
    {
      tmp := tmp / 2;
      order := order + 1;
    }
    ShrInterval(pgNum, tmp, order);
    ShlOne(order);
    if pgNum > Pow2(order) {
      order := order + 1;
    }
    assert pgNum <= Pow2(order) && (order > 0 ==> Pow2(order - 1) < pgNum);
  }

  // ---- What each operation does to the live allocations -------------------------------------------------------

  /** The live allocations of h' are those of h and a. */
  ghost predicate Adds(h: Heap, h': Heap, a: Alloc) {
    !IsLive(h, a) && forall x :: IsLive(h', x) <==> IsLive(h, x) || x == a
  }

  ghost predicate SameLive(h: Heap, h': Heap) {
    forall x :: IsLive(h', x) <==> IsLive(h, x)
  }

  /** Only one way of being live fits an allocation. */
  lemma OneWay(h: Heap, base: nat, a: Alloc)
    requires HeapInv(h) && SlotLive(h, base, a)
    ensures forall s :: SlotLive(h, s, a) ==> s == base
    ensures forall b :: !BlockLive(h, b, a)
  {
    hide HeapInv, SlotLive;
    SlotTagged(h, base, a);
    StartPositive(h, base, a);
    forall s | SlotLive(h, s, a)
      ensures s == base
    {
      SlotTagged(h, s, a);
    }
    forall b | BlockLive(h, b, a)
      ensures false
    {
      RunUntagged(h, b, a);
    }
  }

  function SetFree(h: Heap, base: nat, free: seq<nat>): Heap
    requires base in h.slabs
  {
    h.(slabs := h.slabs[base := Slab(h.slabs[base].order, free)])
  }

  lemma SetFreeInv(h: Heap, base: nat, free: seq<nat>)
    requires HeapInv(h) && base in h.slabs && NoDuplicates(free)
    requires forall a :: a in free ==> IsSlot(base, h.slabs[base].order, a)
    ensures HeapInv(SetFree(h, base, free))
  {
    hide Inv, IsSlot, NoDuplicates;
  }

  lemma FreeSlots(h: Heap, base: nat)
    requires HeapInv(h) && base in h.slabs
    ensures NoDuplicates(h.slabs[base].free)
    ensures forall a :: a in h.slabs[base].free ==> IsSlot(base, h.slabs[base].order, a)
  {
  }

  lemma PopSeq(s: seq<nat>)
    requires NoDuplicates(s) && s != []
    ensures NoDuplicates(s[1..]) && s[0] !in s[1..] && forall x :: x in s <==> x == s[0] || x in s[1..]
  {
    assert s == [s[0]] + s[1..];
  }

  /** Taking the first free slot makes exactly that slot live. */
  lemma PopSlot(h: Heap, base: nat)
    requires HeapInv(h) && base in h.slabs && h.slabs[base].free != []
    ensures var a := Alloc(h.slabs[base].free[0], Pow2(h.slabs[base].order));
            var h' := SetFree(h, base, h.slabs[base].free[1..]);
            HeapInv(h') && IsLive(h', a) && Adds(h, h', a)
  {
    hide HeapInv, IsSlot, NoDuplicates, BlockLive;
    var free := h.slabs[base].free;
    var a := Alloc(free[0], Pow2(h.slabs[base].order));
    var h' := SetFree(h, base, free[1..]);
    FreeSlots(h, base);
    PopSeq(free);
    SetFreeInv(h, base, free[1..]);
    OneWay(h', base, a);
    forall x
      ensures IsLive(h', x) <==> IsLive(h, x) || x == a
      ensures !IsLive(h, a)
    {
      SetFreeLive(h, base, free[1..], x);
      SetFreeLive(h, base, free[1..], a);
    }
  }

  /** Changing one free list changes only which of that slab's slots are live. */
  lemma SetFreeLive(h: Heap, base: nat, free: seq<nat>, x: Alloc)
    requires base in h.slabs
    ensures var h' := SetFree(h, base, free);
            && (forall s :: s != base ==> (SlotLive(h', s, x) <==> SlotLive(h, s, x)))
            && (forall b :: BlockLive(h', b, x) <==> BlockLive(h, b, x))
            && (SlotLive(h', base, x) <==>
                  IsSlot(base, h.slabs[base].order, x.addr) && x.addr !in free && x.len == Pow2(h.slabs[base].order))
  {
  }

  /** Putting a live slot on the free list ends exactly that allocation. */
  lemma PushSlot(h: Heap, base: nat, a: Alloc)
    requires HeapInv(h) && SlotLive(h, base, a)
    ensures var h' := SetFree(h, base, [a.addr] + h.slabs[base].free);
            HeapInv(h') && Adds(h', h, a)
  {
    hide HeapInv, IsSlot, NoDuplicates, BlockLive;
    var free := h.slabs[base].free;
    var h' := SetFree(h, base, [a.addr] + free);
    FreeSlots(h, base);
    PushSeq(free, a.addr);
    SetFreeInv(h, base, [a.addr] + free);
    OneWay(h, base, a);
    forall x
      ensures IsLive(h, x) <==> IsLive(h', x) || x == a
      ensures !IsLive(h', a)
    {
      SetFreeLive(h, base, [a.addr] + free, x);
      SetFreeLive(h, base, [a.addr] + free, a);
    }
  }

  lemma PushSeq(s: seq<nat>, x: nat)
    requires NoDuplicates(s) && x !in s
    ensures NoDuplicates([x] + s)
  {
  }

  /** A page run is one live allocation: the buddy's block more, one live allocation more. */
  lemma AddRun(h: Heap, zone': Zone, b: Block)
    requires HeapInv(h) && Inv(zone') && zone'.n == h.zone.n
    requires b !in h.zone.live && zone'.live == h.zone.live + {b}
    ensures var h' := h.(zone := zone');
            HeapInv(h') && Adds(h, h', Alloc(BlockAddr(h.start, b), PAGE_SIZE * Pow2(b.order)))
  {
    var a := Alloc(BlockAddr(h.start, b), PAGE_SIZE * Pow2(b.order));
    var h' := h.(zone := zone');
    hide Inv, IsSlot, NoDuplicates;
    assert SlabsOk(h') && TagsOk(h') && ChainsOk(h');
    if b.order == SLAB_BLOCK_ORDER { NotASlab(h, b); }
    RunAddsOne(h, h', b, a);
  }

  /** The address of a block that was not live is no slab's. */
  lemma NotASlab(h: Heap, b: Block)
    requires SlabsOk(h) && b !in h.zone.live && b.order == SLAB_BLOCK_ORDER
    ensures BlockAddr(h.start, b) !in h.slabs
  {
    var addr := BlockAddr(h.start, b);
    BaseOfBlock(h.start, addr, b);
  }

  lemma RunAddsOne(h: Heap, h': Heap, b: Block, a: Alloc)
    requires HeapInv(h) && HeapInv(h') && h' == h.(zone := h'.zone)
    requires b !in h.zone.live && h'.zone.live == h.zone.live + {b} && BlockLive(h', b, a)
    ensures Adds(h, h', a)
  {
    hide HeapInv;
    forall x
      ensures IsLive(h', x) <==> IsLive(h, x) || x == a
    {
      ZoneLive(h, h', b, a, x);
    }
    RunUntagged(h', b, a);
    if base :| SlotLive(h, base, a) {
      SlotTagged(h, base, a);
      StartPositive(h, base, a);
    }
    if c :| BlockLive(h, c, a) {
      HeapZone(h');
      SameStart(h'.zone, b, c);
    }
  }

  lemma HeapZone(h: Heap)
    requires HeapInv(h)
    ensures Inv(h.zone)
  {
  }

  lemma ZoneLive(h: Heap, h': Heap, b: Block, a: Alloc, x: Alloc)
    requires h' == h.(zone := h'.zone)
    requires b !in h.zone.live && h'.zone.live == h.zone.live + {b} && BlockLive(h', b, a)
    ensures IsLive(h', x) <==> IsLive(h, x) || x == a
  {
    assert forall s :: SlotLive(h', s, x) <==> SlotLive(h, s, x);
    hide SlotLive;
    assert forall c :: c != b ==> (BlockLive(h', c, x) <==> BlockLive(h, c, x));
    assert BlockLive(h', b, x) ==> x == a;
    assert !BlockLive(h, b, x);
  }

  lemma SameStart(z: Zone, b: Block, c: Block)
    requires Inv(z) && b in z.live && c in z.live && Start(b) == Start(c)
    ensures b == c
  {
    if b != c { LiveBlocksApart(z, b, c); }
  }

  /** Giving a page run back ends exactly that allocation. */
  lemma DropRun(h: Heap, zone': Zone, b: Block, a: Alloc)
    requires HeapInv(h) && BlockLive(h, b, a)
    requires Inv(zone') && zone'.n == h.zone.n && zone'.live == h.zone.live - {b}
    ensures var h' := h.(zone := zone'); HeapInv(h') && Adds(h', h, a)
  {
    var h' := h.(zone := zone');
    forall s | s in h.slabs
      ensures SlabBlock(h.start, s) in zone'.live
    {
      SlabNotRun(h, s, a);
    }
    assert HeapInv(h');
    assert h == h'.(zone := h.zone);
    assert h'.zone.live + {b} == h.zone.live;
    RunAddsOne(h', h, b, a);
  }

  /** A new slab with all of its slots free adds no live allocation. */
  lemma AddSlab(h: Heap, h': Heap, base: nat, order: nat, free: seq<nat>)
    requires HeapInv(h) && Inv(h'.zone) && h'.zone.n == h.zone.n && h'.start == h.start
    requires SLAB_MIN_ORDER <= order <= SLAB_MAX_ORDER && IsBase(h.start, base)
    requires SlabBlock(h.start, base) !in h.zone.live
    requires h'.zone.live == h.zone.live + {SlabBlock(h.start, base)}
    requires h'.slabs == h.slabs[base := Slab(order, free)]
    requires h'.chains == h.chains[order := [base] + h.chains[order]]
    requires |h'.tags| == |h.tags|
    requires forall q :: 0 <= q < |h.tags| ==>
               h'.tags[q] == if q / 512 == SlabNum(h.start, base) then base else h.tags[q]
    requires NoDuplicates(free) && forall a :: a in free <==> IsSlot(base, order, a)
    ensures HeapInv(h') && base !in h.slabs && SameLive(h, h')
  {
    var b := SlabBlock(h.start, base);
    assert base !in h.slabs;
    SlabBlockPages(h.start, base);
    assert SlabsOk(h');
    TagsAfterSlab(h, h', base, order, free);
    assert ChainsOk(h');
    forall x
      ensures IsLive(h', x) <==> IsLive(h, x)
    {
      NewSlabLive(h, h', base, x);
    }
  }

  lemma TagsAfterSlab(h: Heap, h': Heap, base: nat, order: nat, free: seq<nat>)
    requires TagsOk(h) && SlabsOk(h) && h'.zone.n == h.zone.n && h'.start == h.start && IsBase(h.start, base)
    requires base !in h.slabs && h'.slabs == h.slabs[base := Slab(order, free)]
    requires |h'.tags| == |h.tags|
    requires forall q :: 0 <= q < |h.tags| ==>
               h'.tags[q] == if q / 512 == SlabNum(h.start, base) then base else h.tags[q]
    ensures TagsOk(h')
  {
    forall s, q | s in h'.slabs && 0 <= q < |h'.tags| && q / 512 == SlabNum(h'.start, s)
      ensures h'.tags[q] == s
    {
      assert IsBase(h.start, s);
      if SlabNum(h.start, s) == SlabNum(h.start, base) {
        SlabBlockInjective(h.start, s, base);
      }
    }
  }

  lemma NewSlabLive(h: Heap, h': Heap, base: nat, x: Alloc)
    requires base !in h.slabs && base in h'.slabs && h'.slabs == h.slabs[base := h'.slabs[base]]
    requires h'.start == h.start && IsBase(h.start, base) && SlabBlock(h.start, base) !in h.zone.live
    requires h'.zone.live == h.zone.live + {SlabBlock(h.start, base)}
    requires forall a :: IsSlot(base, h'.slabs[base].order, a) ==> a in h'.slabs[base].free
    ensures IsLive(h', x) <==> IsLive(h, x)
  {
    var b := SlabBlock(h.start, base);
    SlabBlockPages(h.start, base);
    assert forall s :: SlotLive(h', s, x) <==> SlotLive(h, s, x);
    forall c
      ensures BlockLive(h', c, x) <==> BlockLive(h, c, x)
    {
      if c.order == SLAB_BLOCK_ORDER && BlockAddr(h.start, c) == base {
        ShlMul(c.num, SLAB_BLOCK_ORDER);
        assert c == b;
      }
    }
  }

  // ---- The allocator as it runs ------------------------------------------------------------------------------

  ghost function Tags(ps: seq<Page>): seq<nat> {
    seq(|ps|, i requires 0 <= i < |ps| => ps[i].slab)
  }

  /** Writing a slab address changes neither free nor live blocks. */
  lemma SlabWriteKeeps(ps: seq<Page>, lists: seq<seq<nat>>, nrFree: seq<nat>, free: set<Block>, live: set<Block>,
                       tagged: bool, p: nat, slab: nat)
    requires p < |ps| && FreeRep(ps, lists, nrFree, free) && LiveRep(ps, live, tagged)
    ensures var ps' := ps[p := ps[p].(slab := slab)];
            && FreeRep(ps', lists, nrFree, free) && LiveRep(ps', live, tagged)
            && Tags(ps') == Tags(ps)[p := slab]
  {
  }

  /** The slot addresses of a slab in ascending order: what init_slab_cache links together. */
  ghost predicate SlotsUpTo(base: nat, order: nat, free: seq<nat>, i: nat) {
    |free| == i && forall j :: 0 <= j < i ==> free[j] == base + (j + 1) * Pow2(order)
  }

  lemma AllSlots(base: nat, order: nat, free: seq<nat>, n: nat)
    requires SLAB_MIN_ORDER <= order <= SLAB_MAX_ORDER
    requires SLAB_INIT_SIZE == n * Pow2(order) && n > 1 && SlotsUpTo(base, order, free, n - 1)
    ensures NoDuplicates(free) && forall a :: a in free <==> IsSlot(base, order, a)
    ensures free != []
  {
    hide IsSlot, Pow2;
    forall a: nat | IsSlot(base, order, a)
      ensures a in free
    {
      SlotListed(base, order, free, n, a);
    }
    forall a | a in free
      ensures IsSlot(base, order, a)
    {
      var j :| 0 <= j < |free| && free[j] == a;
      ListedSlot(base, order, j + 1, n);
    }
    forall i, j | 0 <= i < j < |free|
      ensures free[i] != free[j]
    {
      SlotsIncrease(i + 1, j + 1, Pow2(order));
    }
  }

  lemma ListedSlot(base: nat, order: nat, j: nat, n: nat)
    requires SLAB_INIT_SIZE == n * Pow2(order) && 0 < j < n
    ensures IsSlot(base, order, base + j * Pow2(order))
  {
    SlotOffset(j, n, Pow2(order));
  }

  lemma SlabSlots(order: nat)
    requires SLAB_MIN_ORDER <= order <= SLAB_MAX_ORDER
    ensures var n := SLAB_INIT_SIZE / Pow2(order); SLAB_INIT_SIZE == n * Pow2(order) && n > 1
  {
    SlabHolds(order);
    hide Pow2;
    Unscale(Pow2(21 - order), Pow2(order));
  }

  lemma SlotsIncrease(i: nat, j: nat, c: nat)
    requires i < j && c > 0
    ensures i * c < j * c
  {
  }

  lemma SlotListed(base: nat, order: nat, free: seq<nat>, n: nat, a: nat)
    requires SLAB_INIT_SIZE == n * Pow2(order) && SlotsUpTo(base, order, free, n - 1) && IsSlot(base, order, a) && n > 0
    ensures a in free
  {
    var c := Pow2(order);
    var j := (a - base) / c;
    assert a - base == j * c;
    SlotIndex(j, n, c, a - base);
    assert free[j - 1] == base + j * c;
  }

  lemma SlotIndex(j: int, n: nat, c: nat, off: nat)
    requires c > 0 && off == j * c && 0 < off < n * c
    ensures 0 < j < n
  {
    assert j <= 0 ==> j * c <= 0;
    assert j >= n ==> j * c >= n * c;
  }

  lemma SlotOffset(j: nat, n: nat, c: nat)
    requires c > 0 && 0 < j < n
    ensures 0 < j * c < n * c && (j * c) % c == 0
  {
    ScaleLess(0, j, c);
    ScaleLess(j, n, c);
    Unscale(j, c);
  }

  /** The loop of init_slab_cache: every object of the slab but the first, in ascending order. */
  method LinkSlots(base: nat, order: nat) returns (free: seq<nat>)
    requires SLAB_MIN_ORDER <= order <= SLAB_MAX_ORDER
    ensures NoDuplicates(free) && forall a :: a in free <==> IsSlot(base, order, a)
    ensures free != []
  {
    hide IsSlot, Pow2;
    SlabSlots(order);
    var size := Pow2(order);
    var cnt := SLAB_INIT_SIZE / size - 1;
    free := [];
    var slot := base + size;
    var i := 0;
    while i < cnt
      invariant 0 <= i <= cnt && slot == base + (i + 1) * size
      invariant SlotsUpTo(base, order, free, i)
    {
      free := free + [slot];
      slot := slot + size;
      i := i + 1;
    }
    AllSlots(base, order, free, SLAB_INIT_SIZE / size);
  }

  lemma OnChain(h: Heap, k: nat, s: nat)
    requires HeapInv(h) && k < |h.chains| && s in h.chains[k]
    ensures s in h.slabs && h.slabs[s].order == k
  {
  }

  // ---- When memory is enough -------------------------------------------------------------------

  /** Some aligned run of 2^order pages is wholly free. */
  ghost predicate HasRun(z: Zone, order: nat) {
    exists num: nat :: WhollyFree(z, Block(num, order))
  }

  /** Some slab of the object order has a free slot. */
  ghost predicate HasSlot(h: Heap, order: nat) {
    exists s :: s in h.slabs && h.slabs[s].order == order && h.slabs[s].free != []
  }

  /** The aligned runs of 2^order pages that are wholly free. */
  ghost function FreeRuns(z: Zone, order: nat): set<nat> {
    set num: nat | num < z.n && WhollyFree(z, Block(num, order))
  }

  lemma SlotOnChain(h: Heap, order: nat)
    requires HeapInv(h) && order < |h.chains|
    ensures HasSlot(h, order) <==> exists s :: s in h.chains[order] && s in h.slabs && h.slabs[s].free != []
  {
    hide Inv, SlabsOk, TagsOk;
    assert ChainsOk(h);
  }

  lemma RunInZone(z: Zone, b: Block)
    requires Inv(z) && WhollyFree(z, b)
    ensures b.num < z.n
  {
    var page := Shl(b.num, b.order);
    ShrShl(b.num, b.order);
    ShlMul(b.num, b.order);
    FreePageIffNotLive(z, page);
    ScaleAtLeast(b.num, Pow2(b.order));
  }

  lemma ScaleAtLeast(n: nat, c: nat)
    requires c > 0
    ensures n <= n * c
  {
    if n > 0 { assert n * c == n + n * (c - 1); }
  }

  lemma HasRunIff(z: Zone, order: nat)
    requires Inv(z)
    ensures HasRun(z, order) <==> FreeRuns(z, order) != {}
  {
    if HasRun(z, order) {
      var num: nat :| WhollyFree(z, Block(num, order));
      RunInZone(z, Block(num, order));
      assert num in FreeRuns(z, order);
    } else {
      assert FreeRuns(z, order) == {};
    }
  }

  /** Taking a block takes exactly one of the free runs of its order. */
  lemma RunTaken(z: Zone, z': Zone, b: Block)
    requires Inv(z) && Inv(z') && z'.n == z.n && b !in z.live && z'.live == z.live + {b} && b.order <= TOP
    ensures |FreeRuns(z, b.order)| == |FreeRuns(z', b.order)| + 1
  {
    forall page: nat
      ensures Covered(z'.free, page) <==> Covered(z.free, page) && !Contains(b, page)
      ensures Contains(b, page) ==> Covered(z.free, page)
    {
      PageTaken(z, z', b, page);
    }
    hide Inv, Covered;
    forall num: nat
      ensures WhollyFree(z', Block(num, b.order)) <==> WhollyFree(z, Block(num, b.order)) && num != b.num
    {
      ShrShl(num, b.order);
      assert Contains(Block(num, b.order), Shl(num, b.order));
    }
    RunInZone(z, b);
    assert FreeRuns(z, b.order) == FreeRuns(z', b.order) + {b.num};
  }

  lemma PageTaken(z: Zone, z': Zone, b: Block, page: nat)
    requires Inv(z) && Inv(z') && z'.n == z.n && b !in z.live && z'.live == z.live + {b} && b.order <= TOP
    ensures Covered(z'.free, page) <==> Covered(z.free, page) && !Contains(b, page)
    ensures Contains(b, page) ==> Covered(z.free, page)
  {
    FreePageIffNotLive(z, page);
    FreePageIffNotLive(z', page);
    if Contains(b, page) {
      assert Block(Shr(page, b.order), b.order) in z'.live;
      if Covered(z.live, page) {
        var k: nat :| k <= TOP && Block(Shr(page, k), k) in z.live;
        OneBlockPerPage(z', b, Block(Shr(page, k), k), page);
      }
      TakenInZone(z', b, page);
    } else {
      assert Covered(z'.live, page) <==> Covered(z.live, page);
    }
  }

  lemma TakenInZone(z: Zone, b: Block, page: nat)
    requires Inv(z) && b in z.live && Contains(b, page)
    ensures page < z.n
  {
    InBounds(z, b);
    ShrInterval(page, b.num, b.order);
    ShlMul(b.num, b.order);
  }

  class KernelHeap {
    const start: nat
    const buddy: Buddy
    var slabs: map<nat, Slab>
    var chains: seq<seq<nat>>

    ghost function H(): Heap
      reads this, buddy, buddy.pages
    {
      Heap(start, buddy.zone, Tags(buddy.pages[..]), slabs, chains)
    }

    ghost predicate Valid()
      reads this, buddy, buddy.pages
    {
      buddy.Valid() && buddy.tagged && HeapInv(H())
    }

    /** init_slab has run: every object order has a slab. */
    ghost predicate Ready()
      reads this
    {
      |chains| == SLAB_MAX_ORDER + 1 && forall k :: SLAB_MIN_ORDER <= k <= SLAB_MAX_ORDER ==> chains[k] != []
    }

    /** mm_init's part: a zone given to the buddy allocator, no slab yet, nothing live. */
    constructor (start: nat, pageNum: nat)
      requires start > 0
      ensures Valid() && fresh(buddy) && fresh(buddy.pages)
      ensures this.start == start && buddy.zone.n == pageNum && forall k :: 0 <= k < |chains| ==> chains[k] == []
      ensures forall a :: !IsLive(H(), a)
    {
      this.start := start;
      buddy := new Buddy(pageNum);
      slabs := map[];
      chains := seq(SLAB_MAX_ORDER + 1, _ => []);
    }

    /** alloc_slab_memory: a block of 512 pages, each tagged with its address. */
    method AllocSlabMemory() returns (r: Option<nat>)
      requires Valid()
      modifies buddy, buddy.pages
      ensures buddy.Valid() && buddy.tagged
      ensures r.Some? <==> HasRun(old(buddy.zone), SLAB_BLOCK_ORDER)
      ensures r.None? ==> H() == old(H())
      ensures r.Some? ==>
                && IsBase(start, r.value) && SlabBlock(start, r.value) !in old(buddy.zone).live
                && buddy.zone.n == old(buddy.zone).n
                && buddy.zone.live == old(buddy.zone).live + {SlabBlock(start, r.value)}
                && |H().tags| == |old(H()).tags|
                && forall q :: 0 <= q < |H().tags| ==>
                     H().tags[q] == if q / 512 == SlabNum(start, r.value) then r.value else old(H()).tags[q]
    {
      hide FreeRep, LiveRep, Inv, WhollyFree, BestFit, SplitDown;
      ghost var ps0 := buddy.pages[..];
      var p := buddy.BuddyGetPages(SLAB_BLOCK_ORDER);
      assert Tags(buddy.pages[..]) == Tags(ps0);
      if p.None? {
        return None;
      }
      var page := p.value;
      var addr := PageAddr(start, page);
      ghost var b := BlockAt(page, SLAB_BLOCK_ORDER);
      GotBlock(old(buddy.zone), buddy.zone, page, SLAB_BLOCK_ORDER);
      BaseOfBlock(start, addr, b);
      GotInBounds(buddy.zone, b);
      ghost var tags := Tags(buddy.pages[..]);
      var i := 0;
      while i < 512
        modifies buddy.pages
        invariant 0 <= i <= 512
        invariant buddy.pages.Length == buddy.pageNum == buddy.zone.n
        invariant FreeRep(buddy.pages[..], buddy.lists, buddy.nrFree, buddy.zone.free)
        invariant LiveRep(buddy.pages[..], buddy.zone.live, buddy.tagged)
        invariant |Tags(buddy.pages[..])| == |tags|
        invariant forall q :: 0 <= q < |tags| ==>
                    Tags(buddy.pages[..])[q] == if page <= q < page + i then addr else tags[q]
      {
        ghost var ps := buddy.pages[..];
        SlabWriteKeeps(ps, buddy.lists, buddy.nrFree, buddy.zone.free, buddy.zone.live, buddy.tagged, page + i, addr);
        buddy.pages[page + i] := buddy.pages[page + i].(slab := addr);
        assert buddy.pages[..] == ps[page + i := ps[page + i].(slab := addr)];
        i := i + 1;
      }
      return Some(addr);
    }

    /** init_slab_cache and the chaining of the new slab in front; false is the out-of-memory BUG_ON. */
    method NewSlab(order: nat) returns (ok: bool)
      requires Valid() && SLAB_MIN_ORDER <= order <= SLAB_MAX_ORDER
      modifies this, buddy, buddy.pages
      ensures Valid() && SameLive(old(H()), H())
      ensures ok <==> HasRun(old(buddy.zone), SLAB_BLOCK_ORDER)
      ensures ok ==> |FreeRuns(old(buddy.zone), SLAB_BLOCK_ORDER)| == |FreeRuns(buddy.zone, SLAB_BLOCK_ORDER)| + 1
      ensures !ok ==> H() == old(H())
      ensures ok ==> |chains| == |old(chains)| && chains[order] != [] && chains[order][0] in slabs
                     && slabs[chains[order][0]].free != []
      ensures ok ==> forall k :: 0 <= k < |chains| && k != order ==> chains[k] == old(chains[k])
    {
      ghost var h := H();
      var m := AllocSlabMemory();
      if m.None? {
        return false;
      }
      hide Inv, IsSlot, SlabsOk, TagsOk, IsLive, FreeRep, LiveRep;
      var base := m.value;
      var free := LinkSlots(base, order);
      slabs := slabs[base := Slab(order, free)];
      chains := chains[order := [base] + chains[order]];
      AddSlab(h, H(), base, order, free);
      RunTaken(h.zone, buddy.zone, SlabBlock(start, base));
      return true;
    }

    /** init_slab: one slab per object order. */
    method InitSlab() returns (ok: bool)
      requires Valid() && forall k :: 0 <= k < |chains| ==> chains[k] == []
      modifies this, buddy, buddy.pages
      ensures Valid() && SameLive(old(H()), H())
      ensures ok <==> |FreeRuns(old(buddy.zone), SLAB_BLOCK_ORDER)| >= SLAB_MAX_ORDER - SLAB_MIN_ORDER + 1
      ensures ok ==> Ready()
    {
      for order := SLAB_MIN_ORDER to SLAB_MAX_ORDER + 1
        invariant Valid() && SameLive(old(H()), H())
        invariant |chains| == SLAB_MAX_ORDER + 1 && forall k :: SLAB_MIN_ORDER <= k < order ==> chains[k] != []
        invariant |FreeRuns(old(buddy.zone), SLAB_BLOCK_ORDER)| ==
                  |FreeRuns(buddy.zone, SLAB_BLOCK_ORDER)| + order - SLAB_MIN_ORDER
      {
        hide HeapInv, IsLive, HasRun, FreeRuns;
        assert |chains| == SLAB_MAX_ORDER + 1;
        HasRunIff(buddy.zone, SLAB_BLOCK_ORDER);
        ok := NewSlab(order);
        if !ok {
          return;
        }
      }
      ok := true;
    }

    /** _alloc_in_slab_nolock: the first free slot along the chain, else one from a new slab. */
    method AllocInSlab(order: nat) returns (r: KResult)
      requires Valid() && Ready() && SLAB_MIN_ORDER <= order <= SLAB_MAX_ORDER
      modifies this, buddy, buddy.pages
      ensures Valid() && Ready() && !r.Null?
      ensures r.Bug? <==> !HasSlot(old(H()), order) && !HasRun(old(buddy.zone), SLAB_BLOCK_ORDER)
      ensures HasSlot(old(H()), order) ==> buddy.zone == old(buddy.zone)
      ensures r.Bug? ==> SameLive(old(H()), H())
      ensures r.Addr? ==> Adds(old(H()), H(), Alloc(r.addr, Pow2(order)))
      decreases if exists s :: s in chains[order] && s in slabs && slabs[s].free != [] then 0 else 1
    {
      hide HeapInv, IsLive, Inv, FreeRep, LiveRep;
      var i := 0;
      while i < |chains[order]|
        invariant Valid() && Ready() && H() == old(H())
        invariant 0 <= i <= |chains[order]|
        invariant forall j :: 0 <= j < i ==> chains[order][j] in slabs && slabs[chains[order][j]].free == []
      {
        var s := chains[order][i];
        OnChain(H(), order, s);
        if slabs[s].free != [] {
          SlotOnChain(H(), order);
          PopSlot(H(), s);
          var first := slabs[s].free[0];
          slabs := slabs[s := Slab(slabs[s].order, slabs[s].free[1..])];
          return Addr(first);
        }
        i := i + 1;
      }
      assert forall s :: s in chains[order] && s in slabs ==> slabs[s].free == [];
      SlotOnChain(H(), order);
      var ok := NewSlab(order);
      if !ok {
        return Bug;
      }
      assert chains[order][0] in chains[order];
      SlotOnChain(H(), order);
      r := AllocInSlab(order);
    }

    /** free_in_slab: the slot goes to the front of the free list of the slab that its page names. */
    method FreeInSlab(addr: nat, ghost len: nat)
      requires Valid() && Ready() && exists base :: SlotLive(H(), base, Alloc(addr, len))
      modifies this
      ensures Valid() && Ready() && Adds(H(), old(H()), Alloc(addr, len))
    {
      hide HeapInv, IsLive, Inv, FreeRep, LiveRep, SlotLive;
      ghost var s :| SlotLive(H(), s, Alloc(addr, len));
      SlotKnown(H(), s, Alloc(addr, len));
      SlotTagged(H(), s, Alloc(addr, len));
      var base := buddy.pages[(addr - start) / PAGE_SIZE].slab;
      PushSlot(H(), base, Alloc(addr, len));
      slabs := slabs[base := Slab(slabs[base].order, [addr] + slabs[base].free)];
    }

    /**
      kmalloc: a live allocation of the least size that is enough, apart from every other one. It fails exactly if there
      is no slot and no memory for a new slab, no run of pages, or no order that is enough.
     */
    method Malloc(size: nat) returns (r: KResult, ghost order: nat, ghost len: nat)
      requires Valid() && Ready()
      modifies this, buddy, buddy.pages
      ensures Valid() && Ready()
      ensures r.Addr? ==> len >= size && Adds(old(H()), H(), Alloc(r.addr, len))
      ensures r.Addr? ==> forall a :: IsLive(old(H()), a) ==> Apart(a, Alloc(r.addr, len))
      ensures !r.Addr? ==> SameLive(old(H()), H())
      ensures size <= 2048 ==>
                && LeastOrder(size, 1, 5, order) && len == Pow2(order) && !r.Null?
                && (r.Bug? <==> !HasSlot(old(H()), order) && !HasRun(old(buddy.zone), 9))
      ensures size > 2048 ==>
                && LeastOrder(size, PAGE_SIZE, 0, order) && len == PAGE_SIZE * Pow2(order)
                && (r.Bug? <==> forall o: nat :: o < MAX_ORDER ==> PAGE_SIZE * Pow2(o) < size)
                && (r.Null? <==> order < MAX_ORDER && !HasRun(old(buddy.zone), order))
    {
      hide HeapInv, IsLive, HasRun, HasSlot, Pow2, LeastOrder;
      LargestObject();
      if size <= Pow2(SLAB_MAX_ORDER) {
        var k := SizeToOrder(size);
        SlabOrder(size, k);
        if k < SLAB_MIN_ORDER {
          k := SLAB_MIN_ORDER;
        }
        order, len := k, Pow2(k);
        r := AllocInSlab(k);
      } else {
        var k := 0;
        if size > PAGE_SIZE {
          k := SizeToPageOrder(size);
        }
        PageOrder(size, k);
        order, len := k, PAGE_SIZE * Pow2(k);
        if k >= MAX_ORDER {
          r := Bug;
          return;
        }
        r := GetPages(k);
      }
      if r.Addr? {
        ghost var h := H();
        forall a | IsLive(old(H()), a)
          ensures Apart(a, Alloc(r.addr, len))
        {
          LiveDisjoint(h, a, Alloc(r.addr, len));
        }
      }
    }

    /** get_pages: a page run from the buddy allocator, or Null exactly when no aligned run of that size is free. */
    method GetPages(order: nat) returns (r: KResult)
      requires Valid() && order < MAX_ORDER
      modifies buddy, buddy.pages
      ensures Valid() && !r.Bug?
      ensures r.Null? <==> !HasRun(old(buddy.zone), order)
      ensures r.Null? ==> SameLive(old(H()), H())
      ensures r.Addr? ==> Adds(old(H()), H(), Alloc(r.addr, PAGE_SIZE * Pow2(order)))
    {
      hide FreeRep, LiveRep, HeapInv, Inv, WhollyFree, BestFit, SplitDown, IsLive;
      ghost var ps0 := buddy.pages[..];
      ghost var h := H();
      var p := buddy.BuddyGetPages(order);
      assert Tags(buddy.pages[..]) == Tags(ps0);
      if p.None? {
        return Null;
      }
      GotBlock(old(buddy.zone), buddy.zone, p.value, order);
      AddRun(h, buddy.zone, BlockAt(p.value, order));
      return Addr(PageAddr(start, p.value));
    }

    /**
      kfree: the tag of the page sends the address back to the allocator it came from, and ends exactly that
      allocation.
     */
    method Free(addr: nat, ghost len: nat)
      requires Valid() && Ready() && IsLive(H(), Alloc(addr, len))
      modifies this, buddy, buddy.pages
      ensures Valid() && Ready() && Adds(H(), old(H()), Alloc(addr, len))
    {
      hide HeapInv, IsLive, Inv, FreeRep, LiveRep, SlotLive;
      TagDecides(H(), Alloc(addr, len));
      var page := (addr - start) / PAGE_SIZE;
      if buddy.pages[page].slab != 0 {
        FreeInSlab(addr, len);
      } else {
        ghost var b :| BlockLive(H(), b, Alloc(addr, len));
        FreeRun(page, b, Alloc(addr, len));
      }
    }

    /** free_pages: a page run goes back to the buddy allocator. */
    method FreeRun(page: nat, ghost b: Block, ghost a: Alloc)
      requires Valid() && BlockLive(H(), b, a) && page == Start(b)
      modifies buddy, buddy.pages
      ensures Valid() && Adds(H(), old(H()), a)
    {
      hide HeapInv, IsLive, Inv, FreeRep, LiveRep, MergeUp;
      ghost var h, z, ps := H(), buddy.zone, buddy.pages[..];
      LiveHasOrder(ps, z.live, buddy.tagged, b);
      buddy.BuddyFreePages(page);
      assert Tags(buddy.pages[..]) == Tags(ps);
      GiveBackInv(z, b);
      DropRun(h, buddy.zone, b, a);
    }
  }

  lemma GotBlock(z: Zone, z': Zone, page: nat, order: nat)
    requires Inv(z)
    requires exists b ::
               BestFit(z.free, b, order) && page == Start(b) && BlockAt(page, order) == Leftmost(b, order) &&
               z' == GetFrom(z, b, order)
    ensures BlockAt(page, order) !in z.live && Start(BlockAt(page, order)) == page
    ensures Inv(z') && z'.n == z.n && z'.live == z.live + {BlockAt(page, order)}
  {
    var b :| BestFit(z.free, b, order) && page == Start(b) && BlockAt(page, order) == Leftmost(b, order) &&
        z' == GetFrom(z, b, order);
    GetInv(z, b, order);
    LeftmostFacts(b, order);
  }

  lemma GotInBounds(z: Zone, b: Block)
    requires Inv(z) && b in z.live && b.order == SLAB_BLOCK_ORDER
    ensures Start(b) + 512 <= z.n && Start(b) == 512 * b.num
  {
    InBounds(z, b);
    ShlMul(b.num, SLAB_BLOCK_ORDER);
    assert Pow2(5) == 32;
    assert Pow2(9) == 16 * Pow2(5);
  }

  lemma BaseOfBlock(start: nat, addr: nat, b: Block)
    requires b.order == SLAB_BLOCK_ORDER && addr == BlockAddr(start, b)
    ensures IsBase(start, addr) && SlabBlock(start, addr) == b
  {
    ShlMul(b.num, SLAB_BLOCK_ORDER);
    assert Pow2(5) == 32;
    assert Pow2(9) == 16 * Pow2(5);
    assert addr - start == SLAB_INIT_SIZE * b.num;
  }

  /** The least order from lo on whose power of two, counted in units, is enough. */
  predicate LeastOrder(size: nat, unit: nat, lo: nat, order: nat) {
    lo <= order && size <= unit * Pow2(order) && forall o: nat :: lo <= o < order ==> unit * Pow2(o) < size
  }

  lemma LeastFrom(size: nat, unit: nat, order: nat)
    requires size <= unit * Pow2(order) && (order > 0 ==> unit * Pow2(order - 1) < size)
    ensures LeastOrder(size, unit, 0, order)
  {
    forall o: nat | o < order
      ensures unit * Pow2(o) < size
    {
      Pow2Monotone(o, order - 1);
      assert unit * Pow2(o) <= unit * Pow2(order - 1);
    }
  }

  lemma LargestObject()
    ensures Pow2(SLAB_MAX_ORDER) == 2048
  {
    assert Pow2(5) == 32;
    assert Pow2(11) == 64 * Pow2(5);
  }

  /** The object order that alloc_in_slab uses. */
  lemma SlabOrder(size: nat, k: nat)
    requires size <= Pow2(SLAB_MAX_ORDER) && size <= Pow2(k) && (k > 0 ==> Pow2(k - 1) < size)
    ensures var order := if k < SLAB_MIN_ORDER then SLAB_MIN_ORDER else k;
            order <= SLAB_MAX_ORDER && LeastOrder(size, 1, SLAB_MIN_ORDER, order) && size <= Pow2(order)
  {
    if k > SLAB_MAX_ORDER {
      Pow2Monotone(SLAB_MAX_ORDER, k - 1);
      assert false;
    }
    LeastFrom(size, 1, k);
    if k < SLAB_MIN_ORDER {
      Pow2Monotone(k, SLAB_MIN_ORDER);
    }
  }

  /** The order of the page run that kmalloc asks for is too large exactly if no order is enough. */
  lemma PageOrder(size: nat, k: nat)
    requires size <= PAGE_SIZE * Pow2(k) && (k > 0 ==> PAGE_SIZE * Pow2(k - 1) < size)
    ensures LeastOrder(size, PAGE_SIZE, 0, k)
    ensures k >= MAX_ORDER <==> forall o: nat :: o < MAX_ORDER ==> PAGE_SIZE * Pow2(o) < size
  {
    LeastFrom(size, PAGE_SIZE, k);
  }

  lemma {:induction false} Pow2Monotone(j: nat, k: nat)
    requires j <= k
    ensures Pow2(j) <= Pow2(k)
  {
    if j < k { Pow2Monotone(j, k - 1); }
  }
}
