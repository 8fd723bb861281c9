/**
  The buddy allocator as it runs: page metadata, one free list per order, and the loops that split and
  merge blocks. Every method is proved against the block sets of BuddyTheory.
 */
module BuddyAllocator {
  import opened Bits
  import opened BuddyTheory
  import opened Common

  /** struct page: the two flags, the order and the slab base address (0 for none). */
  datatype Page = Page(head: bool, buddy: bool, order: nat, slab: nat)

  const ZERO_PAGE := Page(false, false, 0, 0)

  function BlockAt(page: nat, order: nat): Block {
    Block(Shr(page, order), order)
  }

  // ---- Metadata and lists agree with the block sets ---------------------------------------------

  ghost predicate Listed(lists: seq<seq<nat>>, k: nat, p: nat) {
    k < |lists| && p in lists[k]
  }

  /** A page carries the buddy flag and an order exactly when that block is free and on the list of its order. */
  ghost predicate FreeRep(ps: seq<Page>, lists: seq<seq<nat>>, nrFree: seq<nat>, free: set<Block>) {
    && |lists| == |nrFree| == MAX_ORDER
    && (forall k :: 0 <= k < MAX_ORDER ==> nrFree[k] == |lists[k]| && NoDuplicates(lists[k]))
    && (forall k: nat, p: nat :: Listed(lists, k, p) ==> p < |ps| && ps[p].buddy && ps[p].order == k)
    && (forall p: nat :: p < |ps| && ps[p].buddy ==>
          Listed(lists, ps[p].order, p)
          && BlockAt(p, ps[p].order) in free && Start(BlockAt(p, ps[p].order)) == p)
    && (forall b :: b in free ==> Start(b) < |ps| && ps[Start(b)].buddy && ps[Start(b)].order == b.order)
  }

  /** Live blocks carry their order, and, once tagged, the head flag marks exactly their first pages. */
  ghost predicate LiveRep(ps: seq<Page>, live: set<Block>, tagged: bool) {
    && (forall b :: b in live ==> Start(b) < |ps| && ps[Start(b)].order == b.order)
    && (tagged ==> forall b :: b in live ==> ps[Start(b)].head)
    && (forall p :: 0 <= p < |ps| && ps[p].head ==>
          BlockAt(p, ps[p].order) in live && Start(BlockAt(p, ps[p].order)) == p)
  }

  lemma StartContained(b: Block)
    ensures Contains(b, Start(b)) && BlockAt(Start(b), b.order) == b
  {
    ShrShl(b.num, b.order);
  }

  lemma StartsDiffer(s: set<Block>, b: Block, c: Block)
    requires Disjoint(s) && b in s && c in s && b != c
    ensures Start(b) != Start(c)
  {
    StartContained(b);
    StartContained(c);
    if Start(b) == Start(c) {
      if b.order <= c.order {
        SharedPageNested(b, c, Start(b));
      } else {
        SharedPageNested(c, b, Start(b));
      }
    }
  }

  /** list_del, nr_free-- and clear_page_order_buddy take exactly b out of the free blocks. */
  lemma RemoveFree(ps: seq<Page>, lists: seq<seq<nat>>, nrFree: seq<nat>, free: set<Block>, b: Block)
    requires FreeRep(ps, lists, nrFree, free) && b in free
    ensures b.order <= TOP && nrFree[b.order] > 0
    ensures FreeRep(ps[Start(b) := ps[Start(b)].(buddy := false, order := 0)],
                    lists[b.order := Without<nat>(lists[b.order], Start(b))],
                    nrFree[b.order := nrFree[b.order] - 1], free - {b})
  {
    var p, k := Start(b), b.order;
    assert p in lists[k];
    WithoutFacts(lists[k], p);
    StartContained(b);
    var ps' := ps[p := ps[p].(buddy := false, order := 0)];
    var lists' := lists[k := Without<nat>(lists[k], p)];
    var nrFree' := nrFree[k := nrFree[k] - 1];
    var free' := free - {b};
    forall c | c in free'
      ensures Start(c) < |ps'| && ps'[Start(c)].buddy && ps'[Start(c)].order == c.order
    {
      StartContained(c);
    }
    forall j: nat, q: nat | Listed(lists', j, q)
      ensures q < |ps'| && ps'[q].buddy && ps'[q].order == j
    {
      assert Listed(lists, j, q);
    }
  }

  /** list_add, nr_free++ and set_page_order_buddy put exactly b into the free blocks. */
  lemma AddFree(ps: seq<Page>, lists: seq<seq<nat>>, nrFree: seq<nat>, free: set<Block>, b: Block)
    requires FreeRep(ps, lists, nrFree, free)
    requires b.order <= TOP && Start(b) < |ps| && !ps[Start(b)].buddy
    ensures |lists| == |nrFree| == MAX_ORDER
    ensures FreeRep(ps[Start(b) := ps[Start(b)].(buddy := true, order := b.order)],
                    lists[b.order := [Start(b)] + lists[b.order]],
                    nrFree[b.order := nrFree[b.order] + 1], free + {b})
  {
    var p, k := Start(b), b.order;
    StartContained(b);
    assert !Listed(lists, k, p);
    var ps' := ps[p := ps[p].(buddy := true, order := k)];
    var lists' := lists[k := [p] + lists[k]];
    assert forall j: nat, q: nat :: Listed(lists', j, q) <==> Listed(lists, j, q) || (j == k && q == p);
  }

  /** The first page of a block that is not free does not carry the buddy flag. */
  lemma NotFlagged(ps: seq<Page>, lists: seq<seq<nat>>, nrFree: seq<nat>, free: set<Block>, s: set<Block>, b: Block)
    requires FreeRep(ps, lists, nrFree, free) && free <= s && Disjoint(s) && b in s && b !in free
    requires Start(b) < |ps|
    ensures !ps[Start(b)].buddy
  {
    if ps[Start(b)].buddy {
      var c := BlockAt(Start(b), ps[Start(b)].order);
      StartsDiffer(s, b, c);
    }
  }

  /** check_buddy decides whether the block is free. */
  lemma CheckBuddy(ps: seq<Page>, lists: seq<seq<nat>>, nrFree: seq<nat>, free: set<Block>, b: Block)
    requires FreeRep(ps, lists, nrFree, free)
    ensures b in free <==> Start(b) < |ps| && ps[Start(b)].buddy && ps[Start(b)].order == b.order
    ensures |lists| == |nrFree| == MAX_ORDER
  {
    StartContained(b);
  }

  /** Rewriting the first page of a block that is not live, leaving it without head flag, keeps the live blocks. */
  lemma KeepLive(ps: seq<Page>, live: set<Block>, tagged: bool, s: set<Block>, b: Block, x: Page)
    requires LiveRep(ps, live, tagged) && live <= s && Disjoint(s) && b in s && b !in live
    requires Start(b) < |ps| && !x.head
    ensures LiveRep(ps[Start(b) := x], live, tagged)
  {
    var ps' := ps[Start(b) := x];
    forall c | c in live
      ensures Start(c) < |ps'| && ps'[Start(c)] == ps[Start(c)]
    {
      StartsDiffer(s, b, c);
    }
  }

  /** The first page of a block that is not live does not carry the head flag. */
  lemma NotHead(ps: seq<Page>, live: set<Block>, tagged: bool, s: set<Block>, b: Block)
    requires LiveRep(ps, live, tagged) && live <= s && Disjoint(s) && b in s && b !in live
    requires Start(b) < |ps|
    ensures !ps[Start(b)].head
  {
    if ps[Start(b)].head {
      var c := BlockAt(Start(b), ps[Start(b)].order);
      StartsDiffer(s, b, c);
    }
  }

  lemma LiveHasOrder(ps: seq<Page>, live: set<Block>, tagged: bool, b: Block)
    requires LiveRep(ps, live, tagged) && b in live
    ensures Start(b) < |ps| && ps[Start(b)].order == b.order && BlockAt(Start(b), b.order) == b
  {
    StartContained(b);
  }

  /** With nothing live, the head flag marks exactly the live blocks. */
  lemma TagNone(ps: seq<Page>, live: set<Block>)
    requires LiveRep(ps, live, false) && live == {}
    ensures LiveRep(ps, live, true)
  {
  }

  lemma InZone(s: set<Block>, n: nat, b: Block)
    requires Tiles(s, n) && b in s
    ensures b.order <= TOP && Start(b) < n && Disjoint(s)
  {
  }

  /** In the middle of a split or a merge: the pages are tiled by the free blocks, the live blocks and c. */
  ghost predicate Mid(ps: seq<Page>, lists: seq<seq<nat>>, nrFree: seq<nat>, free: set<Block>, live: set<Block>,
                      c: Block, tagged: bool) {
    && FreeRep(ps, lists, nrFree, free) && LiveRep(ps, live, tagged)
    && c !in free + live && free !! live
    && Tiles(free + live + {c}, |ps|)
  }

  lemma MidFacts(ps: seq<Page>, lists: seq<seq<nat>>, nrFree: seq<nat>, free: set<Block>, live: set<Block>, c: Block,
                 tagged: bool)
    requires Mid(ps, lists, nrFree, free, live, c, tagged)
    ensures c.order <= TOP && Start(c) < |ps| && |lists| == |nrFree| == MAX_ORDER
    ensures !ps[Start(c)].buddy && !ps[Start(c)].head
    ensures Start(BuddyOf(c)) == Xor(Start(c), Pow2(c.order))
    ensures BuddyOf(c) in free <==>
              Start(BuddyOf(c)) < |ps| && ps[Start(BuddyOf(c))].buddy && ps[Start(BuddyOf(c))].order == c.order
  {
    var s := free + live + {c};
    InZone(s, |ps|, c);
    NotFlagged(ps, lists, nrFree, free, s, c);
    NotHead(ps, live, tagged, s, c);
    XorBit(c.num, c.order);
    CheckBuddy(ps, lists, nrFree, free, BuddyOf(c));
  }

  /** One round of the merge loop. */
  lemma MergeStep(ps: seq<Page>, lists: seq<seq<nat>>, nrFree: seq<nat>, free: set<Block>, live: set<Block>, c: Block,
                  tagged: bool)
    requires Mid(ps, lists, nrFree, free, live, c, tagged)
    requires c.order < TOP && BuddyOf(c) in free
    ensures Start(BuddyOf(c)) < |ps| && |lists| == |nrFree| == MAX_ORDER && nrFree[c.order] > 0
    ensures Start(ParentOf(c)) == AndNot(Start(c), Pow2(c.order))
    ensures Mid(ps[Start(BuddyOf(c)) := ps[Start(BuddyOf(c))].(buddy := false, order := 0)],
                lists[c.order := Without<nat>(lists[c.order], Start(BuddyOf(c)))],
                nrFree[c.order := nrFree[c.order] - 1], free - {BuddyOf(c)}, live, ParentOf(c), tagged)
  {
    var t, d := free + live + {c}, BuddyOf(c);
    InZone(t, |ps|, d);
    RemoveFree(ps, lists, nrFree, free, d);
    NotHead(ps, live, tagged, t, d);
    KeepLive(ps, live, tagged, t, d, ps[Start(d)].(buddy := false, order := 0));
    JoinTiles(t, c, |ps|);
    JoinDisjoint(t, c);
    assert t - {c, d} + {ParentOf(c)} == (free - {d}) + live + {ParentOf(c)};
    AndNotBit(c.num, c.order);
  }

  /** The end of the merge loop: the merged block becomes free. */
  lemma MergeStop(ps: seq<Page>, lists: seq<seq<nat>>, nrFree: seq<nat>, free: set<Block>, live: set<Block>, c: Block,
                  tagged: bool)
    requires Mid(ps, lists, nrFree, free, live, c, tagged)
    ensures Start(c) < |ps| && c.order < |lists| == |nrFree|
    ensures var ps' := ps[Start(c) := ps[Start(c)].(buddy := true, order := c.order)];
            && FreeRep(ps', lists[c.order := [Start(c)] + lists[c.order]], nrFree[c.order := nrFree[c.order] + 1],
                       free + {c})
            && LiveRep(ps', live, tagged)
  {
    MidFacts(ps, lists, nrFree, free, live, c, tagged);
    AddFree(ps, lists, nrFree, free, c);
    KeepLive(ps, live, tagged, free + live + {c}, c, ps[Start(c)].(buddy := true, order := c.order));
  }

  /** One round of the split loop: the right half becomes free. */
  lemma SplitStep(ps: seq<Page>, lists: seq<seq<nat>>, nrFree: seq<nat>, free: set<Block>, live: set<Block>, c: Block,
                  tagged: bool)
    requires Mid(ps, lists, nrFree, free, live, c, tagged) && c.order > 0
    ensures Start(LeftOf(c)) == Start(c) && Start(RightOf(c)) == Start(c) + Pow2(c.order - 1) < |ps|
    ensures c.order <= TOP && |lists| == |nrFree| == MAX_ORDER
    ensures var r := RightOf(c);
            Mid(ps[Start(r) := ps[Start(r)].(buddy := true, order := r.order)],
                lists[r.order := [Start(r)] + lists[r.order]],
                nrFree[r.order := nrFree[r.order] + 1], free + {r}, live, LeftOf(c), tagged)
  {
    var l, r := LeftOf(c), RightOf(c);
    var s := free + live + {c};
    HalvesFit(c);
    InZone(s, |ps|, c);
    HalveTiles(s, c, |ps|);
    HalveDisjoint(s, c);
    var s' := s - {c} + {l, r};
    assert s' == (free + {r}) + live + {l};
    InZone(s', |ps|, r);
    NotFlagged(ps, lists, nrFree, free, s', r);
    NotHead(ps, live, tagged, s', r);
    AddFree(ps, lists, nrFree, free, r);
    KeepLive(ps, live, tagged, s', r, ps[Start(r)].(buddy := true, order := r.order));
  }

  // ---- The allocator -----------------------------------------------------------------------------

  class Buddy {
    const pageNum: nat
    const pages: array<Page>
    var lists: seq<seq<nat>>
    var nrFree: seq<nat>
    ghost var zone: Zone
    /** False only while init_buddy hands over pages that never got a head flag. */
    ghost var tagged: bool

    ghost predicate Valid()
      reads this, pages
    {
      && pages.Length == pageNum == zone.n
      && Inv(zone)
      && FreeRep(pages[..], lists, nrFree, zone.free)
      && LiveRep(pages[..], zone.live, tagged)
    }

    ghost predicate SlabsKept(ps: seq<Page>)
      reads this, pages
    {
      |ps| == pages.Length && forall p :: 0 <= p < |ps| ==> pages[p].slab == ps[p].slab
    }

    /** init_buddy: empty lists and zeroed metadata, then every page is given to the allocator. */
    constructor (pageNum: nat)
      ensures Valid() && tagged && fresh(pages)
      ensures this.pageNum == pageNum && zone.n == pageNum && zone.live == {}
      ensures forall p :: 0 <= p < pageNum ==> pages[p].slab == 0
    {
      this.pageNum := pageNum;
      pages := new Page[pageNum](_ => ZERO_PAGE);
      lists := seq(MAX_ORDER, _ => []);
      nrFree := seq(MAX_ORDER, _ => 0);
      zone := Unfreed(pageNum);
      tagged := false;
      new;
      UnfreedInv(pageNum);
      assert LiveRep(pages[..], zone.live, false);
      assert FreeRep(pages[..], lists, nrFree, zone.free);
      ghost var ps := pages[..];
      GiveAll();
      assert SlabsKept(ps);
    }

    /** The loop of init_buddy, which merges the pages as it frees them. */
    method GiveAll()
      requires Valid() && !tagged && zone.live == PagesFrom(pageNum, 0)
      modifies this, pages
      ensures Valid() && tagged && zone.n == pageNum && zone.live == {}
      ensures SlabsKept(old(pages[..]))
    {
      hide Inv, FreeRep, LiveRep, MergeUp;
      for i := 0 to pageNum
        invariant Valid() && !tagged && zone.live == PagesFrom(pageNum, i)
        invariant SlabsKept(old(pages[..]))
      {
        PagesFromStep(pageNum, i);
        LiveHasOrder(pages[..], zone.live, false, Block(i, 0));
        BuddyFreePages(i);
      }
      TagNone(pages[..], zone.live);
      tagged := true;
    }

    method SetPage(i: nat, page: Page)
      requires i < pages.Length
      modifies pages
      ensures pages[..] == old(pages[..])[i := page]
    {
      pages[i] := page;
    }

    /**
      buddy_get_pages for a supported order: None exactly when no aligned run of 2^order pages is
      wholly free; otherwise the first part of a free block of the least sufficient order.
     */
    method BuddyGetPages(order: nat) returns (r: Option<nat>)
      requires Valid() && tagged && order < MAX_ORDER
      modifies this, pages
      ensures Valid() && tagged
      ensures SlabsKept(old(pages[..]))
      ensures r.None? <==> !exists num: nat :: WhollyFree(old(zone), Block(num, order))
      ensures r.None? ==> zone == old(zone)
      ensures r.Some? ==> exists b ::
                            && BestFit(old(zone).free, b, order) && r.value == Start(b)
                            && BlockAt(r.value, order) == Leftmost(b, order)
                            && zone == GetFrom(old(zone), b, order)
    {
      NoneIffNoRun(zone, order);
      var cur := order;
      while cur < MAX_ORDER
        invariant order <= cur <= MAX_ORDER
        invariant Valid() && tagged && zone == old(zone) && pages[..] == old(pages[..])
        invariant forall b :: b in zone.free && order <= b.order ==> cur <= b.order
      {
        if |lists[cur]| == 0 {
          forall b | b in zone.free && order <= b.order
            ensures cur < b.order
          {
            assert pages[..][Start(b)].buddy;
          }
          cur := cur + 1;
          continue;
        }
        var page := lists[cur][0];
        ghost var b := BlockAt(page, cur);
        assert Listed(lists, cur, page) && pages[..][page].buddy;
        assert b in zone.free && Start(b) == page;
        TakeFrom(page, order, cur, b);
        return Some(page);
      }
      forall b | b in zone.free && order <= b.order
        ensures false
      {
        InZone(zone.free + zone.live, zone.n, b);
      }
      return None;
    }

    /** The body of __alloc_page once a list with a block has been found. */
    method TakeFrom(page: nat, order: nat, cur: nat, ghost b: Block)
      requires Valid() && tagged && order <= cur < MAX_ORDER
      requires |lists[cur]| > 0 && lists[cur][0] == page
      requires b == BlockAt(page, cur) && b in zone.free && Start(b) == page
      modifies this, pages
      ensures Valid() && tagged
      ensures SlabsKept(old(pages[..]))
      ensures zone == GetFrom(old(zone), b, order)
      ensures BlockAt(page, order) == Leftmost(b, order)
    {
      hide FreeRep, LiveRep, Inv, Start, Mid;
      ghost var z := zone;
      ghost var rest := z.free - {b};
      ghost var l := Leftmost(b, order);
      ghost var ps := pages[..];
      Take(ps, lists, nrFree, z, b, tagged);
      lists := lists[cur := lists[cur][1..]];
      nrFree := nrFree[cur := nrFree[cur] - 1];
      SetPage(page, pages[page].(buddy := false, order := 0));
      Split(page, order, cur, rest, z.live, b);
      LeftmostFacts(b, order);
      GetInv(z, b, order);
      ps := pages[..];
      FinishTake(ps, lists, nrFree, SplitDown(rest, b, order), z.live, l);
      SetPage(page, pages[page].(order := order, head := true));
      zone := GetFrom(z, b, order);
    }

    /** split: halve the block, giving each right half to the list of its order. */
    method Split(page: nat, lowOrder: nat, highOrder: nat, ghost free: set<Block>, ghost live: set<Block>,
                 ghost b: Block)
      requires lowOrder <= highOrder && b.order == highOrder && Start(b) == page
      requires pages.Length == pageNum && Mid(pages[..], lists, nrFree, free, live, b, tagged)
      modifies this`lists, this`nrFree, pages
      ensures Mid(pages[..], lists, nrFree, SplitDown(free, b, lowOrder), live, Leftmost(b, lowOrder), tagged)
      ensures SlabsKept(old(pages[..]))
    {
      hide Mid, Start;
      var high := highOrder;
      var size := Pow2(high);
      ghost var f, c := free, b;
      while high > lowOrder
        invariant lowOrder <= high <= highOrder && size == Pow2(high)
        invariant c.order == high && Start(c) == page
        invariant Mid(pages[..], lists, nrFree, f, live, c, tagged)
        invariant SplitDown(f, c, lowOrder) == SplitDown(free, b, lowOrder)
        invariant Leftmost(c, lowOrder) == Leftmost(b, lowOrder)
        invariant SlabsKept(old(pages[..]))
      {
        ghost var ps := pages[..];
        SplitStep(ps, lists, nrFree, f, live, c, tagged);
        high := high - 1;
        size := size / 2;
        lists := lists[high := [page + size] + lists[high]];
        nrFree := nrFree[high := nrFree[high] + 1];
        SetPage(page + size, pages[page + size].(buddy := true, order := high));
        f, c := f + {RightOf(c)}, LeftOf(c);
      }
    }

    /** The merge loop of buddy_free_pages: the block c that is left is merged as far as it can be. */
    method Merge(p: nat, o: nat, ghost free: set<Block>, ghost live: set<Block>, ghost b: Block)
      returns (page: nat, order: nat, ghost f: set<Block>, ghost c: Block)
      requires b.order == o <= TOP && Start(b) == p
      requires pages.Length == pageNum && Mid(pages[..], lists, nrFree, free, live, b, tagged)
      modifies this`lists, this`nrFree, pages
      ensures c.order == order <= TOP && Start(c) == page
      ensures Mid(pages[..], lists, nrFree, f, live, c, tagged)
      ensures f + {c} == MergeUp(free, b)
      ensures SlabsKept(old(pages[..]))
    {
      hide Mid, Start, MergeUp;
      page, order, f, c := p, o, free, b;
      while order < MAX_ORDER - 1
        invariant c.order == order <= TOP && Start(c) == page
        invariant Mid(pages[..], lists, nrFree, f, live, c, tagged)
        invariant MergeUp(f, c) == MergeUp(free, b)
        invariant SlabsKept(old(pages[..]))
        decreases MAX_ORDER - order
      {
        ghost var ps := pages[..];
        MidFacts(ps, lists, nrFree, f, live, c, tagged);
        MergeUpStep(f, c);
        var buddy := Xor(page, Pow2(order));
        if buddy >= pageNum || !(pages[buddy].buddy && pages[buddy].order == order) {
          return;
        }
        MergeStep(ps, lists, nrFree, f, live, c, tagged);
        lists := lists[order := Without<nat>(lists[order], buddy)];
        nrFree := nrFree[order := nrFree[order] - 1];
        SetPage(buddy, pages[buddy].(buddy := false, order := 0));
        page := AndNot(page, Pow2(order));
        order := order + 1;
        f, c := f - {BuddyOf(c)}, ParentOf(c);
      }
      MergeUpStep(f, c);
    }

    /** buddy_free_pages: give a live block back and merge it with its buddies as far as they are free. */
    method BuddyFreePages(p: nat)
      requires Valid() && p < pageNum
      requires BlockAt(p, pages[p].order) in zone.live && Start(BlockAt(p, pages[p].order)) == p
      modifies this`lists, this`nrFree, this`zone, pages
      ensures Valid()
      ensures SlabsKept(old(pages[..]))
      ensures zone == GiveBack(old(zone), old(BlockAt(p, pages[p].order)))
    {
      hide Mid, FreeRep, LiveRep, Inv, Start, MergeUp;
      ghost var b := BlockAt(p, pages[p].order);
      ghost var z, ps := zone, pages[..];
      Detach(ps, lists, nrFree, z, b, tagged);
      SetPage(p, pages[p].(head := false));
      var page, order, f, c := Merge(p, pages[p].order, z.free, z.live - {b}, b);
      ps := pages[..];
      MergeStop(ps, lists, nrFree, f, z.live - {b}, c, tagged);
      SetPage(page, pages[page].(buddy := true, order := order));
      lists := lists[order := [page] + lists[order]];
      nrFree := nrFree[order := nrFree[order] + 1];
      GiveBackInv(z, b);
      zone := GiveBack(z, b);
    }
  }

  /** Clearing the head flag of a live block leaves it as the block in the middle of a merge. */
  lemma Detach(ps: seq<Page>, lists: seq<seq<nat>>, nrFree: seq<nat>, z: Zone, b: Block, tagged: bool)
    requires Inv(z) && z.n == |ps| && b in z.live
    requires FreeRep(ps, lists, nrFree, z.free) && LiveRep(ps, z.live, tagged)
    ensures b.order <= TOP && Start(b) < |ps|
    ensures Mid(ps[Start(b) := ps[Start(b)].(head := false)], lists, nrFree, z.free, z.live - {b}, b, tagged)
  {
    var s := z.free + z.live;
    InZone(s, z.n, b);
    assert z.free + (z.live - {b}) + {b} == s;
    KeepLiveOfFreed(ps, z.live, tagged, s, b);
    KeepFree(ps, lists, nrFree, z.free, Start(b), false);
  }

  /** Clearing the head flag of a live block takes it out of the live blocks. */
  lemma KeepLiveOfFreed(ps: seq<Page>, live: set<Block>, tagged: bool, s: set<Block>, b: Block)
    requires LiveRep(ps, live, tagged) && live <= s && Disjoint(s) && b in live
    ensures LiveRep(ps[Start(b) := ps[Start(b)].(head := false)], live - {b}, tagged)
  {
    var ps' := ps[Start(b) := ps[Start(b)].(head := false)];
    StartContained(b);
    forall c | c in live - {b}
      ensures ps'[Start(c)] == ps[Start(c)]
    {
      StartsDiffer(s, b, c);
    }
  }

  /** Writing the head flag of a page changes nothing about the free blocks. */
  lemma KeepFree(ps: seq<Page>, lists: seq<seq<nat>>, nrFree: seq<nat>, free: set<Block>, p: nat, head: bool)
    requires FreeRep(ps, lists, nrFree, free) && p < |ps|
    ensures FreeRep(ps[p := ps[p].(head := head)], lists, nrFree, free)
  {
  }

  /** Taking the first block off a list leaves it as the block in the middle of a split. */
  lemma Take(ps: seq<Page>, lists: seq<seq<nat>>, nrFree: seq<nat>, z: Zone, b: Block, tagged: bool)
    requires Inv(z) && z.n == |ps| && b in z.free
    requires FreeRep(ps, lists, nrFree, z.free) && LiveRep(ps, z.live, tagged)
    ensures b.order <= TOP && Start(b) < |ps| && |lists| == |nrFree| == MAX_ORDER && nrFree[b.order] > 0
    ensures lists[b.order] != [] && lists[b.order][0] == Start(b) ==>
              Mid(ps[Start(b) := ps[Start(b)].(buddy := false, order := 0)],
                  lists[b.order := lists[b.order][1..]], nrFree[b.order := nrFree[b.order] - 1],
                  z.free - {b}, z.live, b, tagged)
  {
    var s := z.free + z.live;
    InZone(s, z.n, b);
    assert (z.free - {b}) + z.live + {b} == s;
    RemoveFree(ps, lists, nrFree, z.free, b);
    NotHead(ps, z.live, tagged, s, b);
    KeepLive(ps, z.live, tagged, s, b, ps[Start(b)].(buddy := false, order := 0));
  }

  /** Tagging the first page of the block in the middle makes it live. */
  lemma FinishTake(ps: seq<Page>, lists: seq<seq<nat>>, nrFree: seq<nat>, free: set<Block>, live: set<Block>, l: Block)
    requires Mid(ps, lists, nrFree, free, live, l, true)
    ensures Start(l) < |ps| && Shr(Start(l), l.order) == l.num
    ensures FreeRep(ps[Start(l) := ps[Start(l)].(order := l.order, head := true)], lists, nrFree, free)
    ensures LiveRep(ps[Start(l) := ps[Start(l)].(order := l.order, head := true)], live + {l}, true)
  {
    MidFacts(ps, lists, nrFree, free, live, l, true);
    StartContained(l);
    var s := free + live + {l};
    var ps' := ps[Start(l) := ps[Start(l)].(order := l.order, head := true)];
    forall c | c in live
      ensures ps'[Start(c)] == ps[Start(c)]
    {
      StartsDiffer(s, l, c);
    }
  }
}
