/**
  Blocks of the buddy allocator as values: what one split and one merge do to the set of free blocks,
  and what every sequence of gets and frees keeps.
 */
module BuddyTheory {
  import opened Bits

  /** Orders range over [0, MAX_ORDER). */
  const MAX_ORDER: nat := 14
  const TOP: nat := MAX_ORDER - 1

  /** The run of 2^order pages that starts at page num << order. */
  datatype Block = Block(num: nat, order: nat)

  function Start(b: Block): nat {
    Shl(b.num, b.order)
  }

  predicate Contains(b: Block, page: nat) {
    Shr(page, b.order) == b.num
  }

  function BuddyOf(b: Block): Block {
    Block(Flip(b.num), b.order)
  }

  function ParentOf(b: Block): Block {
    Block(b.num / 2, b.order + 1)
  }

  function LeftOf(b: Block): Block
    requires b.order > 0
  {
    Block(2 * b.num, b.order - 1)
  }

  function RightOf(b: Block): Block
    requires b.order > 0
  {
    Block(2 * b.num + 1, b.order - 1)
  }

  /** b lies inside c, or is c. */
  predicate Nested(b: Block, c: Block) {
    b.order <= c.order && Shr(b.num, c.order - b.order) == c.num
  }

  /** No block of s lies inside another one. */
  ghost predicate Disjoint(s: set<Block>) {
    forall b, c :: b in s && c in s && Nested(b, c) ==> b == c
  }

  ghost predicate Covered(s: set<Block>, page: nat) {
    exists k: nat :: k <= TOP && Block(Shr(page, k), k) in s
  }

  /** The blocks of s are disjoint, have a supported order and make up exactly the pages below n. */
  ghost predicate Tiles(s: set<Block>, n: nat) {
    && (forall b :: b in s ==> b.order <= TOP && Start(b) + Pow2(b.order) <= n)
    && Disjoint(s)
    && (forall page: nat :: page < n ==> Covered(s, page))
  }

  /** No free block below the top order has a free buddy. */
  ghost predicate Merged(free: set<Block>) {
    forall b :: b in free && b.order < TOP ==> BuddyOf(b) !in free
  }

  /** What the allocator hands out and keeps: free and live blocks of the pages below n. */
  datatype Zone = Zone(n: nat, free: set<Block>, live: set<Block>)

  ghost predicate Inv(z: Zone) {
    && z.free !! z.live
    && Tiles(z.free + z.live, z.n)
    && Merged(z.free)
  }

  /** Every page of the aligned run b is free. */
  ghost predicate WhollyFree(z: Zone, b: Block) {
    forall page: nat :: Contains(b, page) ==> Covered(z.free, page)
  }

  // ---- One split and one merge ------------------------------------------------------------

  /** The free blocks after splitting b, which is in no set, down to a first block of the given order. */
  function SplitDown(free: set<Block>, b: Block, order: nat): set<Block>
    decreases b.order
  {
    if b.order <= order then free else SplitDown(free + {RightOf(b)}, LeftOf(b), order)
  }

  /** The leftmost block of the given order inside b. */
  function Leftmost(b: Block, order: nat): Block
    decreases b.order
  {
    if b.order <= order then b else Leftmost(LeftOf(b), order)
  }

  /** The free blocks after giving back b and merging it with its buddies as far as they are free. */
  function MergeUp(free: set<Block>, b: Block): set<Block>
    decreases TOP - b.order
  {
    if b.order < TOP && BuddyOf(b) in free
    then MergeUp(free - {BuddyOf(b)}, ParentOf(b))
    else free + {b}
  }

  lemma MergeUpStep(free: set<Block>, b: Block)
    requires b.order <= TOP
    ensures b.order < TOP && BuddyOf(b) in free ==> MergeUp(free, b) == MergeUp(free - {BuddyOf(b)}, ParentOf(b))
    ensures b.order == TOP || BuddyOf(b) !in free ==> MergeUp(free, b) == free + {b}
  {
  }

  lemma {:induction false} LeftmostFacts(b: Block, order: nat)
    requires order <= b.order
    ensures Leftmost(b, order).order == order
    ensures Start(Leftmost(b, order)) == Start(b)
    ensures Nested(Leftmost(b, order), b)
    decreases b.order
  {
    if order < b.order {
      LeftmostFacts(LeftOf(b), order);
      ShlStep(b.num, b.order - 1);
      NestedTransitive(Leftmost(b, order), LeftOf(b), b);
    }
  }

  lemma NestedTransitive(a: Block, b: Block, c: Block)
    requires Nested(a, b) && Nested(b, c)
    ensures Nested(a, c)
  {
    ShrShr(a.num, b.order - a.order, c.order - b.order);
  }

  /** A block nested in a parent is the parent or nested in one of its halves. */
  lemma NestedInParent(a: Block, p: Block)
    requires p.order > 0 && Nested(a, p) && a != p
    ensures Nested(a, LeftOf(p)) || Nested(a, RightOf(p))
  {
    assert a.order == p.order ==> a.num == p.num;
  }

  /** Blocks that share a page are nested. */
  lemma SharedPageNested(a: Block, b: Block, page: nat)
    requires Contains(a, page) && Contains(b, page) && a.order <= b.order
    ensures Nested(a, b)
  {
    ShrShr(page, a.order, b.order - a.order);
  }

  lemma NestedContains(a: Block, b: Block, page: nat)
    requires Nested(a, b) && Contains(a, page)
    ensures Contains(b, page)
  {
    ShrShr(page, a.order, b.order - a.order);
  }

  /** Replacing two buddies by their parent keeps the blocks disjoint. */
  lemma JoinDisjoint(s: set<Block>, b: Block)
    requires Disjoint(s) && b in s && BuddyOf(b) in s
    ensures ParentOf(b) !in s
    ensures Disjoint(s - {b, BuddyOf(b)} + {ParentOf(b)})
  {
    var p := ParentOf(b);
    ShrOne(b.num);
    var t := s - {b, BuddyOf(b)} + {p};
    forall x, y | x in t && y in t && Nested(x, y)
      ensures x == y
    {
      if x == p && y != p {
        NestedTransitive(b, p, y);
      } else if y == p && x != p {
        NestedInParent(x, p);
      }
    }
  }

  /** Replacing a block by its halves keeps the blocks disjoint. */
  lemma HalveDisjoint(s: set<Block>, b: Block)
    requires Disjoint(s) && b in s && b.order > 0
    ensures LeftOf(b) !in s && RightOf(b) !in s
    ensures Disjoint(s - {b} + {LeftOf(b), RightOf(b)})
  {
    var l, r := LeftOf(b), RightOf(b);
    ShrOne(l.num);
    ShrOne(r.num);
    var t := s - {b} + {l, r};
    forall x, y | x in t && y in t && Nested(x, y)
      ensures x == y
    {
      if y == l || y == r {
        NestedTransitive(x, y, b);
      }
      if (x == l || x == r) && !(y == l || y == r) {
        if x.order < y.order {
          assert Shr(x.num, y.order - x.order) == Shr(b.num, y.order - b.order) by {
            ShrShr(x.num, 1, y.order - b.order);
          }
          assert Nested(b, y);
        }
      }
    }
  }

  /** The halves hold the pages of the whole. */
  lemma HalvesContain(b: Block, page: nat)
    requires b.order > 0
    ensures Contains(b, page) <==> Contains(LeftOf(b), page) || Contains(RightOf(b), page)
  {
  }

  lemma HalvesFit(b: Block)
    requires b.order > 0
    ensures Start(LeftOf(b)) == Start(b)
    ensures Start(RightOf(b)) == Start(b) + Pow2(b.order - 1)
    ensures Pow2(b.order) == 2 * Pow2(b.order - 1)
  {
    ShlStep(b.num, b.order - 1);
    ShlAdd(2 * b.num, 1, b.order - 1);
    ShlOne(b.order - 1);
  }

  lemma ParentHalves(b: Block)
    ensures {LeftOf(ParentOf(b)), RightOf(ParentOf(b))} == {b, BuddyOf(b)}
    ensures Start(ParentOf(b)) <= Start(b)
    ensures Start(ParentOf(b)) + Pow2(b.order + 1) >= Start(b) + Pow2(b.order)
  {
    HalvesFit(ParentOf(b));
    assert b == LeftOf(ParentOf(b)) || b == RightOf(ParentOf(b));
  }

  /** One step of splitting keeps the pages tiled. */
  lemma HalveTiles(s: set<Block>, b: Block, n: nat)
    requires Tiles(s, n) && b in s && b.order > 0
    ensures Tiles(s - {b} + {LeftOf(b), RightOf(b)}, n)
  {
    var t := s - {b} + {LeftOf(b), RightOf(b)};
    HalveDisjoint(s, b);
    HalvesFit(b);
    forall page: nat | page < n
      ensures Covered(t, page)
    {
      assert Covered(s, page);
      var k: nat :| k <= TOP && Block(Shr(page, k), k) in s;
      HalvesContain(b, page);
      if Block(Shr(page, k), k) == b {
        assert Block(Shr(page, k - 1), k - 1) in t;
      } else {
        assert Block(Shr(page, k), k) in t;
      }
    }
  }

  /** One step of merging keeps the pages tiled. */
  lemma JoinTiles(s: set<Block>, b: Block, n: nat)
    requires Tiles(s, n) && b in s && BuddyOf(b) in s && b.order < TOP
    ensures Tiles(s - {b, BuddyOf(b)} + {ParentOf(b)}, n)
  {
    var p := ParentOf(b);
    var t := s - {b, BuddyOf(b)} + {p};
    JoinDisjoint(s, b);
    ParentHalves(b);
    HalvesFit(p);
    forall page: nat | page < n
      ensures Covered(t, page)
    {
      assert Covered(s, page);
      var k: nat :| k <= TOP && Block(Shr(page, k), k) in s;
      var c := Block(Shr(page, k), k);
      if c == b || c == BuddyOf(b) {
        assert Block(Shr(page, k + 1), k + 1) == p;
      } else {
        assert c in t;
      }
    }
  }

  // ---- Splitting down -----------------------------------------------------------------------

  /** Splitting a free block down leaves a tiled zone without free buddies. */
  lemma {:induction false} SplitInv(n: nat, free: set<Block>, live: set<Block>, b: Block, order: nat)
    requires free !! live && b !in free + live && order <= b.order
    requires Tiles(free + live + {b}, n) && Merged(free)
    ensures Inv(Zone(n, SplitDown(free, b, order), live + {Leftmost(b, order)}))
    ensures Leftmost(b, order) !in live
    decreases b.order
  {
    if b.order <= order {
      assert free + (live + {b}) == free + live + {b};
    } else {
      var l, r := LeftOf(b), RightOf(b);
      var s := free + live + {b};
      HalveTiles(s, b, n);
      HalveDisjoint(s, b);
      assert s - {b} + {l, r} == (free + {r}) + live + {l};
      assert BuddyOf(r) == l && BuddyOf(l) == r;
      forall x | x in free + {r} && x.order < TOP
        ensures BuddyOf(x) !in free + {r}
      {
        assert BuddyOf(BuddyOf(x)) == x;
      }
      SplitInv(n, free + {r}, live, l, order);
    }
  }

  lemma {:induction false} SplitPages(free: set<Block>, b: Block, order: nat, page: nat)
    requires order <= b.order <= TOP
    ensures Covered(SplitDown(free, b, order), page) || Contains(Leftmost(b, order), page)
            <==> Covered(free, page) || Contains(b, page)
    decreases b.order
  {
    if b.order > order {
      SplitPages(free + {RightOf(b)}, LeftOf(b), order, page);
      HalvesContain(b, page);
      CoveredAdd(free, RightOf(b), page);
    }
  }

  lemma CoveredAdd(s: set<Block>, b: Block, page: nat)
    requires b.order <= TOP
    ensures Covered(s + {b}, page) <==> Covered(s, page) || Contains(b, page)
  {
    if Covered(s, page) {
      var k: nat :| k <= TOP && Block(Shr(page, k), k) in s;
      assert Block(Shr(page, k), k) in s + {b};
    }
    if Contains(b, page) {
      assert Block(Shr(page, b.order), b.order) in s + {b};
    }
  }

  // ---- Merging up ---------------------------------------------------------------------------

  lemma {:induction false} MergeInv(n: nat, free: set<Block>, live: set<Block>, b: Block)
    requires free !! live && b !in free + live && b.order <= TOP
    requires Tiles(free + live + {b}, n) && Merged(free)
    ensures Inv(Zone(n, MergeUp(free, b), live))
    decreases TOP - b.order
  {
    var s := free + live + {b};
    if b.order < TOP && BuddyOf(b) in free {
      var p := ParentOf(b);
      JoinTiles(s, b, n);
      JoinDisjoint(s, b);
      assert s - {b, BuddyOf(b)} + {p} == (free - {BuddyOf(b)}) + live + {p};
      MergeInv(n, free - {BuddyOf(b)}, live, p);
    } else {
      assert (free + {b}) + live == s;
      forall x | x in free + {b} && x.order < TOP
        ensures BuddyOf(x) !in free + {b}
      {
        assert BuddyOf(BuddyOf(x)) == x;
      }
    }
  }

  lemma {:induction false} MergePages(free: set<Block>, b: Block, page: nat)
    requires b.order <= TOP
    ensures Covered(MergeUp(free, b), page) <==> Covered(free, page) || Contains(b, page)
    decreases TOP - b.order
  {
    if b.order < TOP && BuddyOf(b) in free {
      var rest := free - {BuddyOf(b)};
      MergePages(rest, ParentOf(b), page);
      ParentHalves(b);
      HalvesContain(ParentOf(b), page);
      assert rest + {BuddyOf(b)} == free;
      CoveredAdd(rest, BuddyOf(b), page);
    } else {
      CoveredAdd(free, b, page);
    }
  }

  // ---- Free blocks are exactly the maximal free runs ------------------------------------------

  /** An aligned run whose pages are all free lies inside one free block: merging hides nothing. */
  lemma {:induction false} RunInsideFreeBlock(z: Zone, b: Block) returns (c: Block)
    requires Inv(z) && b.order <= TOP && WhollyFree(z, b)
    ensures c in z.free && Nested(b, c)
    decreases b.order
  {
    if b.order == 0 {
      assert Contains(b, b.num);
      var k: nat :| k <= TOP && Block(Shr(b.num, k), k) in z.free;
      c := Block(Shr(b.num, k), k);
    } else {
      var l, r := LeftOf(b), RightOf(b);
      forall page: nat | Contains(l, page) || Contains(r, page)
        ensures Covered(z.free, page)
      {
        HalvesContain(b, page);
        assert Contains(b, page);
      }
      var cl := RunInsideFreeBlock(z, l);
      var cr := RunInsideFreeBlock(z, r);
      hide Nested;
      c := WholeInside(z, b, cl, cr);
    }
  }

  /** If both halves lie inside free blocks, so does the whole: otherwise they would be a free pair of buddies. */
  lemma WholeInside(z: Zone, b: Block, cl: Block, cr: Block) returns (c: Block)
    requires Inv(z) && 0 < b.order <= TOP && cl in z.free && cr in z.free
    requires Nested(LeftOf(b), cl) && Nested(RightOf(b), cr)
    ensures c in z.free && Nested(b, c)
  {
    hide Nested, Covered, WhollyFree;
    var l, r := LeftOf(b), RightOf(b);
    assert BuddyOf(l) == r;
    if cl == l {
      assert cr != r;
      c := cr;
      LiftNested(r, b, cr);
    } else {
      c := cl;
      LiftNested(l, b, cl);
    }
  }

  /** A block around one half, other than the half itself, is around the whole. */
  lemma LiftNested(half: Block, b: Block, c: Block)
    requires b.order > 0 && (half == LeftOf(b) || half == RightOf(b))
    requires Nested(half, c) && half != c
    ensures Nested(b, c)
  {
    assert half.order == c.order ==> half.num == c.num;
    ShrShr(half.num, 1, c.order - b.order);
    ShrOne(half.num);
  }

  lemma FreeDisjoint(z: Zone)
    requires Inv(z)
    ensures Disjoint(z.free)
  {
    forall b, c | b in z.free && c in z.free && Nested(b, c)
      ensures b == c
    {
      assert b in z.free + z.live && c in z.free + z.live;
    }
  }

  /** A free block is an aligned run of free pages that cannot be extended to its parent run, and conversely. */
  lemma FreeIffMaximal(z: Zone, b: Block)
    requires Inv(z) && b.order <= TOP
    ensures b in z.free <==> WhollyFree(z, b) && (b.order == TOP || !WhollyFree(z, ParentOf(b)))
  {
    FreeDisjoint(z);
    if b in z.free {
      forall page: nat | Contains(b, page)
        ensures Covered(z.free, page)
      {
        assert Block(Shr(page, b.order), b.order) in z.free;
      }
      if b.order < TOP && WhollyFree(z, ParentOf(b)) {
        var c := RunInsideFreeBlock(z, ParentOf(b));
        ShrOne(b.num);
        NestedTransitive(b, ParentOf(b), c);
      }
    }
    if WhollyFree(z, b) && (b.order == TOP || !WhollyFree(z, ParentOf(b))) {
      var c := RunInsideFreeBlock(z, b);
      if c != b {
        assert b.order == c.order ==> b.num == c.num;
        ShrShr(b.num, 1, c.order - b.order - 1);
        ShrOne(b.num);
        forall page: nat | Contains(ParentOf(b), page)
          ensures Covered(z.free, page)
        {
          NestedContains(ParentOf(b), c, page);
          assert Block(Shr(page, c.order), c.order) in z.free;
        }
      }
    }
  }

  /** A page below n is free exactly when no live block holds it. */
  lemma FreePageIffNotLive(z: Zone, page: nat)
    requires Inv(z)
    ensures Covered(z.free, page) <==> page < z.n && !Covered(z.live, page)
  {
    if Covered(z.free, page) {
      var k: nat :| k <= TOP && Block(Shr(page, k), k) in z.free;
      var b := Block(Shr(page, k), k);
      assert b in z.free + z.live;
      ShrInterval(page, b.num, b.order);
      if Covered(z.live, page) {
        var j: nat :| j <= TOP && Block(Shr(page, j), j) in z.live;
        var c := Block(Shr(page, j), j);
        assert c in z.free + z.live;
        if j <= k { SharedPageNested(c, b, page); } else { SharedPageNested(b, c, page); }
      }
    } else if page < z.n {
      assert Covered(z.free + z.live, page);
      var k: nat :| k <= TOP && Block(Shr(page, k), k) in z.free + z.live;
      assert Block(Shr(page, k), k) in z.live;
    }
  }

  ghost function PagesOf(s: set<Block>, n: nat): set<nat> {
    set page: nat | page < n && Covered(s, page)
  }

  function AllPages(n: nat): (r: set<nat>)
    ensures |r| == n && forall page: nat :: page in r <==> page < n
  {
    if n == 0 then {} else AllPages(n - 1) + {n - 1}
  }

  /** No page is lost or counted twice: the pages of free blocks and those of live blocks add up to all pages. */
  lemma PagesConserved(z: Zone)
    requires Inv(z)
    ensures |PagesOf(z.free, z.n)| + |PagesOf(z.live, z.n)| == z.n
  {
    forall page: nat | page < z.n
      ensures Covered(z.free, page) <==> !Covered(z.live, page)
    {
      FreePageIffNotLive(z, page);
    }
    hide Covered;
    assert PagesOf(z.free, z.n) + PagesOf(z.live, z.n) == AllPages(z.n);
    assert PagesOf(z.free, z.n) !! PagesOf(z.live, z.n);
  }

  /** The blocks of s and of s' hold the same pages. */
  ghost predicate SamePages(s: set<Block>, s': set<Block>) {
    forall page: nat :: Covered(s, page) <==> Covered(s', page)
  }

  lemma LivePagesDetermineFree(z: Zone, z': Zone)
    requires Inv(z) && Inv(z') && z.n == z'.n && SamePages(z.live, z'.live)
    ensures SamePages(z.free, z'.free)
  {
    forall page: nat
      ensures Covered(z.free, page) <==> Covered(z'.free, page)
    {
      FreePageIffNotLive(z, page);
      FreePageIffNotLive(z', page);
    }
  }

  /** History independence: which pages are free determines which blocks are free. */
  lemma FreeBlocksDetermined(z: Zone, z': Zone)
    requires Inv(z) && Inv(z') && SamePages(z.free, z'.free)
    ensures z.free == z'.free
  {
    forall b
      ensures b in z.free <==> b in z'.free
    {
      if b in z.free || b in z'.free {
        assert b in z.free + z.live || b in z'.free + z'.live;
        FreeIffMaximal(z, b);
        FreeIffMaximal(z', b);
      }
    }
  }

  // ---- Runs of the allocator -----------------------------------------------------------------

  /** The single pages from first on. */
  function PagesFrom(n: nat, first: nat): set<Block> {
    set page: nat | first <= page < n :: Block(page, 0)
  }

  lemma PagesFromStep(n: nat, first: nat)
    requires first < n
    ensures Block(first, 0) in PagesFrom(n, first) && PagesFrom(n, first) - {Block(first, 0)} == PagesFrom(n, first + 1)
  {
  }

  /** All of the n pages live, one by one, as just before they are given to the allocator. */
  function Unfreed(n: nat): Zone {
    Zone(n, {}, PagesFrom(n, 0))
  }

  lemma UnfreedInv(n: nat)
    ensures Inv(Unfreed(n))
  {
    var z := Unfreed(n);
    forall page: nat | page < n
      ensures Covered(z.free + z.live, page)
    {
      assert Block(Shr(page, 0), 0) in z.free + z.live;
    }
  }

  /** A free block of the least order that is at least the wanted one. */
  ghost predicate BestFit(free: set<Block>, b: Block, order: nat) {
    && b in free && order <= b.order
    && (forall c :: c in free && order <= c.order ==> b.order <= c.order)
  }

  function GetFrom(z: Zone, b: Block, order: nat): Zone {
    Zone(z.n, SplitDown(z.free - {b}, b, order), z.live + {Leftmost(b, order)})
  }

  function GiveBack(z: Zone, b: Block): Zone {
    Zone(z.n, MergeUp(z.free, b), z.live - {b})
  }

  /** One get that finds a block, or one free of a live block. */
  ghost predicate Step(z: Zone, z': Zone) {
    || (exists b, order: nat :: order <= TOP && BestFit(z.free, b, order) && z' == GetFrom(z, b, order))
    || (exists b :: b in z.live && z' == GiveBack(z, b))
  }

  ghost predicate Run(zs: seq<Zone>) {
    forall i {:trigger zs[i]} :: 0 < i < |zs| ==> Step(zs[i - 1], zs[i])
  }

  lemma GetInv(z: Zone, b: Block, order: nat)
    requires Inv(z) && b in z.free && order <= b.order
    ensures Inv(GetFrom(z, b, order))
    ensures Leftmost(b, order) !in z.live
  {
    var rest := z.free - {b};
    assert rest + z.live + {b} == z.free + z.live;
    SplitInv(z.n, rest, z.live, b, order);
  }

  lemma GiveBackInv(z: Zone, b: Block)
    requires Inv(z) && b in z.live
    ensures Inv(GiveBack(z, b))
  {
    assert z.free + (z.live - {b}) + {b} == z.free + z.live;
    assert b in z.free + z.live;
    MergeInv(z.n, z.free, z.live - {b}, b);
  }

  lemma StepInv(z: Zone, z': Zone)
    requires Inv(z) && Step(z, z')
    ensures Inv(z') && z'.n == z.n
  {
    if b, order: nat :| order <= TOP && BestFit(z.free, b, order) && z' == GetFrom(z, b, order) {
      GetInv(z, b, order);
    } else {
      var b :| b in z.live && z' == GiveBack(z, b);
      GiveBackInv(z, b);
    }
  }

  /** Every state of every run keeps the partition and has no free buddies left unmerged. */
  lemma {:induction false} RunInv(zs: seq<Zone>, i: nat)
    requires Run(zs) && i < |zs| && Inv(zs[0])
    ensures Inv(zs[i]) && zs[i].n == zs[0].n
  {
    if i > 0 {
      RunInv(zs, i - 1);
      StepInv(zs[i - 1], zs[i]);
    }
  }

  /** Two runs over the same pages that end with the same live blocks end with the same free blocks. */
  lemma RunsAgree(zs: seq<Zone>, zs': seq<Zone>)
    requires zs != [] && zs' != [] && Run(zs) && Run(zs')
    requires zs[0] == zs'[0] && Inv(zs[0])
    requires SamePages(zs[|zs| - 1].live, zs'[|zs'| - 1].live)
    ensures zs[|zs| - 1].free == zs'[|zs'| - 1].free
  {
    var z, z' := zs[|zs| - 1], zs'[|zs'| - 1];
    RunInv(zs, |zs| - 1);
    RunInv(zs', |zs'| - 1);
    LivePagesDetermineFree(z, z');
    FreeBlocksDetermined(z, z');
  }

  /** A get followed by the free of what it returned gives back the same zone. */
  lemma GetThenFree(z: Zone, b: Block, order: nat)
    requires Inv(z) && b in z.free && order <= b.order
    ensures GiveBack(GetFrom(z, b, order), Leftmost(b, order)) == z
  {
    var z1 := GetFrom(z, b, order);
    GetInv(z, b, order);
    GiveBackInv(z1, Leftmost(b, order));
    var z2 := GiveBack(z1, Leftmost(b, order));
    assert z2.live == z.live;
    LivePagesDetermineFree(z, z2);
    FreeBlocksDetermined(z, z2);
  }

  /** No block can be handed out exactly when no aligned run of that size is wholly free. */
  lemma NoneIffNoRun(z: Zone, order: nat)
    requires Inv(z) && order <= TOP
    ensures (exists b :: b in z.free && order <= b.order) <==> (exists num: nat :: WhollyFree(z, Block(num, order)))
  {
    if b :| b in z.free && order <= b.order {
      LeftmostFacts(b, order);
      var l := Leftmost(b, order);
      forall page: nat | Contains(l, page)
        ensures Covered(z.free, page)
      {
        NestedContains(l, b, page);
        assert b in z.free + z.live;
        assert Block(Shr(page, b.order), b.order) in z.free;
      }
      assert l == Block(l.num, order);
      assert WhollyFree(z, Block(l.num, order));
    }
    if num: nat :| WhollyFree(z, Block(num, order)) {
      var c := RunInsideFreeBlock(z, Block(num, order));
    }
  }

  /** No two blocks of a zone hold the same page. */
  lemma OneBlockPerPage(z: Zone, b: Block, c: Block, page: nat)
    requires Inv(z) && b in z.free + z.live && c in z.free + z.live
    requires Contains(b, page) && Contains(c, page)
    ensures b == c
  {
    if b.order <= c.order {
      SharedPageNested(b, c, page);
    } else {
      SharedPageNested(c, b, page);
    }
  }

  // ---- Where the buddy index may point -----------------------------------------------------------

  /** The buddy's metadata that buddy_free_pages reads exists for every block inside the zone. */
  ghost predicate BuddiesInRange(n: nat) {
    forall b: Block :: b.order < TOP && Start(b) + Pow2(b.order) <= n ==> Start(BuddyOf(b)) < n
  }

  /** Every odd-or-even split: n is an odd multiple of some 2^k, or zero. */
  lemma {:induction false} LowestBit(n: nat) returns (m: nat, k: nat)
    requires n > 0
    ensures n == Shl(2 * m + 1, k)
  {
    if n % 2 == 1 {
      m, k := n / 2, 0;
    } else {
      m, k := LowestBit(n / 2);
      k := k + 1;
    }
  }

  lemma TopPow2()
    ensures Pow2(TOP) == 8192
  {
    assert Pow2(7) == 128;
    assert Pow2(13) == 64 * Pow2(7);
  }

  /**
    The code, which does not test the index, never reads past the page array exactly when the zone is whole
    top-order blocks.
   */
  lemma BuddiesInRangeIff(n: nat)
    ensures BuddiesInRange(n) <==> n % 8192 == 0
  {
    TopPow2();
    if n % 8192 == 0 {
      forall b: Block | b.order < TOP && Start(b) + Pow2(b.order) <= n
        ensures Start(BuddyOf(b)) < n
      {
        var top := Shr(b.num, TOP - b.order);
        SameTop(b, top);
        ShrInterval(Start(b), top, TOP);
        ShrInterval(Start(BuddyOf(b)), top, TOP);
        ShlMul(top, TOP);
        assert 8192 * top < n;
      }
    } else {
      var m, k := LowestBit(n);
      var b := Block(2 * m, k);
      ShlAdd(2 * m, 1, k);
      ShlOne(k);
      if k >= TOP {
        ShlSplit(2 * m + 1, k - TOP, TOP);
        ShlMul(Shl(2 * m + 1, k - TOP), TOP);
      }
      assert BuddyOf(b) == Block(2 * m + 1, k);
    }
  }

  lemma {:induction false} ShlSplit(n: nat, j: nat, k: nat)
    ensures Shl(Shl(n, j), k) == Shl(n, j + k)
  {
    if k > 0 { ShlSplit(n, j, k - 1); }
  }

  /** A block and its buddy lie under the same top-order run. */
  lemma SameTop(b: Block, top: nat)
    requires b.order < TOP && top == Shr(b.num, TOP - b.order)
    ensures Shr(Start(b), TOP) == top && Shr(Start(BuddyOf(b)), TOP) == top
  {
    var d := BuddyOf(b);
    ShrShl(b.num, b.order);
    ShrShl(d.num, b.order);
    ShrShr(Start(b), b.order, TOP - b.order);
    ShrShr(Start(d), b.order, TOP - b.order);
    ShrOne(b.num);
    ShrOne(d.num);
    ShrShr(b.num, 1, TOP - b.order - 1);
    ShrShr(d.num, 1, TOP - b.order - 1);
  }

  /** With nothing live, whole top-order blocks are all that is left. */
  lemma AllFreeIsTopBlocks(z: Zone)
    requires Inv(z) && z.live == {} && z.n % 8192 == 0
    ensures z.free == set num: nat | num < z.n / 8192 :: Block(num, TOP)
  {
    TopPow2();
    forall page: nat
      ensures Covered(z.free, page) <==> page < z.n
    {
      FreePageIffNotLive(z, page);
    }
    forall num: nat | num < z.n / 8192
      ensures Block(num, TOP) in z.free
    {
      forall page: nat | Contains(Block(num, TOP), page)
        ensures Covered(z.free, page)
      {
        ShrInterval(page, num, TOP);
        ShlMul(num, TOP);
        assert page < 8192 * (num + 1) <= z.n;
      }
      FreeIffMaximal(z, Block(num, TOP));
    }
    forall b | b in z.free
      ensures b.order == TOP && b.num < z.n / 8192
    {
      assert b in z.free + z.live;
      if b.order < TOP {
        var top := Block(Shr(b.num, TOP - b.order), TOP);
        SameTop(b, top.num);
        ShrInterval(Start(b), top.num, TOP);
        ShlMul(top.num, TOP);
        assert 8192 * top.num < z.n;
        assert top in z.free;
        assert top in z.free + z.live && Nested(b, top);
      } else {
        ShlMul(b.num, TOP);
      }
    }
  }
}
