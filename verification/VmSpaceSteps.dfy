/** What each step does to the regions and the translations of every space, and to nothing else. */
module VmSpaceSteps {
  import opened Common
  import opened VmSpace
  import opened VmSpaceInv

  // ---- Regions -------------------------------------------------------------------------------------

  /**
    The step gives space t the region x: at the page of the address, with the length, permission and object asked
    for.
   */
  predicate Maps(w: World, e: Event, t: nat, x: Region) {
    match e
    case MapRange(s, va, len, perm, o) =>
      && s == t && x.start % PAGE_SIZE == 0 && x.start <= va < x.start + PAGE_SIZE
      && x.size == (if len < PAGE_SIZE then PAGE_SIZE else len) && x.perm == perm && x.pmo == o
    case Mmap(s, len, perm, o) => s == t < |w.spaces| && x == Region(w.spaces[t].mmapAddr, len, perm, o)
    case _ => false
  }

  /** The step takes from space t the region that the address lies in. */
  predicate Deletes(e: Event, t: nat, x: Region) {
    match e
    case UnmapShm(s, va) => s == t && x.start <= va < x.start + x.size
    case UnmapDelete(s, va, _) => s == t && x.start <= va < x.start + x.size
    case _ => false
  }

  /** A region is there after a step exactly if it was and was not deleted, or was mapped. */
  lemma RegionAfter(w: World, e: Event, t: nat, x: Region)
    requires Inv(w) && Enabled(w, e) && t < |w.spaces|
    ensures |Apply(w, e).spaces| == |w.spaces|
    ensures x in Apply(w, e).spaces[t].regions <==>
              (x in w.spaces[t].regions && !Deletes(e, t, x)) || Maps(w, e, t, x)
  {
    hide Inv, RegionsOk, TableOk, PhaseOk, UsedOk, MappersOk, NoHit, FindRegion;
    SpaceFacts(w, t);
    match e
    case MapRange(_, va, _, _, _) => AlignedStart(va, x.start);
    case UnmapShm(s, va) => if s == t { DeletedOne(w.spaces[t].regions, w.objects, va, x); }
    case UnmapDelete(s, va, _) => if s == t { DeletedOne(w.spaces[t].regions, w.objects, va, x); }
    case _ =>
  }

  /** The cursor of mmap moves past the new region, and by no other step. */
  lemma CursorAfter(w: World, e: Event, t: nat)
    requires Enabled(w, e) && t < |w.spaces|
    ensures |Apply(w, e).spaces| == |w.spaces|
    ensures Apply(w, e).spaces[t].mmapAddr == w.spaces[t].mmapAddr + if e.Mmap? && e.s == t then e.len else 0
  {
    hide NoHit, FindRegion;
  }

  lemma AlignedStart(va: nat, start: nat)
    ensures start % PAGE_SIZE == 0 && start <= va < start + PAGE_SIZE <==> start == va - va % PAGE_SIZE
  {
  }

  /** Among disjoint regions the one that covers an address is the only one, and it is there once. */
  lemma DeletedOne(rs: seq<Region>, ob: map<Oid, Pmo>, va: nat, x: Region)
    requires RegionsOk(rs, ob)
    ensures var r := FindRegion(rs, va);
            if r.None? then x in rs ==> !Covers(x, va)
            else x in Without(rs, r.value) <==> x in rs && !Covers(x, va)
  {
    var r := FindRegion(rs, va);
    if r.Some? {
      forall i, j | 0 <= i < j < |rs| && Covers(rs[i], va)
        ensures !Covers(rs[j], va)
      {
        assert Disjoint(rs[i], rs[j]);
      }
      WithoutCovering(rs, va, r.value, x);
    }
  }

  lemma {:induction false} WithoutCovering(rs: seq<Region>, va: nat, r: Region, x: Region)
    requires r in rs && Covers(r, va) && forall i, j :: 0 <= i < j < |rs| && Covers(rs[i], va) ==> !Covers(rs[j], va)
    ensures x in Without(rs, r) <==> x in rs && !Covers(x, va)
  {
    assert rs == [rs[0]] + rs[1..];
    if rs[0] == r {
      assert forall j :: 0 < j < |rs| ==> !Covers(rs[j], va);
    } else {
      assert !Covers(rs[0], va) by {
        var j :| 0 <= j < |rs| && rs[j] == r;
      }
      WithoutCovering(rs[1..], va, r, x);
    }
  }

  /**
    A mapped range is covered whole if and only if it begins at a page or ends within the page it begins in: the address
    is rounded down but the length is not made longer.
   */
  lemma CoveredWholeIff(va: nat, len: nat, perm: nat, o: Oid)
    ensures Covers(Aligned(va, len, perm, o), va)
    ensures (forall b :: va <= b < va + len ==> Covers(Aligned(va, len, perm, o), b)) <==>
              va % PAGE_SIZE == 0 || va % PAGE_SIZE + len <= PAGE_SIZE
  {
    var r := Aligned(va, len, perm, o);
    if !(va % PAGE_SIZE == 0 || va % PAGE_SIZE + len <= PAGE_SIZE) {
      assert !Covers(r, va + len - 1);
    }
  }

  // ---- Translations --------------------------------------------------------------------------------

  /** The step takes the page out of the page table of space t. */
  predicate Unmaps(w: World, e: Event, t: nat, vpn: nat)
    requires t < |w.spaces|
  {
    match e
    case UnmapShm(s, va) => s == t && exists r :: r in w.spaces[t].regions && Covers(r, va) && PageOf(r, vpn)
    case UnmapClear(s, r) => s == t && PageOf(r, vpn)
    case _ => false
  }

  /** The step enters the page of the fault that space t handles. */
  predicate Enters(w: World, e: Event, t: nat, vpn: nat)
    requires t < |w.spaces|
  {
    e == FaultMap(t) && w.spaces[t].phase.Mapping? && w.spaces[t].phase.vpn == vpn
  }

  /** After a step the page table has the entry of the fault, or nothing where it was cleared, or what it had. */
  lemma EntryAfter(w: World, e: Event, t: nat, vpn: nat)
    requires Inv(w) && Enabled(w, e) && t < |w.spaces|
    ensures |Apply(w, e).spaces| == |w.spaces|
    ensures var tbl, tbl' := w.spaces[t].pgtbl, Apply(w, e).spaces[t].pgtbl;
            if Enters(w, e, t, vpn) then
              vpn in tbl' && tbl'[vpn] == Entry(w.spaces[t].phase.frame, w.spaces[t].phase.region.perm)
            else if Unmaps(w, e, t, vpn) then vpn !in tbl'
            else (vpn in tbl' <==> vpn in tbl) && (vpn in tbl ==> tbl'[vpn] == tbl[vpn])
  {
    hide Inv, RegionsOk, TableOk, PhaseOk, UsedOk, MappersOk, NoHit, FindRegion;
    SpaceFacts(w, t);
    match e
    case UnmapShm(s, va) =>
      if s == t {
        var r := FindRegion(w.spaces[t].regions, va);
        if r.Some? { OneCovers(w.spaces[t].regions, w.objects, va, r.value); }
      }
    case _ =>
  }

  lemma OneCovers(rs: seq<Region>, ob: map<Oid, Pmo>, va: nat, r: Region)
    requires RegionsOk(rs, ob) && r in rs && Covers(r, va)
    ensures forall q :: q in rs && Covers(q, va) ==> q == r
  {
    var i :| 0 <= i < |rs| && rs[i] == r;
    forall q | q in rs && Covers(q, va)
      ensures q == r
    {
      var j :| 0 <= j < |rs| && rs[j] == q;
    }
  }

  // ---- Objects -------------------------------------------------------------------------------------

  /** The step commits a page to the object. */
  predicate CommitsTo(w: World, e: Event, o: Oid) {
    e.FaultCommit? && e.s < |w.spaces| && w.spaces[e.s].phase.Committing? && w.spaces[e.s].phase.region.pmo == o
  }

  /**
    An object keeps its size and type, and its pages but for a commit, which adds the fresh frame at the offset of the
    page that faulted; a new object has no pages.
   */
  lemma ObjectAfter(w: World, e: Event, o: Oid)
    requires Inv(w) && Enabled(w, e) && o in Apply(w, e).objects
    ensures var ob' := Apply(w, e).objects[o];
            if o !in w.objects then e == NewObject(o, ob'.size, ob'.shared) && ob'.pages == map[]
            else
              var ob := w.objects[o];
              && ob'.size == ob.size && ob'.shared == ob.shared
              && if CommitsTo(w, e, o) then
                   var ph := w.spaces[e.s].phase;
                   exists k :: k !in ob.pages && k * PAGE_SIZE == ph.vpn * PAGE_SIZE - ph.region.start
                               && ob'.pages == ob.pages[k := e.f]
                 else ob'.pages == ob.pages
  {
    hide RegionsOk, TableOk, UsedOk, MappersOk, NoHit, FindRegion, FramesOk;
    if CommitsTo(w, e, o) {
      SpaceFacts(w, e.s);
      CommitOffset(w, e.s);
    }
  }

  lemma CommitOffset(w: World, s: nat)
    requires Inv(w) && s < |w.spaces| && w.spaces[s].phase.Committing? && !CommitBug(w, s)
    ensures var ph := w.spaces[s].phase; Index(ph.region, ph.vpn) * PAGE_SIZE == ph.vpn * PAGE_SIZE - ph.region.start
  {
    SpaceFacts(w, s);
  }
}
