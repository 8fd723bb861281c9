/**
  Address spaces with demand paging: regions backed by anonymous or shared objects, pages that are
  allocated on the first fault, and page tables as maps. A page fault takes three steps, so that faults of
  different address spaces on one object may interleave, and vmspace_unmap_range takes two: it deletes the
  region under the lock of the space and clears the page table later, under the lock of the table.
 */
module VmSpace {
  import opened Common

  const PAGE_SIZE: nat := 4096
  const MMAP_START: nat := 0x700000000000

  type Oid = nat
  type Frame = nat

  datatype Region = Region(start: nat, size: nat, perm: nat, pmo: Oid)

  /** A memory object: its pages so far (the radix tree), and the spaces that ever mapped it. */
  datatype Pmo = Pmo(size: nat, shared: bool, pages: map<nat, Frame>, mappers: set<nat>)

  datatype Entry = Entry(frame: Frame, perm: nat)

  /** Where the holder of the space's lock is; Stuck is a lock that is never released. */
  datatype Phase =
    | Unlocked
    | Committing(vpn: nat, region: Region)
    | Mapping(vpn: nat, region: Region, frame: Frame)
    | Stuck

  /** pending: the deleted regions whose translations have still to be cleared. */
  datatype Space = Space(regions: seq<Region>, pgtbl: map<nat, Entry>, mmapAddr: nat, phase: Phase,
                         pending: multiset<Region>)

  datatype World = World(spaces: seq<Space>, objects: map<Oid, Pmo>, used: set<Frame>)

  // ---- Regions -------------------------------------------------------------------------------------

  function End(r: Region): nat {
    r.start + r.size
  }

  /** No byte is in both. */
  predicate Disjoint(a: Region, b: Region) {
    a.size == 0 || b.size == 0 || End(a) <= b.start || End(b) <= a.start
  }

  /** The test of check_vmr_intersect against one region. */
  predicate Hits(r: Region, old_: Region) {
    r.size > 0 && !(r.start >= End(old_) || r.start + r.size - 1 <= old_.start)
  }

  /** The test sees every overlap except the one where the last new byte is the first old byte. */
  lemma HitsExactly(r: Region, old_: Region)
    requires r.size > 0 && old_.size > 0
    ensures Hits(r, old_) <==> !Disjoint(r, old_) && End(r) - 1 != old_.start
  {
  }

  /** With whole pages the exception cannot occur, so the test is exact. */
  lemma HitsExactlyPages(r: Region, old_: Region)
    requires r.size > 0 && old_.size > 0
    requires r.start % PAGE_SIZE == 0 && old_.start % PAGE_SIZE == 0 && r.size % PAGE_SIZE != 1
    ensures Hits(r, old_) <==> !Disjoint(r, old_)
  {
    assert (r.start + r.size - 1) % PAGE_SIZE == (r.size - 1) % PAGE_SIZE;
  }

  /** vmspace_map_range aligns the start but not the length: a length of one byte over a page can overlap unseen. */
  lemma MissedOverlap(old_: Region, perm: nat, o: Oid)
    requires old_.size > 0 && old_.start >= PAGE_SIZE && old_.start % PAGE_SIZE == 0
    ensures var r := Aligned(old_.start - PAGE_SIZE, PAGE_SIZE + 1, perm, o); !Hits(r, old_) && !Disjoint(r, old_)
  {
  }

  /** The region vmspace_map_range makes. */
  function Aligned(va: nat, len: nat, perm: nat, o: Oid): Region {
    Region(va - va % PAGE_SIZE, if len < PAGE_SIZE then PAGE_SIZE else len, perm, o)
  }

  predicate Covers(r: Region, addr: nat) {
    r.start <= addr < End(r)
  }

  /** find_vmr_for_va */
  function FindRegion(rs: seq<Region>, addr: nat): (r: Option<Region>)
    ensures r.Some? ==> r.value in rs && Covers(r.value, addr)
    ensures r.None? ==> forall x :: x in rs ==> !Covers(x, addr)
  {
    if rs == [] then None else if Covers(rs[0], addr) then Some(rs[0]) else FindRegion(rs[1..], addr)
  }

  predicate NoHit(rs: seq<Region>, r: Region) {
    forall x :: x in rs ==> !Hits(r, x)
  }

  /** The one overlap that check_vmr_intersect does not see. */
  predicate Unseen(rs: seq<Region>, r: Region) {
    exists x :: x in rs && x.size > 0 && r.size > 0 && End(r) - 1 == x.start
  }

  /** The page vpn of a region, as a page of its object. */
  predicate PageOf(r: Region, vpn: nat) {
    r.start <= vpn * PAGE_SIZE < End(r)
  }

  function Index(r: Region, vpn: nat): (i: nat)
    requires r.start <= vpn * PAGE_SIZE
    ensures r.start % PAGE_SIZE == 0 ==> r.start + i * PAGE_SIZE == vpn * PAGE_SIZE
  {
    (vpn * PAGE_SIZE - r.start) / PAGE_SIZE
  }

  // ---- Steps ---------------------------------------------------------------------------------------

  datatype Event =
    | NewObject(o: Oid, size: nat, shared: bool)
    | MapRange(s: nat, va: nat, len: nat, perm: nat, o: Oid)
    | Mmap(s: nat, len: nat, perm: nat, o: Oid)
    | UnmapShm(s: nat, va: nat)
    | UnmapDelete(s: nat, va: nat, len: nat)
    | UnmapClear(s: nat, r: Region)
    | FaultFind(s: nat, addr: nat)
    | FaultCommit(s: nat, f: Frame)
    | FaultMap(s: nat)

  predicate Ready(w: World, s: nat) {
    s < |w.spaces| && w.spaces[s].phase.Unlocked?
  }

  /** The step's lock is free, and none of its BUG_ONs fires. */
  predicate Enabled(w: World, e: Event) {
    match e
    case NewObject(o, size, _) => o !in w.objects && size % PAGE_SIZE == 0
    case MapRange(s, va, len, perm, o) =>
      Ready(w, s) && o in w.objects && NoHit(w.spaces[s].regions, Aligned(va, len, perm, o))
    case Mmap(s, len, perm, o) =>
      Ready(w, s) && o in w.objects && len % PAGE_SIZE == 0 &&
      NoHit(w.spaces[s].regions, Region(w.spaces[s].mmapAddr, len, perm, o))
    case UnmapShm(s, va) =>
      && Ready(w, s)
      && var r := FindRegion(w.spaces[s].regions, va);
      r.Some? ==> r.value.start == va && r.value.pmo in w.objects && w.objects[r.value.pmo].shared
    case UnmapDelete(s, va, len) =>
      && Ready(w, s)
      && var r := FindRegion(w.spaces[s].regions, va);
      r.Some? ==> len == 0 || (va == r.value.start && len == r.value.size)
    case UnmapClear(s, r) => s < |w.spaces| && r in w.spaces[s].pending
    case FaultFind(s, addr) =>
      && Ready(w, s)
      && var r := FindRegion(w.spaces[s].regions, addr);
      r.Some? ==> && r.value.pmo in w.objects && r.value.start <= addr - addr % PAGE_SIZE
                  && addr - addr % PAGE_SIZE - r.value.start < w.objects[r.value.pmo].size
    case FaultCommit(s, f) =>
      && s < |w.spaces| && w.spaces[s].phase.Committing? && f !in w.used && f > 0
      && !CommitBug(w, s)
    case FaultMap(s) => s < |w.spaces| && w.spaces[s].phase.Mapping?
  }

  /** radix_add finds a page under the index already. */
  predicate CommitBug(w: World, s: nat)
    requires s < |w.spaces| && w.spaces[s].phase.Committing?
  {
    var ph := w.spaces[s].phase;
    || ph.region.pmo !in w.objects || ph.region.start > ph.vpn * PAGE_SIZE
    || Index(ph.region, ph.vpn) in w.objects[ph.region.pmo].pages
  }

  function SetSpace(w: World, s: nat, sp: Space): World
    requires s < |w.spaces|
  {
    w.(spaces := w.spaces[s := sp])
  }

  /** list_add of a region, and the note that the space maps the object. */
  function AddRegion(w: World, s: nat, r: Region): World
    requires s < |w.spaces| && r.pmo in w.objects
  {
    var w1 := SetSpace(w, s, w.spaces[s].(regions := [r] + w.spaces[s].regions));
    w1.(objects := w1.objects[r.pmo := w1.objects[r.pmo].(mappers := w1.objects[r.pmo].mappers + {s})])
  }

  /** The page table without the pages of a region. */
  function Cleared(pgtbl: map<nat, Entry>, r: Region): map<nat, Entry> {
    map vpn | vpn in pgtbl && !PageOf(r, vpn) :: pgtbl[vpn]
  }

  function Apply(w: World, e: Event): World
    requires Enabled(w, e)
  {
    match e
    case NewObject(o, size, shared) => w.(objects := w.objects[o := Pmo(size, shared, map[], {})])
    case MapRange(s, va, len, perm, o) => AddRegion(w, s, Aligned(va, len, perm, o))
    case Mmap(s, len, perm, o) =>
      var w1 := AddRegion(w, s, Region(w.spaces[s].mmapAddr, len, perm, o));
      SetSpace(w1, s, w1.spaces[s].(mmapAddr := w.spaces[s].mmapAddr + len))
    case UnmapShm(s, va) =>
      var sp := w.spaces[s];
      var r := FindRegion(sp.regions, va);
      if r.None? then w
      else SetSpace(w, s, sp.(pgtbl := Cleared(sp.pgtbl, r.value), regions := Without(sp.regions, r.value)))
    case UnmapDelete(s, va, len) =>
      // A length of 0 deletes the region and leaves the page table alone; without a region the lock is kept.
      var sp := w.spaces[s];
      var r := FindRegion(sp.regions, va);
      if r.None? then SetSpace(w, s, sp.(phase := Stuck))
      else SetSpace(w, s, sp.(regions := Without(sp.regions, r.value),
                              pending := if len == 0 then sp.pending else sp.pending + multiset{r.value}))
    case UnmapClear(s, r) =>
      // Only the page table's lock is taken: the space may be in any phase.
      var sp := w.spaces[s];
      SetSpace(w, s, sp.(pgtbl := Cleared(sp.pgtbl, r), pending := sp.pending - multiset{r}))
    case FaultFind(s, addr) =>
      var sp := w.spaces[s];
      var r := FindRegion(sp.regions, addr);
      if r.None? then SetSpace(w, s, sp.(phase := Stuck))
      else
        var vpn := addr / PAGE_SIZE;
        var i := (addr - addr % PAGE_SIZE - r.value.start) / PAGE_SIZE;
        var pages := w.objects[r.value.pmo].pages;
        SetSpace(w, s, sp.(phase := if i in pages then Mapping(vpn, r.value, pages[i]) else Committing(vpn, r.value)))
    case FaultCommit(s, f) =>
      var ph := w.spaces[s].phase;
      var ob := w.objects[ph.region.pmo];
      var w1 := w.(objects := w.objects[ph.region.pmo := ob.(pages := ob.pages[Index(ph.region, ph.vpn) := f])],
                   used := w.used + {f});
      SetSpace(w1, s, w.spaces[s].(phase := Mapping(ph.vpn, ph.region, f)))
    case FaultMap(s) =>
      var sp := w.spaces[s];
      SetSpace(w, s, sp.(pgtbl := sp.pgtbl[sp.phase.vpn := Entry(sp.phase.frame, sp.phase.region.perm)],
                         phase := Unlocked))
  }

  // ---- The invariant -------------------------------------------------------------------------------

  ghost predicate RegionsOk(rs: seq<Region>, objects: map<Oid, Pmo>) {
    && (forall i, j :: 0 <= i < j < |rs| ==> Disjoint(rs[i], rs[j]))
    && (forall r :: r in rs ==> r.start % PAGE_SIZE == 0 && r.pmo in objects)
  }

  /** The page of the object behind a page of a region. */
  ghost predicate Backed(objects: map<Oid, Pmo>, r: Region, vpn: nat, f: Frame) {
    && PageOf(r, vpn) && r.pmo in objects
    && Index(r, vpn) in objects[r.pmo].pages && objects[r.pmo].pages[Index(r, vpn)] == f
  }

  /** f is the page of the object at the given offset in bytes. */
  ghost predicate AtOffset(objects: map<Oid, Pmo>, o: Oid, offset: int, f: Frame) {
    o in objects && exists k :: k in objects[o].pages && k * PAGE_SIZE == offset && objects[o].pages[k] == f
  }

  /** A translation is the page of the object that backs the region it lies in, with the region's permission. */
  ghost predicate EntryOk(rs: seq<Region>, objects: map<Oid, Pmo>, vpn: nat, en: Entry) {
    exists r :: r in rs && Backed(objects, r, vpn, en.frame) && r.perm == en.perm
  }

  /** A translation of a page that no longer is what its address stands for. */
  ghost predicate Stale(sp: Space, objects: map<Oid, Pmo>, vpn: nat) {
    vpn in sp.pgtbl && !EntryOk(sp.regions, objects, vpn, sp.pgtbl[vpn])
  }

  /** The page lies in a deleted region that has still to be cleared. */
  ghost predicate InPending(sp: Space, vpn: nat) {
    exists r :: r in sp.pending && PageOf(r, vpn)
  }

  ghost predicate TableOk(sp: Space, objects: map<Oid, Pmo>) {
    forall vpn :: Stale(sp, objects, vpn) ==> InPending(sp, vpn)
  }

  /** A translation leads to a frame that has been given out. */
  ghost predicate UsedOk(sp: Space, used: set<Frame>) {
    forall vpn :: vpn in sp.pgtbl ==> sp.pgtbl[vpn].frame in used
  }

  ghost predicate PhaseOk(sp: Space, objects: map<Oid, Pmo>) {
    match sp.phase
    case Unlocked => true
    case Stuck => true
    case Committing(vpn, r) => r in sp.regions && PageOf(r, vpn)
    case Mapping(vpn, r, f) => r in sp.regions && Backed(objects, r, vpn, f)
  }

  ghost predicate SpaceOk(sp: Space, objects: map<Oid, Pmo>) {
    RegionsOk(sp.regions, objects) && TableOk(sp, objects) && PhaseOk(sp, objects) && sp.mmapAddr % PAGE_SIZE == 0
  }

  /** Two pages of objects have the same frame only if they are the same page. */
  ghost predicate FramesOk(objects: map<Oid, Pmo>, used: set<Frame>) {
    && (forall o, i :: HasPage(objects, o, i) ==> objects[o].pages[i] in used)
    && (forall o, i, p, j ::
          HasPage(objects, o, i) && HasPage(objects, p, j) && objects[o].pages[i] == objects[p].pages[j] ==>
                               o == p && i == j)
  }

  predicate HasPage(objects: map<Oid, Pmo>, o: Oid, i: nat) {
    o in objects && i in objects[o].pages
  }

  /**
    Everyone who maps an object is noted, and a page that only one space can commit is not committed behind its
    back.
   */
  ghost predicate MappersOk(w: World, s: nat)
    requires s < |w.spaces|
  {
    && (forall r :: r in w.spaces[s].regions && r.pmo in w.objects ==> s in w.objects[r.pmo].mappers)
    && (w.spaces[s].phase.Committing? && Private(w, s) ==> !CommitBug(w, s))
  }

  /** The space is the only one that ever mapped the object it is about to commit a page to. */
  predicate Private(w: World, s: nat)
    requires s < |w.spaces| && w.spaces[s].phase.Committing?
  {
    var o := w.spaces[s].phase.region.pmo;
    o in w.objects && w.objects[o].mappers == {s}
  }

  ghost predicate Inv(w: World) {
    && (forall s :: 0 <= s < |w.spaces| ==> SpaceOk(w.spaces[s], w.objects))
    && FramesOk(w.objects, w.used)
    && (forall s :: 0 <= s < |w.spaces| ==> UsedOk(w.spaces[s], w.used))
    && (forall s :: 0 <= s < |w.spaces| ==> MappersOk(w, s))
  }
}
