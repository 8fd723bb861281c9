/** Every step keeps regions disjoint and translations true, or exactly when not; and what follows for sharing. */
module VmSpaceInv {
  import opened Common
  import opened VmSpace

  // ---- Objects only grow ---------------------------------------------------------------------------

  ghost predicate Extends(ob: map<Oid, Pmo>, ob': map<Oid, Pmo>) {
    && (forall o :: o in ob ==> o in ob' && ob[o].mappers <= ob'[o].mappers)
    && (forall o, i :: HasPage(ob, o, i) ==> HasPage(ob', o, i) && ob'[o].pages[i] == ob[o].pages[i])
  }

  lemma SameObjects(ob: map<Oid, Pmo>)
    ensures Extends(ob, ob)
  {
  }

  lemma BackedExtends(ob: map<Oid, Pmo>, ob': map<Oid, Pmo>, r: Region, vpn: nat, f: Frame)
    requires Extends(ob, ob') && Backed(ob, r, vpn, f)
    ensures Backed(ob', r, vpn, f)
  {
    assert HasPage(ob, r.pmo, Index(r, vpn));
  }

  lemma EntryExtends(rs: seq<Region>, rs': seq<Region>, ob: map<Oid, Pmo>, ob': map<Oid, Pmo>, vpn: nat, en: Entry)
    requires Extends(ob, ob') && EntryOk(rs, ob, vpn, en) && forall r :: r in rs && PageOf(r, vpn) ==> r in rs'
    ensures EntryOk(rs', ob', vpn, en)
  {
    var r :| r in rs && Backed(ob, r, vpn, en.frame) && r.perm == en.perm;
    BackedExtends(ob, ob', r, vpn, en.frame);
  }

  /** A translation is not stale if it was not, its regions are still there and objects have only grown. */
  lemma StaleBefore(sp: Space, sp': Space, ob: map<Oid, Pmo>, ob': map<Oid, Pmo>, vpn: nat)
    requires Extends(ob, ob') && Stale(sp', ob', vpn) && vpn in sp.pgtbl && sp.pgtbl[vpn] == sp'.pgtbl[vpn]
    requires forall r :: r in sp.regions && PageOf(r, vpn) ==> r in sp'.regions
    ensures Stale(sp, ob, vpn)
  {
    if EntryOk(sp.regions, ob, vpn, sp.pgtbl[vpn]) {
      EntryExtends(sp.regions, sp'.regions, ob, ob', vpn, sp.pgtbl[vpn]);
    }
  }

  /** The page keeps its translation, its regions and its pending ranges. */
  ghost predicate SamePage(sp: Space, sp': Space, vpn: nat) {
    && vpn in sp.pgtbl && vpn in sp'.pgtbl && sp.pgtbl[vpn] == sp'.pgtbl[vpn]
    && (InPending(sp, vpn) ==> InPending(sp', vpn))
    && forall r :: r in sp.regions && PageOf(r, vpn) ==> r in sp'.regions
  }

  lemma TableStep(sp: Space, sp': Space, ob: map<Oid, Pmo>, ob': map<Oid, Pmo>)
    requires TableOk(sp, ob) && Extends(ob, ob')
    requires forall vpn :: Stale(sp', ob', vpn) ==> InPending(sp', vpn) || SamePage(sp, sp', vpn)
    ensures TableOk(sp', ob')
  {
    hide EntryOk, InPending, Extends;
    forall vpn | Stale(sp', ob', vpn)
      ensures InPending(sp', vpn)
    {
      if SamePage(sp, sp', vpn) {
        StaleBefore(sp, sp', ob, ob', vpn);
      }
    }
  }

  lemma SpaceExtends(sp: Space, ob: map<Oid, Pmo>, ob': map<Oid, Pmo>)
    requires SpaceOk(sp, ob) && Extends(ob, ob')
    ensures SpaceOk(sp, ob')
  {
    TableStep(sp, sp, ob, ob');
    if sp.phase.Mapping? {
      BackedExtends(ob, ob', sp.phase.region, sp.phase.vpn, sp.phase.frame);
    }
  }

  // ---- Region lists --------------------------------------------------------------------------------

  lemma {:induction false} WithoutRegions(rs: seq<Region>, r: Region, ob: map<Oid, Pmo>)
    requires RegionsOk(rs, ob)
    ensures RegionsOk(Without(rs, r), ob)
    ensures forall x :: x in Without(rs, r) ==> x in rs
    ensures forall x :: x in rs && x != r ==> x in Without(rs, r)
    ensures forall x :: x in Without(rs, r) && r in rs ==> Disjoint(x, r)
  {
    if rs != [] {
      var rest := rs[1..];
      assert rs == [rs[0]] + rest;
      assert RegionsOk(rest, ob);
      if rs[0] == r {
        assert forall x :: x in rest ==> Disjoint(x, r);
      } else {
        WithoutRegions(rest, r, ob);
        var w := Without(rest, r);
        assert forall i :: 0 <= i < |w| ==> w[i] in rest;
        assert forall x :: x in rest ==> Disjoint(rs[0], x);
        assert r in rs ==> r in rest;
      }
    }
  }

  /** A region that meets no other in a byte can be added; one that does cannot. */
  lemma AddDisjoint(rs: seq<Region>, r: Region, ob: map<Oid, Pmo>)
    requires RegionsOk(rs, ob) && NoHit(rs, r) && r.start % PAGE_SIZE == 0 && r.pmo in ob
    ensures RegionsOk([r] + rs, ob) <==> !Unseen(rs, r)
  {
    if x :| x in rs && x.size > 0 && r.size > 0 && End(r) - 1 == x.start {
      var i :| 0 <= i < |rs| && rs[i] == x;
      assert !Disjoint(([r] + rs)[0], ([r] + rs)[i + 1]);
    } else {
      forall i | 0 <= i < |rs|
        ensures Disjoint(r, rs[i])
      {
        assert rs[i] in rs && !Hits(r, rs[i]);
      }
    }
  }

  lemma NothingUnseen(rs: seq<Region>, r: Region, ob: map<Oid, Pmo>)
    requires RegionsOk(rs, ob) && r.start % PAGE_SIZE == 0 && r.size % PAGE_SIZE != 1
    ensures !Unseen(rs, r)
  {
    assert r.size > 0 ==> (r.start + r.size - 1) % PAGE_SIZE == (r.size - 1) % PAGE_SIZE;
  }

  // ---- One space changes ---------------------------------------------------------------------------

  /** A step of space s that leaves the objects' pages alone. */
  lemma SpaceStep(w: World, w': World, s: nat)
    requires Inv(w) && s < |w.spaces| == |w'.spaces| && w'.used == w.used && w'.spaces == w.spaces[s := w'.spaces[s]]
    requires Extends(w.objects, w'.objects) && w'.objects.Keys == w.objects.Keys
    requires forall o :: o in w.objects ==> w'.objects[o].pages == w.objects[o].pages
    requires SpaceOk(w'.spaces[s], w'.objects) && MappersOk(w', s) && UsedOk(w'.spaces[s], w.used)
    ensures Inv(w')
  {
    hide Stale, InPending;
    forall t | 0 <= t < |w'.spaces|
      ensures SpaceOk(w'.spaces[t], w'.objects) && MappersOk(w', t)
    {
      if t != s {
        SpaceExtends(w.spaces[t], w.objects, w'.objects);
        assert MappersOk(w, t);
        OthersKeep(w, w', t);
      }
    }
    assert forall o, i :: HasPage(w'.objects, o, i) <==> HasPage(w.objects, o, i);
  }

  lemma OthersKeep(w: World, w': World, t: nat)
    requires t < |w.spaces| == |w'.spaces| && w'.spaces[t] == w.spaces[t] && MappersOk(w, t)
    requires SpaceOk(w.spaces[t], w.objects)
    requires forall o :: o in w.objects ==>
               o in w'.objects && w.objects[o].mappers <= w'.objects[o].mappers &&
               w'.objects[o].pages == w.objects[o].pages
    ensures MappersOk(w', t)
  {
    var sp := w.spaces[t];
    if sp.phase.Committing? && Private(w', t) {
      var o := sp.phase.region.pmo;
      assert sp.phase.region in sp.regions;
      assert t in w.objects[o].mappers;
      assert w.objects[o].mappers == {t};
    }
  }

  lemma SpaceFacts(w: World, s: nat)
    requires Inv(w) && s < |w.spaces|
    ensures SpaceOk(w.spaces[s], w.objects) && MappersOk(w, s) && UsedOk(w.spaces[s], w.used)
  {
  }

  // ---- The steps -----------------------------------------------------------------------------------

  lemma NewObjectInv(w: World, o: Oid, size: nat, shared: bool)
    requires Inv(w) && o !in w.objects
    ensures Inv(w.(objects := w.objects[o := Pmo(size, shared, map[], {})]))
  {
    var w' := w.(objects := w.objects[o := Pmo(size, shared, map[], {})]);
    forall t | 0 <= t < |w'.spaces|
      ensures SpaceOk(w'.spaces[t], w'.objects) && MappersOk(w', t)
    {
      SpaceFacts(w, t);
      SpaceExtends(w.spaces[t], w.objects, w'.objects);
      OthersKeep(w, w', t);
    }
    assert forall p, i :: HasPage(w'.objects, p, i) <==> HasPage(w.objects, p, i);
  }

  /** A new region keeps the invariant exactly if it is not the overlap that the check does not see. */
  lemma AddInv(w: World, s: nat, r: Region, cursor: nat)
    requires Inv(w) && Ready(w, s) && r.pmo in w.objects && r.start % PAGE_SIZE == 0 && NoHit(w.spaces[s].regions, r)
    requires cursor % PAGE_SIZE == 0
    ensures var w1 := AddRegion(w, s, r);
            Inv(SetSpace(w1, s, w1.spaces[s].(mmapAddr := cursor))) <==> !Unseen(w.spaces[s].regions, r)
  {
    hide Unseen, NoHit, FramesOk;
    SpaceFacts(w, s);
    var w1 := AddRegion(w, s, r);
    var w' := SetSpace(w1, s, w1.spaces[s].(mmapAddr := cursor));
    var sp, sp' := w.spaces[s], w'.spaces[s];
    assert RegionsOk([r] + sp.regions, w'.objects) <==> RegionsOk([r] + sp.regions, w.objects);
    AddDisjoint(sp.regions, r, w.objects);
    if Unseen(sp.regions, r) {
      assert !SpaceOk(w'.spaces[s], w'.objects);
    } else {
      TableStep(sp, sp', w.objects, w'.objects);
      SpaceStep(w, w', s);
    }
  }

  /** Deleting a region together with its translations. */
  lemma UnmapInv(w: World, s: nat, r: Region)
    requires Inv(w) && Ready(w, s) && r in w.spaces[s].regions
    ensures var sp := w.spaces[s];
            Inv(SetSpace(w, s, sp.(pgtbl := Cleared(sp.pgtbl, r), regions := Without(sp.regions, r))))
  {
    SpaceFacts(w, s);
    var sp := w.spaces[s];
    var sp' := sp.(pgtbl := Cleared(sp.pgtbl, r), regions := Without(sp.regions, r));
    WithoutRegions(sp.regions, r, w.objects);
    TableStep(sp, sp', w.objects, w.objects);
    SpaceStep(w, SetSpace(w, s, sp'), s);
  }

  /** Deleting a region whose translations are still to be cleared. */
  lemma DeletePendingInv(w: World, s: nat, r: Region)
    requires Inv(w) && Ready(w, s) && r in w.spaces[s].regions
    ensures var sp := w.spaces[s];
            Inv(SetSpace(w, s, sp.(regions := Without(sp.regions, r), pending := sp.pending + multiset{r})))
  {
    SpaceFacts(w, s);
    var sp := w.spaces[s];
    var sp' := sp.(regions := Without(sp.regions, r), pending := sp.pending + multiset{r});
    WithoutRegions(sp.regions, r, w.objects);
    assert r in sp'.pending && forall x :: x in sp.pending ==> x in sp'.pending;
    TableStep(sp, sp', w.objects, w.objects);
    SpaceStep(w, SetSpace(w, s, sp'), s);
  }

  /** Clearing the translations of a deleted region, whatever has been mapped there since. */
  lemma ClearInv(w: World, s: nat, r: Region)
    requires Inv(w) && s < |w.spaces| && r in w.spaces[s].pending
    ensures var sp := w.spaces[s];
            Inv(SetSpace(w, s, sp.(pgtbl := Cleared(sp.pgtbl, r), pending := sp.pending - multiset{r})))
  {
    SpaceFacts(w, s);
    var sp := w.spaces[s];
    var sp' := sp.(pgtbl := Cleared(sp.pgtbl, r), pending := sp.pending - multiset{r});
    assert forall x :: x in sp.pending && x != r ==> x in sp'.pending;
    TableStep(sp, sp', w.objects, w.objects);
    SpaceStep(w, SetSpace(w, s, sp'), s);
  }

  lemma NotBacked(rs: seq<Region>, r: Region, ob: map<Oid, Pmo>, vpn: nat, en: Entry)
    requires PageOf(r, vpn) && forall x :: x in rs ==> Disjoint(x, r)
    ensures !EntryOk(rs, ob, vpn, en)
  {
  }

  /** A page of the region is mapped, and nobody is about to clear it. */
  ghost predicate LeftBehind(sp: Space, r: Region) {
    exists vpn :: vpn in sp.pgtbl && PageOf(r, vpn) && !InPending(sp, vpn)
  }

  /** Deleting a region and leaving its pages mapped keeps the invariant exactly if there are none to be left behind. */
  lemma DeleteInv(w: World, s: nat, r: Region)
    requires Inv(w) && Ready(w, s) && r in w.spaces[s].regions
    ensures var sp := w.spaces[s];
            Inv(SetSpace(w, s, sp.(regions := Without(sp.regions, r)))) <==> !LeftBehind(sp, r)
  {
    SpaceFacts(w, s);
    var sp := w.spaces[s];
    var sp' := sp.(regions := Without(sp.regions, r));
    WithoutRegions(sp.regions, r, w.objects);
    hide EntryOk, FramesOk;
    assert forall vpn :: InPending(sp', vpn) <==> InPending(sp, vpn);
    hide InPending;
    if vpn :| vpn in sp.pgtbl && PageOf(r, vpn) && !InPending(sp, vpn) {
      NotBacked(sp'.regions, r, w.objects, vpn, sp.pgtbl[vpn]);
      assert Stale(sp', w.objects, vpn);
      assert !SpaceOk(SetSpace(w, s, sp').spaces[s], w.objects);
    } else {
      TableStep(sp, sp', w.objects, w.objects);
      SpaceStep(w, SetSpace(w, s, sp'), s);
    }
  }

  lemma PhaseInv(w: World, s: nat, ph: Phase)
    requires Inv(w) && s < |w.spaces| && PhaseOk(w.spaces[s].(phase := ph), w.objects)
    requires ph.Committing? && ph.region.pmo in w.objects && ph.region.start <= ph.vpn * PAGE_SIZE ==>
               Index(ph.region, ph.vpn) !in w.objects[ph.region.pmo].pages
    ensures Inv(SetSpace(w, s, w.spaces[s].(phase := ph)))
  {
    SpaceFacts(w, s);
    SameObjects(w.objects);
    TableStep(w.spaces[s], w.spaces[s].(phase := ph), w.objects, w.objects);
    SpaceStep(w, SetSpace(w, s, w.spaces[s].(phase := ph)), s);
  }

  lemma FindInv(w: World, s: nat, addr: nat)
    requires Inv(w) && Enabled(w, FaultFind(s, addr))
    ensures Inv(Apply(w, FaultFind(s, addr)))
  {
    hide Inv;
    SpaceFacts(w, s);
    var r := FindRegion(w.spaces[s].regions, addr);
    if r.None? {
      PhaseInv(w, s, Stuck);
    } else {
      var vpn := addr / PAGE_SIZE;
      assert vpn * PAGE_SIZE == addr - addr % PAGE_SIZE;
      assert PageOf(r.value, vpn);
      var i := Index(r.value, vpn);
      if i in w.objects[r.value.pmo].pages {
        PhaseInv(w, s, Mapping(vpn, r.value, w.objects[r.value.pmo].pages[i]));
      } else {
        PhaseInv(w, s, Committing(vpn, r.value));
      }
    }
  }

  /** A fresh frame for a page that has none. */
  lemma CommitInv(w: World, s: nat, f: Frame)
    requires Inv(w) && Enabled(w, FaultCommit(s, f))
    ensures Inv(Apply(w, FaultCommit(s, f)))
  {
    SpaceFacts(w, s);
    var w' := Apply(w, FaultCommit(s, f));
    var ph := w.spaces[s].phase;
    var o, i := ph.region.pmo, Index(ph.region, ph.vpn);
    assert forall p, j :: HasPage(w'.objects, p, j) <==> HasPage(w.objects, p, j) || (p == o && j == i);
    assert Extends(w.objects, w'.objects);
    assert FramesOk(w'.objects, w'.used) by { FreshFrame(w.objects, w.used, o, i, f); }
    forall t | 0 <= t < |w'.spaces|
      ensures SpaceOk(w'.spaces[t], w'.objects) && MappersOk(w', t)
    {
      SpaceFacts(w, t);
      SpaceExtends(w.spaces[t], w.objects, w'.objects);
      if t != s {
        CommitOthers(w, w', s, t);
      } else {
        TableStep(w.spaces[s], w'.spaces[s], w.objects, w'.objects);
      }
    }
  }

  lemma FreshFrame(ob: map<Oid, Pmo>, used: set<Frame>, o: Oid, i: nat, f: Frame)
    requires FramesOk(ob, used) && o in ob && i !in ob[o].pages && f !in used
    ensures FramesOk(ob[o := ob[o].(pages := ob[o].pages[i := f])], used + {f})
  {
    var ob' := ob[o := ob[o].(pages := ob[o].pages[i := f])];
    forall p, j | HasPage(ob', p, j)
      ensures if p == o && j == i then ob'[p].pages[j] == f else HasPage(ob, p, j) && ob'[p].pages[j] == ob[p].pages[j]
    {
    }
  }

  /** A space that commits to an object of its own does not notice the commits of others. */
  lemma CommitOthers(w: World, w': World, s: nat, t: nat)
    requires s < |w.spaces| && t < |w.spaces| && t != s && w.spaces[s].phase.Committing?
    requires PhaseOk(w.spaces[s], w.objects) && MappersOk(w, s) && MappersOk(w, t)
    requires |w'.spaces| == |w.spaces| && w'.spaces[t] == w.spaces[t] && w'.objects.Keys == w.objects.Keys
    requires forall o :: o in w.objects ==> w'.objects[o].mappers == w.objects[o].mappers
    requires forall o :: o in w.objects && o != w.spaces[s].phase.region.pmo ==> w'.objects[o] == w.objects[o]
    ensures MappersOk(w', t)
  {
  }

  lemma MapPageInv(w: World, s: nat)
    requires Inv(w) && Enabled(w, FaultMap(s))
    ensures Inv(Apply(w, FaultMap(s)))
  {
    SpaceFacts(w, s);
    var sp, sp' := w.spaces[s], Apply(w, FaultMap(s)).spaces[s];
    assert EntryOk(sp'.regions, w.objects, sp.phase.vpn, sp'.pgtbl[sp.phase.vpn]);
    assert sp.phase.frame in w.used by {
      assert HasPage(w.objects, sp.phase.region.pmo, Index(sp.phase.region, sp.phase.vpn));
    }
    hide EntryOk;
    SameObjects(w.objects);
    TableStep(sp, sp', w.objects, w.objects);
    SpaceStep(w, Apply(w, FaultMap(s)), s);
  }

  /**
    What callers have to avoid: a region one byte longer than whole pages right up to another one, and a
    vmspace_unmap_range of length 0, which clears nothing, of a region that has mapped pages.
   */
  ghost predicate Careful(w: World, e: Event)
    requires Enabled(w, e)
  {
    match e
    case MapRange(s, va, len, perm, o) => !Unseen(w.spaces[s].regions, Aligned(va, len, perm, o))
    case UnmapDelete(s, va, len) =>
      var r := FindRegion(w.spaces[s].regions, va);
      r.Some? && len == 0 ==> !LeftBehind(w.spaces[s], r.value)
    case _ => true
  }

  lemma AlignedStart(va: nat)
    ensures (va - va % PAGE_SIZE) % PAGE_SIZE == 0
  {
  }

  /** A step keeps the invariant if and only if it is careful. */
  lemma KeptIff(w: World, e: Event)
    requires Inv(w) && Enabled(w, e)
    ensures Inv(Apply(w, e)) <==> Careful(w, e)
  {
    hide Inv, Unseen, NoHit;
    match e
    case NewObject(o, size, shared) => NewObjectInv(w, o, size, shared);
    case MapRange(s, va, len, perm, o) =>
      SpaceFacts(w, s);
      AlignedStart(va);
      AddInv(w, s, Aligned(va, len, perm, o), w.spaces[s].mmapAddr);
      var w1 := AddRegion(w, s, Aligned(va, len, perm, o));
      assert SetSpace(w1, s, w1.spaces[s].(mmapAddr := w.spaces[s].mmapAddr)) == w1;
    case Mmap(s, len, perm, o) =>
      SpaceFacts(w, s);
      var r := Region(w.spaces[s].mmapAddr, len, perm, o);
      NothingUnseen(w.spaces[s].regions, r, w.objects);
      AddInv(w, s, r, w.spaces[s].mmapAddr + len);
    case UnmapShm(s, va) =>
      var r := FindRegion(w.spaces[s].regions, va);
      if r.Some? { UnmapInv(w, s, r.value); }
    case UnmapDelete(s, va, len) =>
      var r := FindRegion(w.spaces[s].regions, va);
      if r.None? { PhaseInv(w, s, Stuck); } else if len == 0 { DeleteInv(w, s, r.value); } else {
        DeletePendingInv(w, s, r.value);
      }
    case UnmapClear(s, r) => ClearInv(w, s, r);
    case FaultFind(s, addr) => FindInv(w, s, addr);
    case FaultCommit(s, f) => CommitInv(w, s, f);
    case FaultMap(s) => MapPageInv(w, s);
  }

  // ---- Runs ----------------------------------------------------------------------------------------

  /** Spaces as vmspace_init leaves them, and no objects. */
  predicate Initial(w: World) {
    w.objects == map[] && forall s :: 0 <= s < |w.spaces| ==>
      w.spaces[s] == Space([], map[], MMAP_START, Unlocked, multiset{})
  }

  ghost predicate Step(w: World, e: Event, w': World) {
    Enabled(w, e) && Careful(w, e) && w' == Apply(w, e)
  }

  ghost predicate Run(ws: seq<World>, es: seq<Event>) {
    && |ws| == |es| + 1 && Initial(ws[0])
    && forall i :: 0 <= i < |es| ==> Step(ws[i], es[i], ws[i + 1])
  }

  lemma {:induction false} RunInv(ws: seq<World>, es: seq<Event>, i: nat)
    requires Run(ws, es) && i < |ws|
    ensures Inv(ws[i])
  {
    if i > 0 {
      RunInv(ws, es, i - 1);
      assert Step(ws[i - 1], es[i - 1], ws[i]);
      KeptIff(ws[i - 1], es[i - 1]);
    }
  }

  /** The region of a translation: the one the page lies in, and there is only one. */
  lemma TranslationOf(w: World, s: nat, vpn: nat, r: Region)
    requires Inv(w) && s < |w.spaces| && vpn in w.spaces[s].pgtbl && r in w.spaces[s].regions && PageOf(r, vpn)
    requires !Stale(w.spaces[s], w.objects, vpn)
    ensures Backed(w.objects, r, vpn, w.spaces[s].pgtbl[vpn].frame) && r.perm == w.spaces[s].pgtbl[vpn].perm
    ensures AtOffset(w.objects, r.pmo, vpn * PAGE_SIZE - r.start, w.spaces[s].pgtbl[vpn].frame)
  {
    SpaceFacts(w, s);
    hide Inv;
    var sp := w.spaces[s];
    var x :| x in sp.regions && Backed(w.objects, x, vpn, sp.pgtbl[vpn].frame) && x.perm == sp.pgtbl[vpn].perm;
    OneRegion(sp.regions, w.objects, x, r, vpn);
  }

  lemma OneRegion(rs: seq<Region>, ob: map<Oid, Pmo>, x: Region, r: Region, vpn: nat)
    requires RegionsOk(rs, ob) && x in rs && r in rs && PageOf(x, vpn) && PageOf(r, vpn)
    ensures x == r
  {
    var i :| 0 <= i < |rs| && rs[i] == x;
    var j :| 0 <= j < |rs| && rs[j] == r;
  }

  /**
    Two translations that are not stale, in the same or in different spaces, lead to the same frame exactly
    if they are the same page of the same object.
   */
  lemma SameFrameIff(w: World, s: nat, v: nat, r: Region, t: nat, u: nat, q: Region)
    requires Inv(w) && s < |w.spaces| && t < |w.spaces| && v in w.spaces[s].pgtbl && u in w.spaces[t].pgtbl
    requires r in w.spaces[s].regions && PageOf(r, v) && q in w.spaces[t].regions && PageOf(q, u)
    requires !Stale(w.spaces[s], w.objects, v) && !Stale(w.spaces[t], w.objects, u)
    ensures w.spaces[s].pgtbl[v].frame == w.spaces[t].pgtbl[u].frame <==>
              r.pmo == q.pmo && v * PAGE_SIZE - r.start == u * PAGE_SIZE - q.start
  {
    TranslationOf(w, s, v, r);
    TranslationOf(w, t, u, q);
    SpaceFacts(w, s);
    SpaceFacts(w, t);
    assert HasPage(w.objects, r.pmo, Index(r, v)) && HasPage(w.objects, q.pmo, Index(q, u));
  }

  /** So two pages of one region never share a frame. */
  lemma PagesApart(w: World, s: nat, r: Region, v: nat, u: nat)
    requires Inv(w) && s < |w.spaces| && v in w.spaces[s].pgtbl && u in w.spaces[s].pgtbl && v != u
    requires r in w.spaces[s].regions && PageOf(r, v) && PageOf(r, u)
    requires !Stale(w.spaces[s], w.objects, v) && !Stale(w.spaces[s], w.objects, u)
    ensures w.spaces[s].pgtbl[v].frame != w.spaces[s].pgtbl[u].frame
  {
    hide Inv, Stale;
    SameFrameIff(w, s, v, r, s, u, r);
  }

  /** In every state of every run. */
  lemma VmTheorem(ws: seq<World>, es: seq<Event>, i: nat, s: nat)
    requires Run(ws, es) && i < |ws| && s < |ws[i].spaces|
    ensures var rs := ws[i].spaces[s].regions; forall j, k :: 0 <= j < k < |rs| ==> Disjoint(rs[j], rs[k])
    ensures forall vpn :: vpn in ws[i].spaces[s].pgtbl ==>
              || EntryOk(ws[i].spaces[s].regions, ws[i].objects, vpn, ws[i].spaces[s].pgtbl[vpn])
              || InPending(ws[i].spaces[s], vpn)
    ensures FramesOk(ws[i].objects, ws[i].used)
  {
    RunInv(ws, es, i);
    SpaceFacts(ws[i], s);
  }

  // ---- Concurrent faults ---------------------------------------------------------------------------

  /** A space that alone maps an object never finds its page committed by someone else. */
  lemma PrivateCommits(w: World, s: nat)
    requires Inv(w) && s < |w.spaces| && w.spaces[s].phase.Committing? && Private(w, s)
    ensures !CommitBug(w, s)
  {
    SpaceFacts(w, s);
  }

  /**
    Two spaces that fault on the same page of a shared object before either commits it: the second commit is a
    BUG_ON.
   */
  lemma SharedCommitRace(w: World, s: nat, t: nat, f: Frame)
    requires Inv(w) && s < |w.spaces| && t < |w.spaces| && s != t && Enabled(w, FaultCommit(s, f))
    requires w.spaces[t].phase.Committing? && w.spaces[t].phase.region.pmo == w.spaces[s].phase.region.pmo
    requires PageOf(w.spaces[t].phase.region, w.spaces[t].phase.vpn)
    requires Index(w.spaces[t].phase.region, w.spaces[t].phase.vpn) ==
               Index(w.spaces[s].phase.region, w.spaces[s].phase.vpn)
    ensures var w' := Apply(w, FaultCommit(s, f)); w'.spaces[t].phase.Committing? && CommitBug(w', t)
  {
  }

  // ---- The mmap cursor -----------------------------------------------------------------------------

  ghost predicate BelowCursor(sp: Space) {
    forall r :: r in sp.regions ==> End(r) <= sp.mmapAddr
  }

  /** While every region lies below the cursor, vmspace_mmap_with_pmo finds no overlap, and so it stays. */
  lemma MmapFits(w: World, s: nat, len: nat, perm: nat, o: Oid)
    requires Ready(w, s) && BelowCursor(w.spaces[s]) && o in w.objects && len % PAGE_SIZE == 0
    ensures Enabled(w, Mmap(s, len, perm, o)) && BelowCursor(Apply(w, Mmap(s, len, perm, o)).spaces[s])
  {
  }
}
