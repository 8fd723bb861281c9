/**
  What interleaving does to address spaces: exactly when a translation is stale, because its region is gone
  and the page table not yet cleared, and exactly when two faults commit the same page of an object.
 */
module VmSpaceRaces {
  import opened Common
  import opened VmSpace
  import opened VmSpaceInv

  // ---- Stale translations --------------------------------------------------------------------------

  ghost predicate StaleIn(w: World, s: nat, vpn: nat) {
    s < |w.spaces| && Stale(w.spaces[s], w.objects, vpn)
  }

  predicate Mapped(w: World, s: nat, vpn: nat) {
    s < |w.spaces| && vpn in w.spaces[s].pgtbl
  }

  /** The step deletes the region of a mapped page. */
  predicate Uncovers(w: World, e: Event, s: nat, vpn: nat) {
    && e.UnmapDelete? && e.s == s && Mapped(w, s, vpn)
    && var r := FindRegion(w.spaces[s].regions, e.va);
       r.Some? && PageOf(r.value, vpn)
  }

  /** A new region that is backed by just the page that the translation leads to. */
  ghost predicate Restores(w: World, s: nat, r: Region, vpn: nat)
    requires Mapped(w, s, vpn)
  {
    Backed(w.objects, r, vpn, w.spaces[s].pgtbl[vpn].frame) && r.perm == w.spaces[s].pgtbl[vpn].perm
  }

  /** The step clears the translation, replaces it, or maps the same page of the same object again. */
  ghost predicate Renews(w: World, e: Event, s: nat, vpn: nat) {
    && Mapped(w, s, vpn)
    && match e
       case UnmapClear(t, r) => t == s && PageOf(r, vpn)
       case UnmapShm(t, va) => t == s && var r := FindRegion(w.spaces[s].regions, va); r.Some? && PageOf(r.value, vpn)
       case FaultMap(t) => t == s && w.spaces[s].phase.Mapping? && w.spaces[s].phase.vpn == vpn
       case MapRange(t, va, len, perm, o) => t == s && Restores(w, s, Aligned(va, len, perm, o), vpn)
       case Mmap(t, len, perm, o) => t == s && Restores(w, s, Region(w.spaces[s].mmapAddr, len, perm, o), vpn)
       case _ => false
  }

  /** A step gives objects no pages but ones with frames that nobody had. */
  lemma NewPages(w: World, e: Event)
    requires Inv(w) && Enabled(w, e)
    ensures Extends(w.objects, Apply(w, e).objects)
    ensures var ob' := Apply(w, e).objects;
            forall o, i :: HasPage(ob', o, i) && ob'[o].pages[i] in w.used ==>
              HasPage(w.objects, o, i) && w.objects[o].pages[i] == ob'[o].pages[i]
  {
    hide Inv, FindRegion, NoHit;
    match e
    case FaultCommit(s, f) => CommitPages(w, s, f);
    case _ =>
      assert forall o :: o in w.objects ==> Apply(w, e).objects[o].pages == w.objects[o].pages;
  }

  lemma CommitPages(w: World, s: nat, f: Frame)
    requires Enabled(w, FaultCommit(s, f))
    ensures var ob' := Apply(w, FaultCommit(s, f)).objects;
            && Extends(w.objects, ob')
            && forall o, i :: HasPage(ob', o, i) && ob'[o].pages[i] in w.used ==>
                 HasPage(w.objects, o, i) && w.objects[o].pages[i] == ob'[o].pages[i]
  {
  }

  /** A frame that was given out before the step backs a page exactly if it did before. */
  lemma SameBacking(w: World, e: Event, r: Region, vpn: nat, f: Frame)
    requires Inv(w) && Enabled(w, e) && f in w.used
    ensures Backed(Apply(w, e).objects, r, vpn, f) <==> Backed(w.objects, r, vpn, f)
  {
    hide Inv, Apply;
    NewPages(w, e);
    var ob, ob' := w.objects, Apply(w, e).objects;
    if Backed(ob', r, vpn, f) {
      assert HasPage(ob', r.pmo, Index(r, vpn));
    }
    if Backed(ob, r, vpn, f) {
      BackedExtends(ob, ob', r, vpn, f);
    }
  }

  /** The regions that matter are the ones that back the frame. */
  lemma SameEntry(w: World, e: Event, rs: seq<Region>, rs': seq<Region>, vpn: nat, en: Entry)
    requires Inv(w) && Enabled(w, e) && en.frame in w.used
    requires forall r :: Backed(w.objects, r, vpn, en.frame) && r.perm == en.perm ==> (r in rs <==> r in rs')
    ensures EntryOk(rs', Apply(w, e).objects, vpn, en) <==> EntryOk(rs, w.objects, vpn, en)
  {
    hide Inv, Apply, Enabled, Backed;
    var ob' := Apply(w, e).objects;
    forall r: Region
      ensures Backed(ob', r, vpn, en.frame) <==> Backed(w.objects, r, vpn, en.frame)
    {
      SameBacking(w, e, r, vpn, en.frame);
    }
  }

  /** A space whose table and regions a step leaves alone. */
  lemma StaleElsewhere(w: World, e: Event, s: nat, vpn: nat)
    requires Inv(w) && Enabled(w, e) && s < |w.spaces| == |Apply(w, e).spaces|
    requires var sp' := Apply(w, e).spaces[s]; sp'.regions == w.spaces[s].regions && sp'.pgtbl == w.spaces[s].pgtbl
    ensures StaleIn(Apply(w, e), s, vpn) <==> StaleIn(w, s, vpn)
  {
    SpaceFacts(w, s);
    hide Inv, Apply, Enabled, EntryOk, SpaceOk, MappersOk;
    if vpn in w.spaces[s].pgtbl {
      SameEntry(w, e, w.spaces[s].regions, w.spaces[s].regions, vpn, w.spaces[s].pgtbl[vpn]);
    }
  }

  /** A new region makes a translation true again exactly if it is backed by the same page. */
  lemma StaleAdd(w: World, e: Event, r: Region, s: nat, vpn: nat)
    requires Inv(w) && Enabled(w, e) && s < |w.spaces| == |Apply(w, e).spaces| && Mapped(w, s, vpn)
    requires var sp' := Apply(w, e).spaces[s];
             sp'.regions == [r] + w.spaces[s].regions && sp'.pgtbl == w.spaces[s].pgtbl
    ensures StaleIn(Apply(w, e), s, vpn) <==> StaleIn(w, s, vpn) && !Restores(w, s, r, vpn)
  {
    SpaceFacts(w, s);
    hide Inv, Apply, Enabled, SpaceOk, MappersOk, Backed;
    var rs, en := w.spaces[s].regions, w.spaces[s].pgtbl[vpn];
    var ob' := Apply(w, e).objects;
    if Restores(w, s, r, vpn) {
      SameBacking(w, e, r, vpn, en.frame);
      assert r in [r] + rs;
    } else {
      SameEntry(w, e, rs, [r] + rs, vpn, en);
    }
  }

  /** Without its region a translation is stale; the others do not notice. */
  lemma StaleWithout(w: World, e: Event, r: Region, s: nat, vpn: nat)
    requires Inv(w) && Enabled(w, e) && s < |w.spaces| == |Apply(w, e).spaces| && Mapped(w, s, vpn)
    requires r in w.spaces[s].regions
    requires var sp' := Apply(w, e).spaces[s];
             sp'.regions == Without(w.spaces[s].regions, r) && vpn in sp'.pgtbl &&
             sp'.pgtbl[vpn] == w.spaces[s].pgtbl[vpn]
    ensures StaleIn(Apply(w, e), s, vpn) <==> StaleIn(w, s, vpn) || PageOf(r, vpn)
  {
    SpaceFacts(w, s);
    var rs, en := w.spaces[s].regions, w.spaces[s].pgtbl[vpn];
    WithoutRegions(rs, r, w.objects);
    hide Inv, Apply, Enabled, SpaceOk, MappersOk, RegionsOk, Without;
    if PageOf(r, vpn) {
      NotBacked(Without(rs, r), r, Apply(w, e).objects, vpn, en);
    } else {
      assert forall x :: Backed(w.objects, x, vpn, en.frame) ==> x != r;
      hide Backed, EntryOk;
      SameEntry(w, e, rs, Without(rs, r), vpn, en);
    }
  }

  lemma StaleAfterDelete(w: World, e: Event, s: nat, vpn: nat)
    requires Inv(w) && Enabled(w, e) && e.UnmapDelete? && s < |w.spaces|
    ensures StaleIn(Apply(w, e), s, vpn) <==> Uncovers(w, e, s, vpn) || StaleIn(w, s, vpn)
  {
    hide Inv, EntryOk;
    var r := FindRegion(w.spaces[e.s].regions, e.va);
    if e.s == s && r.Some? && Mapped(w, s, vpn) {
      StaleWithout(w, e, r.value, s, vpn);
    } else if e.s != s || r.None? {
      StaleElsewhere(w, e, s, vpn);
    }
  }

  lemma StaleAfterUnmapShm(w: World, e: Event, s: nat, vpn: nat)
    requires Inv(w) && Enabled(w, e) && e.UnmapShm? && s < |w.spaces|
    ensures StaleIn(Apply(w, e), s, vpn) <==> StaleIn(w, s, vpn) && !Renews(w, e, s, vpn)
  {
    hide Inv, EntryOk;
    var r := FindRegion(w.spaces[e.s].regions, e.va);
    if e.s == s && r.Some? {
      if Mapped(w, s, vpn) && !PageOf(r.value, vpn) {
        StaleWithout(w, e, r.value, s, vpn);
      }
    } else {
      StaleElsewhere(w, e, s, vpn);
    }
  }

  lemma StaleAfterClear(w: World, e: Event, s: nat, vpn: nat)
    requires Inv(w) && Enabled(w, e) && e.UnmapClear? && s < |w.spaces|
    ensures StaleIn(Apply(w, e), s, vpn) <==> StaleIn(w, s, vpn) && !Renews(w, e, s, vpn)
  {
    hide Inv, EntryOk;
  }

  lemma StaleAfterMap(w: World, e: Event, s: nat, vpn: nat)
    requires Inv(w) && Enabled(w, e) && e.FaultMap? && s < |w.spaces|
    ensures StaleIn(Apply(w, e), s, vpn) <==> StaleIn(w, s, vpn) && !Renews(w, e, s, vpn)
  {
    SpaceFacts(w, e.s);
    hide Inv;
    var sp := w.spaces[e.s];
    assert EntryOk(sp.regions, w.objects, sp.phase.vpn, Entry(sp.phase.frame, sp.phase.region.perm));
    hide EntryOk, SpaceOk;
  }

  lemma StaleAfterAdd(w: World, e: Event, s: nat, vpn: nat)
    requires Inv(w) && Enabled(w, e) && (e.MapRange? || e.Mmap?) && s < |w.spaces|
    ensures StaleIn(Apply(w, e), s, vpn) <==> StaleIn(w, s, vpn) && !Renews(w, e, s, vpn)
  {
    hide Inv, EntryOk, NoHit, Backed;
    if e.s == s && Mapped(w, s, vpn) {
      var r := if e.MapRange? then Aligned(e.va, e.len, e.perm, e.o) else
            Region(w.spaces[s].mmapAddr, e.len, e.perm, e.o);
      StaleAdd(w, e, r, s, vpn);
    } else if e.s != s {
      StaleElsewhere(w, e, s, vpn);
    }
  }

  /**
    After a step a translation is stale exactly if the step has deleted its region, or if it was stale and
    the step has neither cleared nor replaced it nor mapped the same page there again.
   */
  lemma StaleStep(w: World, e: Event, s: nat, vpn: nat)
    requires Inv(w) && Enabled(w, e) && s < |w.spaces|
    ensures StaleIn(Apply(w, e), s, vpn) <==> Uncovers(w, e, s, vpn) || (StaleIn(w, s, vpn) && !Renews(w, e, s, vpn))
  {
    hide Inv, EntryOk, NoHit, Backed, StaleIn;
    match e
    case UnmapDelete(_, _, _) => StaleAfterDelete(w, e, s, vpn);
    case UnmapShm(_, _) => StaleAfterUnmapShm(w, e, s, vpn);
    case UnmapClear(_, _) => StaleAfterClear(w, e, s, vpn);
    case FaultMap(_) => StaleAfterMap(w, e, s, vpn);
    case MapRange(_, _, _, _, _) => StaleAfterAdd(w, e, s, vpn);
    case Mmap(_, _, _, _) => StaleAfterAdd(w, e, s, vpn);
    case _ => StaleElsewhere(w, e, s, vpn);
  }

  ghost predicate StaleAt(ws: seq<World>, n: nat, s: nat, vpn: nat) {
    n < |ws| && StaleIn(ws[n], s, vpn)
  }

  predicate UncoversAt(ws: seq<World>, es: seq<Event>, n: nat, s: nat, vpn: nat) {
    n < |es| < |ws| && Uncovers(ws[n], es[n], s, vpn)
  }

  ghost predicate RenewsAt(ws: seq<World>, es: seq<Event>, n: nat, s: nat, vpn: nat) {
    n < |es| < |ws| && Renews(ws[n], es[n], s, vpn)
  }

  /** The region of the mapped page has been deleted, and nothing has renewed the translation since. */
  ghost predicate UncoveredSince(ws: seq<World>, es: seq<Event>, j: nat, s: nat, vpn: nat) {
    exists i: nat :: i < j && UncoversAt(ws, es, i, s, vpn) && forall n: nat :: i < n < j ==>
      !RenewsAt(ws, es, n, s, vpn)
  }

  lemma StaleRunStep(ws: seq<World>, es: seq<Event>, n: nat, s: nat, vpn: nat)
    requires Run(ws, es) && n < |es|
    ensures StaleAt(ws, n + 1, s, vpn) <==>
              UncoversAt(ws, es, n, s, vpn) || (StaleAt(ws, n, s, vpn) && !RenewsAt(ws, es, n, s, vpn))
  {
    RunInv(ws, es, n);
    assert Step(ws[n], es[n], ws[n + 1]);
    hide Inv, EntryOk, Careful, Initial;
    SameSpaces(ws[n], es[n]);
    if s < |ws[n].spaces| {
      hide Enabled, Uncovers, Renews, StaleIn, Apply;
      StaleStep(ws[n], es[n], s, vpn);
    }
  }

  lemma SameSpaces(w: World, e: Event)
    requires Enabled(w, e)
    ensures |Apply(w, e).spaces| == |w.spaces|
  {
  }

  lemma SinceStep(ws: seq<World>, es: seq<Event>, j: nat, s: nat, vpn: nat)
    ensures UncoveredSince(ws, es, j + 1, s, vpn) <==>
            UncoversAt(ws, es, j, s, vpn) || (UncoveredSince(ws, es, j, s, vpn) && !RenewsAt(ws, es, j, s, vpn))
  {
    hide UncoversAt, RenewsAt;
    if UncoveredSince(ws, es, j + 1, s, vpn) {
      var i: nat :| i < j + 1 && UncoversAt(ws, es, i, s, vpn) && forall n: nat :: i < n < j + 1 ==>
            !RenewsAt(ws, es, n, s, vpn);
      assert i < j ==> !RenewsAt(ws, es, j, s, vpn);
    }
    if UncoversAt(ws, es, j, s, vpn) {
      assert UncoveredSince(ws, es, j + 1, s, vpn);
    } else if UncoveredSince(ws, es, j, s, vpn) && !RenewsAt(ws, es, j, s, vpn) {
      var i: nat :| i < j && UncoversAt(ws, es, i, s, vpn) && forall n: nat :: i < n < j ==>
            !RenewsAt(ws, es, n, s, vpn);
      assert forall n: nat :: i < n < j + 1 ==> !RenewsAt(ws, es, n, s, vpn);
    }
  }

  /**
    In every state of every run a translation is stale exactly if its region was deleted and it has not been
    renewed since.
   */
  lemma {:induction false} StaleIff(ws: seq<World>, es: seq<Event>, j: nat, s: nat, vpn: nat)
    requires Run(ws, es) && j < |ws|
    ensures StaleAt(ws, j, s, vpn) <==> UncoveredSince(ws, es, j, s, vpn)
  {
    hide Run, StaleAt, UncoversAt, RenewsAt;
    RunLength(ws, es);
    if j == 0 {
      NothingStale(ws, es, s, vpn);
    } else {
      StaleIff(ws, es, j - 1, s, vpn);
      StaleRunStep(ws, es, j - 1, s, vpn);
      SinceStep(ws, es, j - 1, s, vpn);
    }
  }

  lemma NothingStale(ws: seq<World>, es: seq<Event>, s: nat, vpn: nat)
    requires Run(ws, es)
    ensures !StaleAt(ws, 0, s, vpn)
  {
    assert s < |ws[0].spaces| ==> ws[0].spaces[s].pgtbl == map[];
  }

  lemma RunLength(ws: seq<World>, es: seq<Event>)
    requires Run(ws, es)
    ensures |ws| == |es| + 1
  {
  }

  /**
    The first half of vmspace_unmap_range leaves all translations true exactly if none of the region's pages is
    mapped.
   */
  lemma DeleteExact(w: World, e: Event, r: Region)
    requires Inv(w) && Enabled(w, e) && e.UnmapDelete? && FindRegion(w.spaces[e.s].regions, e.va) == Some(r)
    requires forall vpn :: !StaleIn(w, e.s, vpn)
    ensures (forall vpn :: !StaleIn(Apply(w, e), e.s, vpn)) <==>
              forall vpn :: vpn in w.spaces[e.s].pgtbl ==> !PageOf(r, vpn)
  {
    hide Inv, StaleIn, Apply;
    forall vpn: nat
      ensures StaleIn(Apply(w, e), e.s, vpn) <==> Uncovers(w, e, e.s, vpn) || StaleIn(w, e.s, vpn)
    {
      StaleAfterDelete(w, e, e.s, vpn);
    }
    if vpn :| vpn in w.spaces[e.s].pgtbl && PageOf(r, vpn) {
      assert Uncovers(w, e, e.s, vpn);
    }
  }

  /**
    What it leads to: another object mapped at the address before the table is cleared is reached through
    the translation of the old one.
   */
  lemma WrongObject(w: World, s: nat, r: Region, vpn: nat, perm: nat, o: Oid) returns (w1: World, w2: World)
    requires Inv(w) && Ready(w, s) && FindRegion(w.spaces[s].regions, r.start) == Some(r)
    requires r.size > 0 && r.size % PAGE_SIZE == 0 && PageOf(r, vpn) && vpn in w.spaces[s].pgtbl && !StaleIn(w, s, vpn)
    requires o in w.objects && o != r.pmo && forall x :: x in w.spaces[s].regions ==> x.size > 0
    ensures Step(w, UnmapDelete(s, r.start, r.size), w1) && Step(w1, MapRange(s, r.start, r.size, perm, o), w2)
    ensures var q := Region(r.start, r.size, perm, o);
            && s < |w2.spaces| && q in w2.spaces[s].regions && PageOf(q, vpn)
            && vpn in w2.spaces[s].pgtbl && Backed(w2.objects, r, vpn, w2.spaces[s].pgtbl[vpn].frame)
            && !Backed(w2.objects, q, vpn, w2.spaces[s].pgtbl[vpn].frame)
  {
    hide EntryOk, TableOk;
    SpaceFacts(w, s);
    TranslationOf(w, s, vpn, r);
    WithoutRegions(w.spaces[s].regions, r, w.objects);
    var q := Region(r.start, r.size, perm, o);
    w1 := Apply(w, UnmapDelete(s, r.start, r.size));
    assert Aligned(r.start, r.size, perm, o) == q;
    assert NoHit(w1.spaces[s].regions, q) && !Unseen(w1.spaces[s].regions, q) by {
      StillFits(w.spaces[s].regions, r, w.objects, q);
    }
    hide Inv, NoHit, Unseen, RegionsOk;
    w2 := Apply(w1, MapRange(s, r.start, r.size, perm, o));
    assert w2.objects[r.pmo] == w.objects[r.pmo] && w2.objects[o].pages == w.objects[o].pages;
    assert HasPage(w.objects, r.pmo, Index(r, vpn));
  }

  /** Where a region has been, one of the same size fits. */
  lemma StillFits(rs: seq<Region>, r: Region, ob: map<Oid, Pmo>, q: Region)
    requires RegionsOk(rs, ob) && r in rs && q.start == r.start && q.size == r.size && r.size > 0
    requires r.size % PAGE_SIZE == 0
    requires forall x :: x in rs ==> x.size > 0
    ensures NoHit(Without(rs, r), q) && !Unseen(Without(rs, r), q)
  {
    WithoutRegions(rs, r, ob);
    NothingUnseen(Without(rs, r), q, ob);
    forall x | x in Without(rs, r)
      ensures !Hits(q, x)
    {
      assert Disjoint(x, r);
    }
  }

  // ---- Two faults on one page ----------------------------------------------------------------------

  /** Another space commits the page of the object that t is about to commit. */
  predicate CommitsFirst(w: World, e: Event, t: nat) {
    && e.FaultCommit? && e.s != t && e.s < |w.spaces| && t < |w.spaces|
    && var p, q := w.spaces[e.s].phase, w.spaces[t].phase;
       && p.Committing? && q.Committing? && p.region.pmo == q.region.pmo
       && PageOf(p.region, p.vpn) && PageOf(q.region, q.vpn) && Index(p.region, p.vpn) == Index(q.region, q.vpn)
  }

  predicate CommittingIn(w: World, t: nat) {
    t < |w.spaces| && w.spaces[t].phase.Committing?
  }

  /** While t is about to commit a page, its commit becomes a BUG_ON exactly by another space's commit of that page. */
  lemma CommitBugStep(w: World, e: Event, t: nat)
    requires Inv(w) && Enabled(w, e) && CommittingIn(w, t) && !(e.FaultCommit? && e.s == t)
    ensures CommittingIn(Apply(w, e), t) && Apply(w, e).spaces[t].phase == w.spaces[t].phase
    ensures CommitBug(Apply(w, e), t) <==> CommitBug(w, t) || CommitsFirst(w, e, t)
  {
    SpaceFacts(w, t);
    if e.FaultCommit? { SpaceFacts(w, e.s); }
    hide Inv, TableOk, FindRegion, NoHit;
  }

  ghost predicate CommitBugAt(ws: seq<World>, n: nat, t: nat) {
    n < |ws| && CommittingIn(ws[n], t) && CommitBug(ws[n], t)
  }

  predicate CommitsFirstAt(ws: seq<World>, es: seq<Event>, n: nat, t: nat) {
    n < |es| < |ws| && CommitsFirst(ws[n], es[n], t)
  }

  predicate OwnCommitAt(es: seq<Event>, n: nat, t: nat) {
    n < |es| && es[n].FaultCommit? && es[n].s == t
  }

  /** In step i of the run t faults and finds no page. */
  predicate FindsNoneAt(ws: seq<World>, es: seq<Event>, i: nat, t: nat) {
    i < |es| && i + 1 < |ws| && es[i].FaultFind? && es[i].s == t && CommittingIn(ws[i + 1], t)
  }

  ghost predicate CommittingAt(ws: seq<World>, n: nat, t: nat) {
    n < |ws| && CommittingIn(ws[n], t)
  }

  /**
    From the fault of t on, until t commits: its commit is a BUG_ON exactly if another space has committed
    the same page of the same object in between.
   */
  lemma {:induction false} CommitBugIff(ws: seq<World>, es: seq<Event>, i: nat, j: nat, t: nat)
    requires Run(ws, es) && FindsNoneAt(ws, es, i, t) && i < j < |ws|
    requires forall n: nat :: i < n < j ==> !OwnCommitAt(es, n, t)
    ensures CommittingAt(ws, j, t)
    ensures CommitBugAt(ws, j, t) <==> exists n: nat :: i < n < j && CommitsFirstAt(ws, es, n, t)
  {
    if j == i + 1 {
      FoundNone(ws, es, i, t);
    } else {
      RunLength(ws, es);
      hide Run, FindsNoneAt, CommitsFirstAt, OwnCommitAt, CommittingAt, CommitBugAt;
      CommitBugIff(ws, es, i, j - 1, t);
      CommitBugRunStep(ws, es, j - 1, t);
      assert forall n: nat :: i < n < j && CommitsFirstAt(ws, es, n, t) ==> n == j - 1 || n < j - 1;
    }
  }

  lemma FoundNone(ws: seq<World>, es: seq<Event>, i: nat, t: nat)
    requires Run(ws, es) && FindsNoneAt(ws, es, i, t)
    ensures CommittingAt(ws, i + 1, t) && !CommitBugAt(ws, i + 1, t)
  {
    RunInv(ws, es, i);
    assert Step(ws[i], es[i], ws[i + 1]);
    SpaceFacts(ws[i], t);
    hide Inv;
    var addr := es[i].addr;
    assert addr / PAGE_SIZE * PAGE_SIZE == addr - addr % PAGE_SIZE;
  }

  lemma CommitBugRunStep(ws: seq<World>, es: seq<Event>, n: nat, t: nat)
    requires Run(ws, es) && n < |es| && CommittingAt(ws, n, t) && !OwnCommitAt(es, n, t)
    ensures CommittingAt(ws, n + 1, t)
    ensures CommitBugAt(ws, n + 1, t) <==> CommitBugAt(ws, n, t) || CommitsFirstAt(ws, es, n, t)
  {
    RunInv(ws, es, n);
    assert Step(ws[n], es[n], ws[n + 1]);
    hide Inv, Enabled, Careful, CommitBug, CommitsFirst, Apply;
    CommitBugStep(ws[n], es[n], t);
  }

  /** Four steps from the start: a space maps a new object and faults on its page. */
  lemma OneMapper(w: World, s: nat, o: Oid, va: nat, perm: nat, f: Frame)
    returns (w1: World, w2: World, w3: World, w4: World)
    requires Initial(w) && s < |w.spaces| && f !in w.used && f > 0
    ensures Step(w, NewObject(o, PAGE_SIZE, false), w1) && Step(w1, MapRange(s, va, PAGE_SIZE, perm, o), w2)
    ensures Step(w2, FaultFind(s, va), w3) && Step(w3, FaultCommit(s, f), w4)
    ensures s < |w4.spaces| && w4.spaces[s].regions == [Aligned(va, PAGE_SIZE, perm, o)]
    ensures w4.spaces[s].phase == Mapping(va / PAGE_SIZE, Aligned(va, PAGE_SIZE, perm, o), f)
  {
    w1 := Apply(w, NewObject(o, PAGE_SIZE, false));
    w2 := Apply(w1, MapRange(s, va, PAGE_SIZE, perm, o));
    FaultFinds(w2, s, o, va, perm);
    w3 := Apply(w2, FaultFind(s, va));
    hide Initial, FindRegion;
    w4 := Apply(w3, FaultCommit(s, f));
  }

  /** Six steps from the start: the page is mapped, its region is deleted, and the translation is stale. */
  lemma StaleReachable(w: World, s: nat, o: Oid, va: nat, perm: nat, f: Frame)
    returns (w1: World, w2: World, w3: World, w4: World, w5: World, w6: World)
    requires Initial(w) && s < |w.spaces| && f !in w.used && f > 0 && va % PAGE_SIZE == 0
    ensures Step(w, NewObject(o, PAGE_SIZE, false), w1) && Step(w1, MapRange(s, va, PAGE_SIZE, perm, o), w2)
    ensures Step(w2, FaultFind(s, va), w3) && Step(w3, FaultCommit(s, f), w4) && Step(w4, FaultMap(s), w5)
    ensures Step(w5, UnmapDelete(s, va, PAGE_SIZE), w6) && StaleIn(w6, s, va / PAGE_SIZE)
  {
    w1, w2, w3, w4 := OneMapper(w, s, o, va, perm, f);
    w5 := Apply(w4, FaultMap(s));
    w6 := Apply(w5, UnmapDelete(s, va, PAGE_SIZE));
    assert FindRegion(w5.spaces[s].regions, va) == Some(Region(va, PAGE_SIZE, perm, o));
    NotBacked([], Region(va, PAGE_SIZE, perm, o), w6.objects, va / PAGE_SIZE, Entry(f, perm));
  }

  /** Two spaces map a new object. */
  lemma TwoMappers(w: World, s: nat, t: nat, o: Oid, va: nat, perm: nat) returns (w1: World, w2: World, w3: World)
    requires Initial(w) && s < |w.spaces| && t < |w.spaces| && s != t
    ensures Step(w, NewObject(o, PAGE_SIZE, true), w1)
    ensures Step(w1, MapRange(s, va, PAGE_SIZE, perm, o), w2) && Step(w2, MapRange(t, va, PAGE_SIZE, perm, o), w3)
    ensures |w3.spaces| == |w.spaces| && w3.used == w.used && o in w3.objects && w3.objects[o].size == PAGE_SIZE
    ensures w3.objects[o].pages == map[]
    ensures forall u :: u == s || u == t ==>
              w3.spaces[u].phase == Unlocked && w3.spaces[u].regions == [Aligned(va, PAGE_SIZE, perm, o)]
  {
    w1 := Apply(w, NewObject(o, PAGE_SIZE, true));
    w2 := Apply(w1, MapRange(s, va, PAGE_SIZE, perm, o));
    assert w2.spaces[t].regions == [];
    w3 := Apply(w2, MapRange(t, va, PAGE_SIZE, perm, o));
  }

  /** A fault on the one page of a new object finds nothing to map. */
  lemma FaultFinds(w: World, s: nat, o: Oid, va: nat, perm: nat)
    requires s < |w.spaces| && w.spaces[s].phase == Unlocked && w.spaces[s].regions == [Aligned(va, PAGE_SIZE, perm, o)]
    requires o in w.objects && w.objects[o].size == PAGE_SIZE && w.objects[o].pages == map[]
    ensures Enabled(w, FaultFind(s, va)) && Careful(w, FaultFind(s, va))
    ensures Apply(w, FaultFind(s, va)) ==
              SetSpace(w, s, w.spaces[s].(phase := Committing(va / PAGE_SIZE, Aligned(va, PAGE_SIZE, perm, o))))
    ensures PageOf(Aligned(va, PAGE_SIZE, perm, o), va / PAGE_SIZE)
  {
    assert va / PAGE_SIZE * PAGE_SIZE == va - va % PAGE_SIZE;
    assert FindRegion(w.spaces[s].regions, va) == Some(Aligned(va, PAGE_SIZE, perm, o));
  }

  /** Six steps from the start: two spaces fault on the page of a shared object, and the second commit is a BUG_ON. */
  lemma CommitBugReachable(w: World, s: nat, t: nat, o: Oid, va: nat, perm: nat, f: Frame)
    returns (w1: World, w2: World, w3: World, w4: World, w5: World, w6: World)
    requires Initial(w) && s < |w.spaces| && t < |w.spaces| && s != t && f !in w.used && f > 0
    ensures Step(w, NewObject(o, PAGE_SIZE, true), w1)
    ensures Step(w1, MapRange(s, va, PAGE_SIZE, perm, o), w2) && Step(w2, MapRange(t, va, PAGE_SIZE, perm, o), w3)
    ensures Step(w3, FaultFind(s, va), w4) && Step(w4, FaultFind(t, va), w5) && Step(w5, FaultCommit(s, f), w6)
    ensures CommittingIn(w6, t) && CommitBug(w6, t)
  {
    w1, w2, w3 := TwoMappers(w, s, t, o, va, perm);
    hide Initial, Step, Careful, FindRegion;
    FaultFinds(w3, s, o, va, perm);
    w4 := Apply(w3, FaultFind(s, va));
    FaultFinds(w4, t, o, va, perm);
    w5 := Apply(w4, FaultFind(t, va));
    w6 := CommitBoth(w5, s, t, o, va / PAGE_SIZE, Aligned(va, PAGE_SIZE, perm, o), f);
    assert Step(w3, FaultFind(s, va), w4) &&
           Step(w4, FaultFind(t, va), w5) by { StepOf(w3, FaultFind(s, va)); StepOf(w4, FaultFind(t, va)); }
  }

  lemma StepOf(w: World, e: Event)
    requires Enabled(w, e) && Careful(w, e)
    ensures Step(w, e, Apply(w, e))
  {
  }

  lemma CommitBoth(w: World, s: nat, t: nat, o: Oid, vpn: nat, r: Region, f: Frame) returns (w': World)
    requires s < |w.spaces| && t < |w.spaces| && s != t && f !in w.used && f > 0 && r.pmo == o && PageOf(r, vpn)
    requires w.spaces[s].phase == Committing(vpn, r) && w.spaces[t].phase == Committing(vpn, r)
    requires o in w.objects && w.objects[o].pages == map[]
    ensures Step(w, FaultCommit(s, f), w') && CommittingIn(w', t) && CommitBug(w', t)
  {
    w' := Apply(w, FaultCommit(s, f));
  }

  // ---- A lock that is never released ---------------------------------------------------------------

  predicate StuckIn(w: World, s: nat) {
    s < |w.spaces| && w.spaces[s].phase.Stuck?
  }

  /** A fault, or an unmapping of a range, at an address without a region. */
  predicate Misses(w: World, e: Event, s: nat) {
    && s < |w.spaces|
    && match e
       case FaultFind(t, addr) => t == s && FindRegion(w.spaces[s].regions, addr).None?
       case UnmapDelete(t, va, _) => t == s && FindRegion(w.spaces[s].regions, va).None?
       case _ => false
  }

  lemma StuckStep(w: World, e: Event, s: nat)
    requires Enabled(w, e)
    ensures StuckIn(Apply(w, e), s) <==> StuckIn(w, s) || Misses(w, e, s)
  {
    hide FindRegion, NoHit;
  }

  ghost predicate StuckAt(ws: seq<World>, n: nat, s: nat) {
    n < |ws| && StuckIn(ws[n], s)
  }

  predicate MissesAt(ws: seq<World>, es: seq<Event>, n: nat, s: nat) {
    n < |es| < |ws| && Misses(ws[n], es[n], s)
  }

  /**
    In every run a space is stuck exactly if some earlier fault or unmapping found no region, and so it stays
    stuck.
   */
  lemma {:induction false} StuckIff(ws: seq<World>, es: seq<Event>, j: nat, s: nat)
    requires Run(ws, es) && j < |ws|
    ensures StuckAt(ws, j, s) <==> exists i: nat :: i < j && MissesAt(ws, es, i, s)
  {
    hide Run, StuckAt, MissesAt;
    if j == 0 {
      StartsFree(ws, es, s);
    } else {
      RunLength(ws, es);
      StuckIff(ws, es, j - 1, s);
      StuckRunStep(ws, es, j - 1, s);
      assert forall i: nat :: i < j && MissesAt(ws, es, i, s) ==> i == j - 1 || i < j - 1;
    }
  }

  lemma StartsFree(ws: seq<World>, es: seq<Event>, s: nat)
    requires Run(ws, es)
    ensures !StuckAt(ws, 0, s)
  {
  }

  lemma StuckRunStep(ws: seq<World>, es: seq<Event>, n: nat, s: nat)
    requires Run(ws, es) && n < |es|
    ensures StuckAt(ws, n + 1, s) <==> StuckAt(ws, n, s) || MissesAt(ws, es, n, s)
  {
    assert Step(ws[n], es[n], ws[n + 1]);
    hide Careful, Apply, Enabled;
    StuckStep(ws[n], es[n], s);
  }

  /** A stuck space takes no step of its own but for clearing its page table. */
  lemma StuckRefuses(w: World, e: Event, s: nat)
    requires StuckIn(w, s) && Enabled(w, e) && !e.NewObject? && e.s == s
    ensures e.UnmapClear?
  {
  }
}
