/** The code of address spaces and of the page-fault handler, proved to take the steps of VmSpace. */
module VmSpaceKernel {
  import opened Common
  import opened VmSpace
  import opened VmSpaceInv

  class VmCore {
    var spaces: seq<Space>
    var objects: map<Oid, Pmo>
    ghost var used: set<Frame>

    ghost function W(): World
      reads this
    {
      World(spaces, objects, used)
    }

    /** check_vmr_intersect */
    method CheckVmrIntersect(s: nat, r: Region) returns (hit: bool)
      requires s < |spaces|
      ensures hit <==> !NoHit(spaces[s].regions, r)
    {
      if r.size == 0 {
        return false;
      }
      var newEnd := r.start + r.size - 1;
      var rs := spaces[s].regions;
      for i := 0 to |rs|
        invariant forall j :: 0 <= j < i ==> !Hits(r, rs[j])
      {
        var start, end := rs[i].start, rs[i].start + rs[i].size;
        if !(r.start >= end || newEnd <= start) {
          assert rs[i] in rs && Hits(r, rs[i]);
          return true;
        }
      }
      return false;
    }

    /** find_vmr_for_va */
    method FindVmrForVa(s: nat, addr: nat) returns (r: Option<Region>)
      requires s < |spaces|
      ensures r == FindRegion(spaces[s].regions, addr)
    {
      var rs := spaces[s].regions;
      for i := 0 to |rs|
        invariant FindRegion(rs, addr) == FindRegion(rs[i..], addr)
      {
        assert rs[i..][0] == rs[i] && rs[i..][1..] == rs[i + 1..];
        if addr >= rs[i].start && addr < rs[i].start + rs[i].size {
          return Some(rs[i]);
        }
      }
      return None;
    }

    /** vmspace_map_range; an overlap that the check sees is its BUG_ON. */
    method VmspaceMapRange(s: nat, va: nat, len: nat, perm: nat, o: Oid, memory: bool) returns (ret: int)
      requires Inv(W()) && Enabled(W(), MapRange(s, va, len, perm, o))
      modifies this
      ensures ret == if memory then 0 else -ENOMEM
      ensures W() == if memory then Apply(old(W()), MapRange(s, va, len, perm, o)) else old(W())
      ensures Inv(W()) <==> !memory || !Unseen(old(spaces[s].regions), Aligned(va, len, perm, o))
    {
      hide Inv;
      KeptIff(W(), MapRange(s, va, len, perm, o));
      var start, size := va - va % PAGE_SIZE, len;
      if size < PAGE_SIZE {
        size := PAGE_SIZE;
      }
      if !memory {
        return -ENOMEM;
      }
      var r := Region(start, size, perm, o);
      var hit := CheckVmrIntersect(s, r);
      assert !hit;
      spaces := spaces[s := spaces[s].(regions := [r] + spaces[s].regions)];
      objects := objects[o := objects[o].(mappers := objects[o].mappers + {s})];
      return 0;
    }

    /** vmspace_mmap_with_pmo: the region at the cursor, which only moves up. */
    method VmspaceMmapWithPmo(s: nat, len: nat, perm: nat, o: Oid) returns (addr: nat)
      requires Inv(W()) && Enabled(W(), Mmap(s, len, perm, o))
      modifies this
      ensures Inv(W()) && W() == Apply(old(W()), Mmap(s, len, perm, o))
      ensures addr == old(spaces[s].mmapAddr) && addr % PAGE_SIZE == 0
    {
      hide Inv;
      KeptIff(W(), Mmap(s, len, perm, o));
      SpaceFacts(W(), s);
      addr := spaces[s].mmapAddr;
      spaces := spaces[s := spaces[s].(mmapAddr := spaces[s].mmapAddr + len)];
      var r := Region(addr, len, perm, o);
      var hit := CheckVmrIntersect(s, r);
      assert !hit;
      spaces := spaces[s := spaces[s].(regions := [r] + spaces[s].regions)];
      objects := objects[o := objects[o].(mappers := objects[o].mappers + {s})];
      assert spaces == Apply(old(W()), Mmap(s, len, perm, o)).spaces;
    }

    /** vmspace_unmap_shm_vmr */
    method VmspaceUnmapShmVmr(s: nat, va: nat) returns (ret: int)
      requires Inv(W()) && Enabled(W(), UnmapShm(s, va))
      modifies this
      ensures Inv(W()) && W() == Apply(old(W()), UnmapShm(s, va))
      ensures ret == if FindRegion(old(spaces[s].regions), va).Some? then 0 else -EINVAL
    {
      hide Inv;
      KeptIff(W(), UnmapShm(s, va));
      var r := FindVmrForVa(s, va);
      if r.None? {
        return -EINVAL;
      }
      spaces := spaces[s := spaces[s].(pgtbl := Cleared(spaces[s].pgtbl, r.value))];
      spaces := spaces[s := spaces[s].(regions := Without(spaces[s].regions, r.value))];
      assert spaces == Apply(old(W()), UnmapShm(s, va)).spaces;
      return 0;
    }

    /** vmspace_unmap_range up to its unlock: the region is deleted, its translations are still there. */
    method UnmapRangeDelete(s: nat, va: nat, len: nat) returns (ret: int, r: Option<Region>)
      requires Inv(W()) && Enabled(W(), UnmapDelete(s, va, len))
      modifies this
      ensures W() == Apply(old(W()), UnmapDelete(s, va, len))
      ensures r == FindRegion(old(spaces[s].regions), va) && ret == if r.Some? then 0 else -1
      ensures Inv(W()) <==> len != 0 || r.None? || !LeftBehind(old(spaces[s]), r.value)
    {
      hide Inv, LeftBehind;
      KeptIff(W(), UnmapDelete(s, va, len));
      r := FindVmrForVa(s, va);
      if r.None? {
        spaces := spaces[s := spaces[s].(phase := Stuck)];
        return -1, r;
      }
      spaces := spaces[s := spaces[s].(regions := Without(spaces[s].regions, r.value))];
      if len != 0 {
        spaces := spaces[s := spaces[s].(pending := spaces[s].pending + multiset{r.value})];
      }
      assert spaces == Apply(old(W()), UnmapDelete(s, va, len)).spaces;
      ret := 0;
    }

    /** The rest of vmspace_unmap_range, under the page table's lock: afterwards no page of the range is mapped. */
    method UnmapRangeClear(s: nat, r: Region)
      requires Inv(W()) && Enabled(W(), UnmapClear(s, r))
      modifies this
      ensures Inv(W()) && W() == Apply(old(W()), UnmapClear(s, r))
      ensures |spaces| == |old(spaces)| && forall vpn :: vpn in spaces[s].pgtbl ==> !PageOf(r, vpn)
    {
      hide Inv;
      KeptIff(W(), UnmapClear(s, r));
      spaces := spaces[s := spaces[s].(pgtbl := Cleared(spaces[s].pgtbl, r))];
      spaces := spaces[s := spaces[s].(pending := spaces[s].pending - multiset{r})];
      assert spaces == Apply(old(W()), UnmapClear(s, r)).spaces;
    }

    /** The object's page behind the fault, committed if it is not there yet. */
    method PageFor(s: nat, addr: nat, r: Region, vpn: nat, frame: Frame) returns (pa: Frame, ghost k: nat)
      requires Inv(W()) && Enabled(W(), FaultFind(s, addr)) && FindRegion(spaces[s].regions, addr) == Some(r)
      requires vpn == addr / PAGE_SIZE && vpn * PAGE_SIZE == addr - addr % PAGE_SIZE && frame !in used && frame > 0
      modifies this
      ensures Inv(W()) && |spaces| == |old(spaces)|
      ensures spaces == old(spaces)[s := old(spaces[s]).(phase := Mapping(vpn, r, pa))]
      ensures Extends(old(objects), objects) && objects.Keys == old(objects.Keys)
      ensures r.start + k * PAGE_SIZE == addr - addr % PAGE_SIZE
      ensures Provides(old(objects), objects, r.pmo, k, frame, pa)
    {
      hide Inv, Careful, FindRegion;
      RegionAligned(W(), s, r);
      ghost var w := W();
      KeptIff(w, FaultFind(s, addr));
      FindCareful(w, s, addr);
      var index := (addr - addr % PAGE_SIZE - r.start) / PAGE_SIZE;
      k := index;
      assert index == Index(r, vpn);
      if index in objects[r.pmo].pages {
        pa := objects[r.pmo].pages[index];
        spaces := spaces[s := spaces[s].(phase := Mapping(vpn, r, pa))];
        return;
      }
      pa := frame;
      spaces := spaces[s := spaces[s].(phase := Committing(vpn, r))];
      ghost var w1 := W();
      assert w1 == Apply(w, FaultFind(s, addr));
      assert Enabled(w1, FaultCommit(s, frame));
      KeptIff(w1, FaultCommit(s, frame));
      Carefully(w1, s, frame);
      objects := objects[r.pmo := objects[r.pmo].(pages := objects[r.pmo].pages[index := pa])];
      used := used + {frame};
      spaces := spaces[s := spaces[s].(phase := Mapping(vpn, r, pa))];
      assert W() == Apply(w1, FaultCommit(s, frame));
    }

    /**
      handle_trans_fault, when no other space touches the object meanwhile: the page that faulted is then
      mapped to its object's page, which is the old one if there was one. Without a region the lock stays taken.
     */
    method HandleTransFault(s: nat, addr: nat, frame: Frame) returns (ret: int)
      requires Inv(W()) && Enabled(W(), FaultFind(s, addr)) && frame !in used && frame > 0
      modifies this
      ensures Inv(W()) && |spaces| == |old(spaces)| && spaces[s].regions == old(spaces[s].regions)
      ensures FindRegion(old(spaces[s].regions), addr).None? ==>
                ret == -ENOMAPPING && spaces[s].phase.Stuck? && spaces[s].pgtbl == old(spaces[s].pgtbl)
      ensures FindRegion(old(spaces[s].regions), addr).Some? ==>
                && ret == 0 && spaces[s].phase.Unlocked?
                && addr / PAGE_SIZE in spaces[s].pgtbl
                && var r, en := FindRegion(old(spaces[s].regions), addr).value, spaces[s].pgtbl[addr / PAGE_SIZE];
                && spaces[s].pgtbl == old(spaces[s].pgtbl)[addr / PAGE_SIZE := en]
                && en.perm == r.perm && Backed(objects, r, addr / PAGE_SIZE, en.frame)
                && exists k :: r.start + k * PAGE_SIZE == addr - addr % PAGE_SIZE
                               && Provides(old(objects), objects, r.pmo, k, frame, en.frame)
      ensures Extends(old(objects), objects) && objects.Keys == old(objects.Keys)
    {
      hide Inv, Careful, Extends;
      ghost var w := W();
      SpaceFacts(w, s);
      SameObjects(objects);
      KeptIff(w, FaultFind(s, addr));
      FindCareful(w, s, addr);
      var vmr := FindVmrForVa(s, addr);
      if vmr.None? {
        spaces := spaces[s := spaces[s].(phase := Stuck)];
        return -ENOMAPPING;
      }
      var r := vmr.value;
      var vpn := addr / PAGE_SIZE;
      assert vpn * PAGE_SIZE == addr - addr % PAGE_SIZE;
      var pa, k := PageFor(s, addr, r, vpn, frame);
      SpaceFacts(W(), s);
      KeptIff(W(), FaultMap(s));
      Carefully(W(), s, 0);
      spaces := spaces[s := spaces[s].(pgtbl := spaces[s].pgtbl[vpn := Entry(pa, r.perm)], phase := Unlocked)];
      return 0;
    }
  }

  /**
    pa is page k of the object, which is the old one if there was one and otherwise the frame; nothing else
    changes.
   */
  ghost predicate Provides(ob: map<Oid, Pmo>, ob': map<Oid, Pmo>, o: Oid, k: nat, frame: Frame, pa: Frame) {
    && o in ob && o in ob' && k in ob'[o].pages && ob'[o].pages[k] == pa
    && if k in ob[o].pages then ob' == ob else pa == frame && ob' == ob[o := ob[o].(pages := ob[o].pages[k := frame])]
  }

  lemma RegionAligned(w: World, s: nat, r: Region)
    requires Inv(w) && s < |w.spaces| && r in w.spaces[s].regions
    ensures r.start % PAGE_SIZE == 0
  {
    SpaceFacts(w, s);
  }

  lemma FindCareful(w: World, s: nat, addr: nat)
    ensures Enabled(w, FaultFind(s, addr)) ==> Careful(w, FaultFind(s, addr))
  {
  }

  lemma Carefully(w: World, s: nat, f: Frame)
    ensures Enabled(w, FaultCommit(s, f)) ==> Careful(w, FaultCommit(s, f))
    ensures Enabled(w, FaultMap(s)) ==> Careful(w, FaultMap(s))
  {
  }
}
