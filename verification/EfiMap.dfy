/**
  The virtual map of the EFI runtime regions: the memory map is sorted by physical address and then walked
  once, giving each runtime region the next virtual range. It is the input of SetVirtualAddressMap, section
  7.4 of the UEFI Specification, version 2.6.
 */
module EfiMap {
  import opened Heapsort

  const EFI_PAGE_SIZE: nat := 4096
  const SZ_64K: nat := 0x1_0000
  const SZ_2M: nat := 0x20_0000
  const EFI_RT_VIRTUAL_BASE: nat := 0x2000_0000

  /** A descriptor; runtime is EFI_MEMORY_RUNTIME, and memType the WB, WT, WC and UC bits of the attribute. */
  datatype Desc = Desc(phys: nat, pages: nat, runtime: bool, memType: nat, virt: nat)

  function Size(d: Desc): nat {
    d.pages * EFI_PAGE_SIZE
  }

  function PhysEnd(d: Desc): nat {
    d.phys + Size(d)
  }

  function VirtEnd(d: Desc): nat {
    d.virt + Size(d)
  }

  /** cmp_mem_desc, which never says equal. */
  function CmpMemDesc(l: Desc, r: Desc): int {
    if l.phys > r.phys then 1 else -1
  }

  function Phys(d: Desc): int {
    d.phys
  }

  lemma CmpAgrees()
    ensures Agrees(CmpMemDesc, Phys)
  {
  }

  /** regions_are_adjacent and regions_have_compatible_memory_type_attrs */
  predicate Continues(left: Desc, right: Desc) {
    PhysEnd(left) == right.phys && left.runtime == right.runtime && left.memType == right.memType
  }

  function RoundDown(x: nat, y: nat): nat
    requires y > 0
  {
    x - x % y
  }

  function RoundUp(x: nat, y: nat): nat
    requires y > 0
  {
    RoundDown(x + y - 1, y)
  }

  lemma RoundUpFacts(x: nat, y: nat)
    requires y in {SZ_64K, SZ_2M}
    ensures RoundUp(x, y) % y == 0 && RoundUp(x, y) % SZ_64K == 0 && x <= RoundUp(x, y) < x + y
  {
  }

  // ---- What the map should be ----------------------------------------------------------------------

  /** The same descriptor but for its virtual address. */
  predicate SameRegion(a: Desc, b: Desc) {
    a == b.(virt := a.virt)
  }

  /** Each runtime region lies above those before it, and its address agrees with the physical one in a 64K page. */
  ghost predicate Placed(ds: seq<Desc>, k: nat) {
    && k <= |ds|
    && (forall i :: 0 <= i < k && ds[i].runtime ==>
          ds[i].virt >= EFI_RT_VIRTUAL_BASE && ds[i].virt % SZ_64K == ds[i].phys % SZ_64K)
    && (forall i, j :: 0 <= i < j < k && ds[i].runtime && ds[j].runtime ==> VirtEnd(ds[i]) <= ds[j].virt)
  }

  /** The region starts a run of regions that belong together. */
  predicate Starts(ds: seq<Desc>, i: nat)
    requires i < |ds|
  {
    i == 0 || !Continues(ds[i - 1], ds[i])
  }

  predicate Section(d: Desc) {
    d.phys % SZ_2M == 0 && Size(d) >= SZ_2M
  }

  /**
    A runtime region that continues the descriptor before it does so virtually; otherwise it begins a 64K page of its
    own, and on a section boundary if it is fit for sections.
   */
  ghost predicate Linked(ds: seq<Desc>, k: nat) {
    && k <= |ds|
    && (forall i: nat {:trigger Starts(ds, i)} :: i < k && ds[i].runtime && !Starts(ds, i) ==>
          ds[i].virt == VirtEnd(ds[i - 1]))
    && (forall i: nat {:trigger Starts(ds, i)} :: i < k && ds[i].runtime && Starts(ds, i) && Section(ds[i]) ==>
          ds[i].virt % SZ_2M == 0)
    && (forall i: nat, j: nat {:trigger Fresh(ds, i), ds[j]} :: j < i < k && Fresh(ds, i) && ds[j].runtime ==>
          VirtEnd(ds[j]) <= RoundDown(ds[i].virt, SZ_64K))
  }

  predicate Fresh(ds: seq<Desc>, i: nat)
    requires i < |ds|
  {
    ds[i].runtime && Starts(ds, i)
  }

  function Runtime(ds: seq<Desc>): seq<Desc> {
    if ds == [] then []
    else Runtime(ds[..|ds| - 1]) + if ds[|ds| - 1].runtime then [ds[|ds| - 1]] else []
  }

  // ---- The walk ------------------------------------------------------------------------------------

  /** The state of the walk before descriptor k. */
  ghost predicate Walked(sorted: seq<Desc>, ds: seq<Desc>, k: nat, base: nat) {
    && |ds| == |sorted| && Placed(ds, k) && Linked(ds, k) && base >= EFI_RT_VIRTUAL_BASE
    && (forall i :: 0 <= i < |ds| ==> SameRegion(ds[i], sorted[i]))
    && (forall i :: 0 <= i < k && ds[i].runtime ==> VirtEnd(ds[i]) <= base)
    && (k > 0 && ds[k - 1].runtime ==> base == VirtEnd(ds[k - 1]))
  }

  lemma WalkSkip(sorted: seq<Desc>, ds: seq<Desc>, k: nat, base: nat)
    requires Walked(sorted, ds, k, base) && k < |ds| && !ds[k].runtime
    ensures Walked(sorted, ds, k + 1, base)
  {
  }

  /** One runtime region gets the virtual address v. */
  lemma WalkStep(sorted: seq<Desc>, ds: seq<Desc>, k: nat, base: nat, v: nat)
    requires Walked(sorted, ds, k, base) && k < |ds| && ds[k].runtime
    requires base <= v && v % SZ_64K == ds[k].phys % SZ_64K
    requires !Starts(ds, k) ==> v == base
    requires Starts(ds, k) && Section(ds[k]) ==> v % SZ_2M == 0
    requires Starts(ds, k) ==> base <= RoundDown(v, SZ_64K)
    ensures Walked(sorted, ds[k := ds[k].(virt := v)], k + 1, v + Size(ds[k]))
  {
    var ds' := ds[k := ds[k].(virt := v)];
    assert forall i :: 0 <= i < |ds| && i != k ==> ds'[i] == ds[i];
    forall i: nat | i <= k
      ensures Starts(ds', i) == Starts(ds, i) && Fresh(ds', i) == Fresh(ds, i)
    {
    }
    if !Starts(ds, k) {
      assert ds[k - 1].runtime;
    }
  }

  lemma {:induction false} RuntimeStep(ds: seq<Desc>, k: nat)
    requires k < |ds|
    ensures Runtime(ds[..k + 1]) == Runtime(ds[..k]) + if ds[k].runtime then [ds[k]] else []
  {
    assert ds[..k + 1][..k] == ds[..k];
  }

  /** The address of a region that starts a run. */
  lemma NewRun(d: Desc, base: nat)
    ensures var paddr := RoundDown(d.phys, SZ_64K);
            var size := Size(d) + (d.phys - paddr);
            var from := RoundUp(base, if d.phys % SZ_2M == 0 && size >= SZ_2M then SZ_2M else SZ_64K);
            var v := from + (d.phys - paddr);
            && paddr <= d.phys && base <= v && v % SZ_64K == d.phys % SZ_64K
            && (Section(d) ==> v % SZ_2M == 0) && from + size == v + Size(d)
            && base <= RoundDown(v, SZ_64K) < base + if Section(d) then SZ_2M else SZ_64K
  {
    var paddr := RoundDown(d.phys, SZ_64K);
    var size := Size(d) + (d.phys - paddr);
    var y := if d.phys % SZ_2M == 0 && size >= SZ_2M then SZ_2M else SZ_64K;
    RoundUpFacts(base, y);
    hide RoundUp;
    SectionAligned(d.phys);
    AddAligned(RoundUp(base, y), d.phys % SZ_64K);
  }

  lemma SectionAligned(x: nat)
    ensures x % SZ_2M == 0 ==> x % SZ_64K == 0
  {
  }

  lemma AddAligned(x: nat, y: nat)
    requires x % SZ_64K == 0 && y < SZ_64K
    ensures (x + y) % SZ_64K == y
  {
  }

  /** The address of a region that continues the one before it. */
  lemma SameRun(sorted: seq<Desc>, ds: seq<Desc>, k: nat, base: nat)
    requires Walked(sorted, ds, k, base) && k < |ds| && ds[k].runtime && !Starts(ds, k)
    ensures base % SZ_64K == ds[k].phys % SZ_64K
  {
    var prev := ds[k - 1];
    assert prev.runtime && base == VirtEnd(prev) && PhysEnd(prev) == ds[k].phys;
    assert (prev.virt - prev.phys) % SZ_64K == 0;
  }

  /** The address of a runtime region, and where the next one may begin. */
  method NextAddress(d: Desc, continues: bool, from: nat) returns (virt: nat, base: nat)
    requires continues ==> from % SZ_64K == d.phys % SZ_64K
    ensures from <= virt && base == virt + Size(d) && virt % SZ_64K == d.phys % SZ_64K
    ensures continues ==> virt == from
    ensures !continues && Section(d) ==> virt % SZ_2M == 0
    ensures !continues ==> from <= RoundDown(virt, SZ_64K) < from + if Section(d) then SZ_2M else SZ_64K
  {
    NewRun(d, from);
    var paddr, size := d.phys, Size(d);
    base := from;
    if !continues {
      paddr := RoundDown(d.phys, SZ_64K);
      size := size + (d.phys - paddr);
      if d.phys % SZ_2M == 0 && size >= SZ_2M {
        base := RoundUp(base, SZ_2M);
      } else {
        base := RoundUp(base, SZ_64K);
      }
    }
    virt := base + (d.phys - paddr);
    base := base + size;
  }

  /**
    efi_get_virtmap: the map ends up sorted by physical address and with its runtime regions placed and
    linked, and runtimeMap holds copies of exactly those. sorted is the map between the two parts.
   */
  method EfiGetVirtmap(memoryMap: array<Desc>, descSize: nat)
    returns (runtimeMap: seq<Desc>, count: nat, ghost sorted: seq<Desc>)
    requires descSize > 0
    modifies memoryMap
    ensures multiset(sorted) == multiset(old(memoryMap[..])) && Ascending(sorted, Phys) && |sorted| == memoryMap.Length
    ensures forall i :: 0 <= i < |sorted| ==> SameRegion(memoryMap[i], sorted[i])
    ensures Placed(memoryMap[..], memoryMap.Length) && Linked(memoryMap[..], memoryMap.Length)
    ensures runtimeMap == Runtime(memoryMap[..]) && count == |runtimeMap|
  {
    hide Placed, Linked, Walked, Ascending, Starts, Runtime, Continues, Section, SameRegion, Agrees, VirtEnd, PhysEnd;
    CmpAgrees();
    Sort(memoryMap, descSize, CmpMemDesc, Phys);
    sorted := memoryMap[..];
    var base: nat := EFI_RT_VIRTUAL_BASE;
    runtimeMap, count := [], 0;
    WalkStart(sorted);
    for k := 0 to memoryMap.Length
      invariant Walked(sorted, memoryMap[..], k, base)
      invariant runtimeMap == Runtime(memoryMap[..k]) && count == |runtimeMap|
    {
      ghost var ds, from := memoryMap[..], base;
      var d := memoryMap[k];
      if !d.runtime {
        WalkSkip(sorted, ds, k, base);
        RuntimeStep(ds, k);
        assert ds[..k + 1] == memoryMap[..k + 1] && ds[..k] == memoryMap[..k];
        continue;
      }
      StartsIs(ds, k);
      var continues := k > 0 && Continues(memoryMap[k - 1], d);
      if continues {
        SameRun(sorted, ds, k, base);
      }
      var virt: nat;
      virt, base := NextAddress(d, continues, base);
      WalkStep(sorted, ds, k, from, virt);
      memoryMap[k] := d.(virt := virt);
      ghost var next := memoryMap[..];
      assert next == ds[k := d.(virt := virt)];
      RuntimeStep(next, k);
      assert next[..k] == ds[..k];
      runtimeMap := runtimeMap + [memoryMap[k]];
      count := count + 1;
    }
    assert memoryMap[..memoryMap.Length] == memoryMap[..];
    WalkEnd(sorted, memoryMap[..], base);
  }

  lemma StartsIs(ds: seq<Desc>, k: nat)
    requires k < |ds|
    ensures Starts(ds, k) <==> k == 0 || !Continues(ds[k - 1], ds[k])
  {
  }

  lemma WalkStart(sorted: seq<Desc>)
    ensures Walked(sorted, sorted, 0, EFI_RT_VIRTUAL_BASE) && Runtime([]) == []
  {
  }

  lemma WalkEnd(sorted: seq<Desc>, ds: seq<Desc>, base: nat)
    requires Walked(sorted, ds, |ds|, base)
    ensures Placed(ds, |ds|) && Linked(ds, |ds|) && |ds| == |sorted|
    ensures forall i :: 0 <= i < |ds| ==> SameRegion(ds[i], sorted[i])
  {
  }

  // ---- Regions that belong together stay together --------------------------------------------------

  /** The regions of a memory map are not empty and do not overlap. */
  ghost predicate NonOverlapping(ds: seq<Desc>) {
    && (forall i :: 0 <= i < |ds| ==> ds[i].pages > 0)
    && (forall i, j :: 0 <= i < j < |ds| ==> Apart(ds[i], ds[j]))
  }

  predicate Apart(a: Desc, b: Desc) {
    PhysEnd(a) <= b.phys || PhysEnd(b) <= a.phys
  }

  lemma {:induction false} TwiceIn(s: seq<Desc>, x: Desc) returns (i: nat, j: nat)
    requires multiset(s)[x] >= 2
    ensures i < j < |s| && s[i] == x && s[j] == x
  {
    assert s == s[..|s| - 1] + [s[|s| - 1]];
    if s[|s| - 1] == x {
      assert x in multiset(s[..|s| - 1]);
      i :| 0 <= i < |s| - 1 && s[i] == x;
      j := |s| - 1;
    } else {
      i, j := TwiceIn(s[..|s| - 1], x);
    }
  }

  lemma CountedTwice(s: seq<Desc>, i: nat, j: nat)
    requires i < j < |s| && s[i] == s[j]
    ensures multiset(s)[s[i]] >= 2
  {
    assert s == s[..i] + [s[i]] + s[i + 1..j] + [s[j]] + s[j + 1..];
  }

  /** Sorting keeps a map without overlaps so. */
  lemma PermutedApart(s: seq<Desc>, t: seq<Desc>)
    requires NonOverlapping(s) && multiset(s) == multiset(t)
    ensures NonOverlapping(t)
  {
    forall i | 0 <= i < |t|
      ensures t[i].pages > 0
    {
      assert t[i] in multiset(s);
    }
    forall i, j | 0 <= i < j < |t|
      ensures Apart(t[i], t[j])
    {
      if t[i] == t[j] {
        CountedTwice(t, i, j);
        var a, b := TwiceIn(s, t[i]);
        assert Apart(s[a], s[b]);
      } else {
        assert t[i] in multiset(s) && t[j] in multiset(s);
        var a :| 0 <= a < |s| && s[a] == t[i];
        var b :| 0 <= b < |s| && s[b] == t[j];
        assert Apart(s[if a < b then a else b], s[if a < b then b else a]);
      }
    }
  }

  /** In a sorted map without overlaps, a region that starts where another ends comes right after it. */
  lemma NextInOrder(ds: seq<Desc>, i: nat, j: nat)
    requires NonOverlapping(ds) && Ascending(ds, Phys) && i < |ds| && j < |ds| && PhysEnd(ds[i]) == ds[j].phys
    ensures j == i + 1
  {
    hide NonOverlapping, Ascending;
    if i + 1 < j {
      Later(ds, i, j);
    } else if j <= i {
      NotLater(ds, i, j);
    }
  }

  lemma Later(ds: seq<Desc>, i: nat, j: nat)
    requires NonOverlapping(ds) && Ascending(ds, Phys) && i + 1 < j < |ds|
    ensures PhysEnd(ds[i]) < ds[j].phys
  {
    assert Phys(ds[i]) <= Phys(ds[i + 1]) && Phys(ds[i + 1]) <= Phys(ds[j]);
    assert Apart(ds[i], ds[i + 1]) && Apart(ds[i + 1], ds[j]);
  }

  lemma NotLater(ds: seq<Desc>, i: nat, j: nat)
    requires NonOverlapping(ds) && Ascending(ds, Phys) && j <= i < |ds|
    ensures ds[j].phys < PhysEnd(ds[i])
  {
    assert j < i ==> Phys(ds[j]) <= Phys(ds[i]);
  }

  /**
    Any two runtime regions of the original map that touch and have the same memory type are as far apart
    virtually as physically.
   */
  lemma DistanceKept(original: seq<Desc>, sorted: seq<Desc>, ds: seq<Desc>, i: nat, j: nat)
    requires NonOverlapping(original) && multiset(sorted) == multiset(original) && Ascending(sorted, Phys)
    requires |ds| == |sorted| && (forall k :: 0 <= k < |ds| ==> SameRegion(ds[k], sorted[k])) && Linked(ds, |ds|)
    requires i < |ds| && j < |ds| && ds[i].runtime && ds[j].runtime
    requires ds[i].phys + ds[i].pages * EFI_PAGE_SIZE == ds[j].phys && ds[i].memType == ds[j].memType
    ensures ds[j].virt - ds[i].virt == ds[j].phys - ds[i].phys
  {
    hide NonOverlapping, Ascending;
    PermutedApart(original, sorted);
    assert SameRegion(ds[i], sorted[i]) && SameRegion(ds[j], sorted[j]);
    NextInOrder(sorted, i, j);
    assert !Starts(ds, j);
  }

  /** Runtime regions of different memory type never share a 64K page of the virtual map. */
  lemma {:induction false} TypesApart(ds: seq<Desc>, i: nat, j: nat)
    requires Placed(ds, |ds|) && Linked(ds, |ds|)
    requires i < j < |ds| && ds[i].runtime && ds[j].runtime && ds[i].memType != ds[j].memType
    ensures ds[i].virt + ds[i].pages * EFI_PAGE_SIZE <= ds[j].virt - ds[j].virt % SZ_64K
  {
    if Starts(ds, j) {
      assert Fresh(ds, j);
    } else {
      TypesApart(ds, i, j - 1);
      assert ds[j].virt == VirtEnd(ds[j - 1]);
      RoundDownMonotone(ds[j - 1].virt, ds[j].virt);
    }
  }

  lemma RoundDownMonotone(x: nat, y: nat)
    requires x <= y
    ensures RoundDown(x, SZ_64K) <= RoundDown(y, SZ_64K)
  {
  }

  /** The copies are the runtime regions of the map, each once, and in the same order. */
  lemma {:induction false} RuntimeFacts(ds: seq<Desc>)
    ensures forall d :: multiset(Runtime(ds))[d] == if d.runtime then multiset(ds)[d] else 0
    ensures forall i, j :: 0 <= i < j < |Runtime(ds)| ==> InThisOrder(ds, Runtime(ds)[i], Runtime(ds)[j])
  {
    if ds != [] {
      var rest, last := ds[..|ds| - 1], ds[|ds| - 1];
      RuntimeFacts(rest);
      assert ds == rest + [last];
      forall i, j | 0 <= i < j < |Runtime(ds)|
        ensures InThisOrder(ds, Runtime(ds)[i], Runtime(ds)[j])
      {
        if j < |Runtime(rest)| {
          assert InThisOrder(rest, Runtime(rest)[i], Runtime(rest)[j]);
          var a, b :| 0 <= a < b < |rest| && rest[a] == Runtime(rest)[i] && rest[b] == Runtime(rest)[j];
          assert ds[a] == rest[a] && ds[b] == rest[b];
        } else {
          assert Runtime(rest)[i] in multiset(Runtime(rest));
          var a :| 0 <= a < |rest| && rest[a] == Runtime(rest)[i];
          assert ds[a] == rest[a] && ds[|ds| - 1] == last;
        }
      }
    }
  }

  ghost predicate InThisOrder(ds: seq<Desc>, x: Desc, y: Desc) {
    exists a, b :: 0 <= a < b < |ds| && ds[a] == x && ds[b] == y
  }
}
