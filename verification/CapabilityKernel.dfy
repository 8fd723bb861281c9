/**
  The capability system as it runs, on real slot tables with their bitmaps. Each method is proved to do
  what the operation of the same name in Capability does, and so to keep the accounts of every object.
 */
module CapabilityKernel {
  import opened Common
  import opened SlotTable
  import opened Capability

  /** The bits of the table are exactly its slots. */
  ghost predicate TableOk(t: Table<Slot>, slots: Slots)
    reads t
  {
    && t.Valid() && t.slots == slots
    && forall i: nat :: Used(t.bmp, i) ==> i < |slots| && slots[i].Some?
  }

  /** A table that only grew holds the same capabilities. */
  lemma SameAtInv(s: State, groups: seq<Slots>)
    requires Inv(s) && forall c :: At(groups, c) == At(s.groups, c)
    ensures Inv(s.(groups := groups))
  {
    assert forall c, o :: Names(groups, c, o) == Names(s.groups, c, o);
    forall o | o in s.objects
      ensures ObjectOk(groups, o, s.objects[o], s.held[o])
    {
      assert ObjectOk(s.groups, o, s.objects[o], s.held[o]);
    }
  }

  /** There is memory for a slot, and an id is free or the table can grow. */
  predicate Suffices(slots: Slots, memory: bool, slotMemory: bool) {
    slotMemory && (memory || exists i :: 0 <= i < |slots| && slots[i].None?)
  }

  class CapSystem {
    const groups: seq<Table<Slot>>
    var objects: map<Oid, Object>
    ghost var held: multiset<Oid>
    ghost var slots: seq<Slots>

    ghost predicate Tables()
      reads this, groups
    {
      && |slots| == |groups|
      && (forall g, h :: 0 <= g < h < |groups| ==> groups[g] != groups[h])
      && forall g :: 0 <= g < |groups| ==> TableOk(groups[g], slots[g])
    }

    ghost function S(): State
      reads this
    {
      State(slots, objects, held)
    }

    ghost predicate Valid()
      reads this, groups
    {
      Tables() && Inv(S())
    }

    ghost predicate SameCaps(old_: seq<Slots>)
      reads this
    {
      forall c :: At(slots, c) == At(old_, c)
    }

    /** An id, a slot for it, and the slot installed; a failed allocation gives the id back. */
    method TakeSlot(g: nat, slot: Slot, memory: bool, slotMemory: bool) returns (id: int)
      requires Tables() && g < |groups|
      modifies this`slots, groups[g]
      ensures Tables()
      ensures id >= 0 <==> Suffices(old(slots[g]), memory, slotMemory)
      ensures id >= 0 ==> id == FirstFree(old(slots[g])) && slots == AddSlot(old(slots), g, slot)
      ensures id < 0 ==> id == -ENOMEM && SameCaps(old(slots))
    {
      hide Used, Sound, LeastFree, NoneFree, FirstFree;
      var t := groups[g];
      assert TableOk(t, slots[g]);
      FreeIds(t, slots[g]);
      id := t.AllocSlotId(memory);
      if id < 0 {
        assert forall h :: 0 <= h < |groups| && h != g ==> TableOk(groups[h], slots[h]);
        return -ENOMEM;
      }
      assert t.slots == Room(slots[g]) && id == FirstFree(slots[g]);
      if !slotMemory {
        t.FreeSlotId(id);
        assert t.slots == Room(slots[g]);
        slots := slots[g := t.slots];
        return -ENOMEM;
      }
      t.InstallSlot(id, slot);
      slots := slots[g := t.slots];
    }

    /** free_slot_id of a slot in use. */
    method GiveSlot(c: Cap)
      requires Tables() && At(slots, c).Some?
      modifies this`slots, groups[c.group]
      ensures Tables() && slots == DropSlot(old(slots), c)
    {
      hide Used, Sound;
      var t := groups[c.group];
      assert TableOk(t, slots[c.group]);
      t.FreeSlotId(c.id);
      slots := slots[c.group := t.slots];
    }

    /** get_slot */
    method Look(g: nat, id: int) returns (slot: Option<Slot>)
      requires Tables() && g < |groups|
      ensures slot == if id < 0 then None else At(slots, Cap(g, id))
    {
      assert TableOk(groups[g], slots[g]);
      slot := groups[g].GetSlot(id);
    }

    /** obj_alloc: kzalloc gives memory that no object uses, or none. */
    method ObjAlloc(o: Oid, kind: nat, memory: bool) returns (ok: bool)
      requires Valid() && o !in objects
      modifies this`objects
      ensures Valid() && ok == memory && S() == if ok then Capability.ObjAlloc(old(S()), o, kind) else old(S())
    {
      if !memory {
        return false;
      }
      ObjAllocInv(S(), o, kind);
      objects := objects[o := Object(kind, 0, [])];
      return true;
    }

    /** cap_alloc; a counted object is its BUG_ON. */
    method CapAlloc(g: nat, o: Oid, rights: nat, memory: bool, slotMemory: bool) returns (r: int)
      requires Valid() && g < |groups| && o in objects && objects[o].refcount == 0
      modifies this`slots, this`objects, groups[g]
      ensures Valid()
      ensures r >= 0 <==> Suffices(old(slots[g]), memory, slotMemory)
      ensures r >= 0 ==> r == FirstFree(old(slots[g])) && S() == Capability.CapAlloc(old(S()), g, o, rights)
      ensures r < 0 ==> r == -ENOMEM && objects == old(objects) && held == old(held) && SameCaps(old(slots))
    {
      hide Inv, FirstFree;
      ghost var s := S();
      CapAllocInv(s, g, o, rights);
      r := TakeSlot(g, Slot(o, rights), memory, slotMemory);
      if r < 0 {
        SameAtInv(s, slots);
        return;
      }
      objects := objects[o := objects[o].(copies := [Cap(g, r)] + objects[o].copies)];
      objects := objects[o := objects[o].(refcount := 1)];
      assert objects == Capability.CapAlloc(s, g, o, rights).objects;
    }

    /** __cap_free: the slot, the list of copies, the count, and at the last reference the object. */
    method CapFree(g: nat, id: int) returns (r: int)
      requires Valid() && g < |groups|
      modifies this`slots, this`objects, groups[g]
      ensures Valid()
      ensures r == if id < 0 || old(At(slots, Cap(g, id))).None? then -ECAPBILITY else 0
      ensures S() == if id < 0 then old(S()) else Capability.CapFree(old(S()), Cap(g, id))
    {
      hide Inv, FirstFree;
      var slot := Look(g, id);
      if slot.None? {
        return -ECAPBILITY;
      }
      ghost var s := S();
      var c := Cap(g, id);
      CapFreeInv(s, c);
      GiveSlot(c);
      var o := slot.value.target;
      objects := objects[o := objects[o].(copies := Without(objects[o].copies, c))];
      var count := objects[o].refcount;
      objects := objects[o := objects[o].(refcount := count - 1)];
      if count == 1 {
        objects := objects - {o};
      }
      assert objects == Capability.CapFree(s, c).objects;
      return 0;
    }

    /** cap_copy */
    method CapCopy(g: nat, h: nat, id: int, rights: Option<nat>, memory: bool, slotMemory: bool) returns (r: int)
      requires Valid() && g < |groups| && h < |groups|
      modifies this`slots, this`objects, groups[h]
      ensures Valid()
      ensures r == -ECAPBILITY <==> id < 0 || old(At(slots, Cap(g, id))).None?
      ensures r >= 0 <==> r != -ECAPBILITY && Suffices(old(slots[h]), memory, slotMemory)
      ensures r >= 0 ==> && At(old(slots), Cap(g, id)).Some? && At(old(slots), Cap(g, id)).value.target in old(objects)
                         && r == FirstFree(old(slots[h])) && S() == Capability.CapCopy(old(S()), Cap(g, id), h, rights)
      ensures r < 0 ==> && r in {-ENOMEM, -ECAPBILITY} && objects == old(objects) && held == old(held)
                        && SameCaps(old(slots))
    {
      hide Inv, FirstFree, InsertAfter, AddSlot, TableOk, Suffices;
      var slot := Look(g, id);
      if slot.None? {
        return -ECAPBILITY;
      }
      ghost var s := S();
      CapCopyInv(s, Cap(g, id), h, rights);
      var o := slot.value.target;
      r := TakeSlot(h, Slot(o, if rights.Some? then rights.value else slot.value.rights), memory, slotMemory);
      if r < 0 {
        SameAtInv(s, slots);
        return;
      }
      objects := objects[o := objects[o].(refcount := objects[o].refcount + 1)];
      objects := objects[o := objects[o].(copies := InsertAfter(objects[o].copies, Cap(g, id), Cap(h, r)))];
      assert objects == Capability.CapCopy(s, Cap(g, id), h, rights).objects;
    }

    /** cap_move when no one else acts between its copy and its free: if the copy succeeds the free does. */
    method CapMove(g: nat, h: nat, id: int, rights: Option<nat>, memory: bool, slotMemory: bool) returns (r: int)
      requires Valid() && g < |groups| && h < |groups|
      modifies this`slots, this`objects, groups[g], groups[h]
      ensures Valid()
      ensures r == -ECAPBILITY <==> id < 0 || old(At(slots, Cap(g, id))).None?
      ensures r == 0 <==> r != -ECAPBILITY && Suffices(old(slots[h]), memory, slotMemory)
      ensures r == 0 ==> && id >= 0 && At(old(slots), Cap(g, id)).Some?
                         && At(old(slots), Cap(g, id)).value.target in old(objects)
                         && S() == Capability.CapMove(old(S()), Cap(g, id), h, rights)
      ensures r != 0 ==> && r in {-ENOMEM, -ECAPBILITY} && objects == old(objects) && held == old(held)
                         && SameCaps(old(slots))
    {
      hide Inv, FirstFree;
      ghost var s := S();
      r := CapCopy(g, h, id, rights, memory, slotMemory);
      if r < 0 {
        return;
      }
      CopyKeepsSource(s, Cap(g, id), h, rights);
      r := CapFree(g, id);
    }

    /** get_opaque: the object's count and the references handed out go up together. */
    method GetOpaque(g: nat, id: int, kind: Option<nat>) returns (r: Option<Oid>)
      requires Valid() && g < |groups|
      modifies this`objects, this`held
      ensures Valid()
      ensures r.Some? <==> && id >= 0 && At(old(slots), Cap(g, id)).Some?
                           && At(old(slots), Cap(g, id)).value.target in old(objects)
                           && (kind.Some? ==> old(objects)[At(old(slots), Cap(g, id)).value.target].kind == kind.value)
      ensures r.Some? ==> Names(slots, Cap(g, id), r.value) && r.value in old(objects) && S() == Get(old(S()), r.value)
      ensures r.None? ==> S() == old(S())
    {
      hide Inv, FirstFree;
      var slot := Look(g, id);
      if slot.None? {
        return None;
      }
      NamedFacts(S(), Cap(g, id));
      var o := slot.value.target;
      if kind.Some? && objects[o].kind != kind.value {
        return None;
      }
      GetInv(S(), o);
      objects := objects[o := objects[o].(refcount := objects[o].refcount + 1)];
      held := held + multiset{o};
      return Some(o);
    }

    /** obj_put by someone who holds a reference. */
    method ObjPut(o: Oid)
      requires Valid() && held[o] > 0
      modifies this`objects, this`held
      ensures Valid() && o in old(objects) && old(objects)[o].refcount > 0 && S() == Put(old(S()), o)
    {
      hide Inv;
      PutInv(S(), o);
      var count := objects[o].refcount;
      objects := objects[o := objects[o].(refcount := count - 1)];
      if count == 1 {
        objects := objects - {o};
      }
      held := held - multiset{o};
      assert objects == Put(old(S()), o).objects;
    }

    /** The sweep of obj_free; the object is there after every round because its caller holds a reference. */
    method ObjFree(o: Oid)
      requires Valid() && o in objects && held[o] > 0
      modifies this`slots, this`objects, groups
      ensures Valid() && S() == Capability.ObjFree(old(S()), o)
      ensures o in objects && held == old(held)
    {
      hide Inv, Capability.CapFree, ObjectOk;
      ghost var s := S();
      ghost var cs := objects[o].copies;
      HeldFacts(s, o);
      ghost var k := 0;
      assert cs[..0] == [] && cs[0..] == cs;
      while |objects[o].copies| > 0
        invariant Valid() && k <= |cs| && S() == Sweep(s, cs[..k])
        invariant o in objects && objects[o].copies == cs[k..] && held == s.held
        decreases |cs| - k
      {
        SweepStep(s, o, k);
        FreeFirst(S(), o);
        var c := objects[o].copies[0];
        assert c == cs[k];
        var r := CapFree(c.group, c.id);
        k := k + 1;
        SweepFacts(s, o, k);
      }
      assert cs[..k] == cs;
    }

    /** cap_revoke */
    method CapRevoke(g: nat, id: int) returns (r: int)
      requires Valid() && g < |groups|
      modifies this, groups
      ensures Valid()
      ensures r == if id < 0 || At(old(slots), Cap(g, id)).None? then -ECAPBILITY else 0
      ensures r != 0 ==> S() == old(S())
      ensures r == 0 ==> At(old(slots), Cap(g, id)).value.target in old(objects) &&
                         S() == Revoke(old(S()), At(old(slots), Cap(g, id)).value.target)
    {
      hide Inv, Capability.ObjFree;
      ghost var s := S();
      var obj := GetOpaque(g, id, None);
      if obj.None? {
        if id >= 0 && At(slots, Cap(g, id)).Some? {
          NamedFacts(s, Cap(g, id));
        }
        return -ECAPBILITY;
      }
      ObjFree(obj.value);
      ObjPut(obj.value);
      return 0;
    }
  }

  // ---- What the methods rest on --------------------------------------------------------------------

  lemma FreeIds(t: Table<Slot>, slots: Slots)
    requires TableOk(t, slots)
    ensures NoneFree(t.bmp) <==> FirstFree(slots) == |slots|
    ensures forall id: nat :: LeastFree(t.bmp, id) ==> id == FirstFree(slots)
  {
    assert forall i: nat :: i < |slots| ==> (Used(t.bmp, i) <==> slots[i].Some?);
  }

  /** A copy leaves the slot that was copied in use. */
  lemma CopyKeepsSource(s: State, src: Cap, g: nat, rights: Option<nat>)
    requires Inv(s) && At(s.groups, src).Some? && At(s.groups, src).value.target in s.objects && g < |s.groups|
    ensures At(CapCopy(s, src, g, rights).groups, src).Some?
  {
    var slot := At(s.groups, src).value;
    AddNames(s.groups, g, Slot(slot.target, if rights.Some? then rights.value else slot.rights));
  }

  lemma HeldFacts(s: State, o: Oid)
    requires Inv(s) && o in s.objects && s.held[o] > 0
    ensures s.objects[o].refcount > 0
  {
    assert ObjectOk(s.groups, o, s.objects[o], s.held[o]);
  }

  /** One more round of the sweep. */
  lemma SweepStep(s: State, o: Oid, k: nat)
    requires Inv(s) && s.held[o] > 0 && o in s.objects && k < |s.objects[o].copies|
    ensures var cs := s.objects[o].copies; Sweep(s, cs[..k + 1]) == CapFree(Sweep(s, cs[..k]), cs[k])
  {
    var cs := s.objects[o].copies;
    SweepAppend(s, cs[..k], cs[k]);
    assert cs[..k] + [cs[k]] == cs[..k + 1];
  }

  lemma {:induction false} SweepAppend(s: State, cs: seq<Cap>, c: Cap)
    ensures Sweep(s, cs + [c]) == CapFree(Sweep(s, cs), c)
    decreases |cs|
  {
    hide CapFree;
    if cs == [] {
      assert [c][1..] == [];
    } else {
      assert (cs + [c])[1..] == cs[1..] + [c];
      SweepAppend(CapFree(s, cs[0]), cs[1..], c);
    }
  }
}
