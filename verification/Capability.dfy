/**
  Capabilities: slots of groups that name reference-counted objects, and for each object the list of the
  slots that are copies of one another. The operations are functions on states here, and every run of
  them keeps the accounts of every object.
 */
module Capability {
  import opened Common
  import opened SlotTable

  type Oid = nat

  /** A slot id of a group. */
  datatype Cap = Cap(group: nat, id: nat)

  datatype Slot = Slot(target: Oid, rights: nat)

  datatype Object = Object(kind: nat, refcount: nat, copies: seq<Cap>)

  type Slots = seq<Option<Slot>>

  /** held: the references that obj_get has given out and obj_put has not taken back. */
  datatype State = State(groups: seq<Slots>, objects: map<Oid, Object>, held: multiset<Oid>)

  // ---- Slots ---------------------------------------------------------------------------------------

  function At(groups: seq<Slots>, c: Cap): Option<Slot> {
    if c.group < |groups| && c.id < |groups[c.group]| then groups[c.group][c.id] else None
  }

  predicate Names(groups: seq<Slots>, c: Cap, o: Oid) {
    At(groups, c).Some? && At(groups, c).value.target == o
  }

  /** The id alloc_slot_id hands out: the least free one, or the first of a new word. */
  function FirstFree(slots: Slots): (id: nat)
    ensures id <= |slots| && (id < |slots| ==> slots[id].None?) && forall i :: 0 <= i < id ==> slots[i].Some?
  {
    if slots == [] || slots[0].None? then 0 else 1 + FirstFree(slots[1..])
  }

  /** The table once an id has been allocated. */
  function Room(slots: Slots): (r: Slots)
    ensures FirstFree(slots) < |r| && r[FirstFree(slots)].None?
  {
    if FirstFree(slots) < |slots| then slots else slots + seq(BITS, _ => None)
  }

  function AddSlot(groups: seq<Slots>, g: nat, slot: Slot): seq<Slots>
    requires g < |groups|
  {
    groups[g := Room(groups[g])[FirstFree(groups[g]) := Some(slot)]]
  }

  function DropSlot(groups: seq<Slots>, c: Cap): seq<Slots>
    requires At(groups, c).Some?
  {
    groups[c.group := groups[c.group][c.id := None]]
  }

  function NewCap(groups: seq<Slots>, g: nat): Cap
    requires g < |groups|
  {
    Cap(g, FirstFree(groups[g]))
  }

  // ---- Objects -------------------------------------------------------------------------------------

  /** Taking a reference away; the last one frees the object. */
  function Unref(objects: map<Oid, Object>, o: Oid): map<Oid, Object>
    requires o in objects && objects[o].refcount > 0
  {
    if objects[o].refcount == 1 then objects - {o}
    else objects[o := objects[o].(refcount := objects[o].refcount - 1)]
  }

  /** list_add after the slot that is copied. */
  function InsertAfter(copies: seq<Cap>, src: Cap, c: Cap): seq<Cap> {
    if copies == [] then [c]
    else if copies[0] == src then [src, c] + copies[1..]
    else [copies[0]] + InsertAfter(copies[1..], src, c)
  }

  // ---- Operations ----------------------------------------------------------------------------------

  /** obj_alloc */
  function ObjAlloc(s: State, o: Oid, kind: nat): State {
    s.(objects := s.objects[o := Object(kind, 0, [])])
  }

  /** cap_alloc */
  function CapAlloc(s: State, g: nat, o: Oid, rights: nat): State
    requires g < |s.groups| && o in s.objects
  {
    var c := NewCap(s.groups, g);
    s.(groups := AddSlot(s.groups, g, Slot(o, rights)),
       objects := s.objects[o := s.objects[o].(refcount := 1, copies := [c] + s.objects[o].copies)])
  }

  /** The slot is in use and its object is counted; with the accounts in order the first part implies the rest. */
  predicate Counted(s: State, c: Cap) {
    && At(s.groups, c).Some?
    && At(s.groups, c).value.target in s.objects && s.objects[At(s.groups, c).value.target].refcount > 0
  }

  /** __cap_free; a slot that is not in use is its error. */
  function CapFree(s: State, c: Cap): State {
    if !Counted(s, c) then s
    else
      var o := At(s.groups, c).value.target;
      s.(groups := DropSlot(s.groups, c),
         objects := Unref(s.objects[o := s.objects[o].(copies := Without(s.objects[o].copies, c))], o))
  }

  /** cap_copy of a slot in use. */
  function CapCopy(s: State, src: Cap, g: nat, rights: Option<nat>): State
    requires At(s.groups, src).Some? && At(s.groups, src).value.target in s.objects && g < |s.groups|
  {
    var slot := At(s.groups, src).value;
    var ob := s.objects[slot.target];
    var c := NewCap(s.groups, g);
    s.(groups := AddSlot(s.groups, g, Slot(slot.target, if rights.Some? then rights.value else slot.rights)),
       objects := s.objects[slot.target := ob.(refcount := ob.refcount + 1, copies := InsertAfter(ob.copies, src, c))])
  }

  /** get_opaque of a slot in use, of the right type. */
  function Get(s: State, o: Oid): State
    requires o in s.objects
  {
    s.(objects := s.objects[o := s.objects[o].(refcount := s.objects[o].refcount + 1)], held := s.held + multiset{o})
  }

  /** obj_put */
  function Put(s: State, o: Oid): State
    requires o in s.objects && s.objects[o].refcount > 0
  {
    s.(objects := Unref(s.objects, o), held := s.held - multiset{o})
  }

  /** cap_move: copy, then free the source. */
  function CapMove(s: State, src: Cap, g: nat, rights: Option<nat>): State
    requires At(s.groups, src).Some? && At(s.groups, src).value.target in s.objects && g < |s.groups|
  {
    CapFree(CapCopy(s, src, g, rights), src)
  }

  /** The loop of obj_free over the copies of an object. */
  function Sweep(s: State, cs: seq<Cap>): State
    decreases |cs|
  {
    if cs == [] then s else Sweep(CapFree(s, cs[0]), cs[1..])
  }

  /** obj_free: the fallback of obj_alloc, or the sweep. */
  function ObjFree(s: State, o: Oid): State
    requires o in s.objects
  {
    if s.objects[o].refcount == 0 then s.(objects := s.objects - {o}) else Sweep(s, s.objects[o].copies)
  }

  // ---- The accounts --------------------------------------------------------------------------------

  /** The list of copies is exactly the slots that name the object, and the count is those plus the held references. */
  ghost predicate ObjectOk(groups: seq<Slots>, o: Oid, ob: Object, held: nat) {
    && NoDuplicates(ob.copies)
    && (forall c :: c in ob.copies <==> Names(groups, c, o))
    && ob.refcount == |ob.copies| + held
  }

  ghost predicate ObjectsOk(groups: seq<Slots>, objects: map<Oid, Object>, held: multiset<Oid>) {
    forall o :: o in objects ==> ObjectOk(groups, o, objects[o], held[o])
  }

  /** No slot names a freed object, and no one holds a reference to one. */
  ghost predicate NoDangling(groups: seq<Slots>, objects: map<Oid, Object>, held: multiset<Oid>) {
    && (forall c, o :: Names(groups, c, o) ==> o in objects)
    && (forall o :: held[o] > 0 ==> o in objects)
  }

  ghost predicate Inv(s: State) {
    ObjectsOk(s.groups, s.objects, s.held) && NoDangling(s.groups, s.objects, s.held)
  }

  // ---- Slots and names -----------------------------------------------------------------------------

  /** A new slot names its object, under an id that named nothing; all else is as it was. */
  lemma AddNames(groups: seq<Slots>, g: nat, slot: Slot)
    requires g < |groups|
    ensures var groups', c := AddSlot(groups, g, slot), NewCap(groups, g);
            && At(groups, c).None? && At(groups', c) == Some(slot)
            && forall d :: d != c ==> At(groups', d) == At(groups, d)
  {
  }

  lemma DropNames(groups: seq<Slots>, c: Cap)
    requires At(groups, c).Some?
    ensures At(DropSlot(groups, c), c).None?
    ensures forall d :: d != c ==> At(DropSlot(groups, c), d) == At(groups, d)
  {
  }

  lemma {:induction false} InsertAfterFacts(copies: seq<Cap>, src: Cap, c: Cap)
    requires NoDuplicates(copies) && c !in copies
    ensures var l := InsertAfter(copies, src, c);
            NoDuplicates(l) && |l| == |copies| + 1 && forall d :: d in l <==> d in copies || d == c
  {
    if copies != [] {
      if copies[0] == src {
        assert copies == [src] + copies[1..];
      } else {
        InsertAfterFacts(copies[1..], src, c);
        assert copies == [copies[0]] + copies[1..];
        assert copies[0] !in InsertAfter(copies[1..], src, c);
      }
    }
  }

  // ---- Every operation keeps the accounts ----------------------------------------------------------

  lemma ObjAllocInv(s: State, o: Oid, kind: nat)
    requires Inv(s) && o !in s.objects
    ensures Inv(ObjAlloc(s, o, kind))
  {
  }

  /** An object changes its list and its count together with one slot. */
  lemma SlotStep(s: State, s': State, o: Oid, ob: Object, c: Cap, add: bool)
    requires Inv(s) && o in s.objects && s'.objects == s.objects[o := ob] && s'.held == s.held
    requires forall d :: d != c ==> At(s'.groups, d) == At(s.groups, d)
    requires At(if add then s.groups else s'.groups, c).None? && Names(if add then s'.groups else s.groups, c, o)
    requires NoDuplicates(ob.copies)
    requires forall d :: d in ob.copies <==>
               if add then d in s.objects[o].copies || d == c else d in s.objects[o].copies && d != c
    requires ob.refcount == |ob.copies| + s.held[o]
    ensures Inv(s')
  {
    forall x | x in s'.objects
      ensures ObjectOk(s'.groups, x, s'.objects[x], s'.held[x])
    {
      assert ObjectOk(s.groups, o, s.objects[o], s.held[o]);
      assert ObjectOk(s.groups, x, s.objects[x], s.held[x]);
    }
    forall d, x | Names(s'.groups, d, x)
      ensures x in s'.objects
    {
      assert d != c ==> Names(s.groups, d, x);
    }
  }

  lemma CapAllocInv(s: State, g: nat, o: Oid, rights: nat)
    requires Inv(s) && g < |s.groups| && o in s.objects && s.objects[o].refcount == 0
    ensures Inv(CapAlloc(s, g, o, rights))
  {
    var c := NewCap(s.groups, g);
    AddNames(s.groups, g, Slot(o, rights));
    assert ObjectOk(s.groups, o, s.objects[o], s.held[o]);
    assert s.objects[o].copies == [];
    var s' := CapAlloc(s, g, o, rights);
    SlotStep(s, s', o, s'.objects[o], c, true);
  }

  lemma CapCopyInv(s: State, src: Cap, g: nat, rights: Option<nat>)
    requires Inv(s) && At(s.groups, src).Some? && g < |s.groups|
    ensures At(s.groups, src).value.target in s.objects
    ensures Inv(CapCopy(s, src, g, rights))
  {
    var slot := At(s.groups, src).value;
    var o := slot.target;
    assert Names(s.groups, src, o);
    assert ObjectOk(s.groups, o, s.objects[o], s.held[o]);
    var c := NewCap(s.groups, g);
    AddNames(s.groups, g, Slot(o, if rights.Some? then rights.value else slot.rights));
    assert !Names(s.groups, c, o);
    InsertAfterFacts(s.objects[o].copies, src, c);
    var s' := CapCopy(s, src, g, rights);
    SlotStep(s, s', o, s'.objects[o], c, true);
  }

  /** The object of a slot in use is allocated and counted. */
  lemma NamedFacts(s: State, c: Cap)
    requires Inv(s) && At(s.groups, c).Some?
    ensures var o := At(s.groups, c).value.target;
            o in s.objects && c in s.objects[o].copies && s.objects[o].refcount > 0 &&
            ObjectOk(s.groups, o, s.objects[o], s.held[o])
  {
    var o := At(s.groups, c).value.target;
    assert Names(s.groups, c, o);
    assert ObjectOk(s.groups, o, s.objects[o], s.held[o]);
  }

  /** Freeing an object that no slot names and no one holds. */
  lemma DestroyInv(s: State, o: Oid)
    requires Inv(s) && o in s.objects && s.objects[o].refcount == 0
    ensures Inv(s.(objects := s.objects - {o}))
  {
    assert ObjectOk(s.groups, o, s.objects[o], s.held[o]);
    assert s.objects[o].copies == [];
    assert forall c :: !Names(s.groups, c, o);
  }

  lemma CapFreeInv(s: State, c: Cap)
    requires Inv(s) && At(s.groups, c).Some?
    ensures Counted(s, c) && Inv(CapFree(s, c))
  {
    var o := At(s.groups, c).value.target;
    NamedFacts(s, c);
    DropNames(s.groups, c);
    var ob := s.objects[o];
    WithoutFacts(ob.copies, c);
    var ob' := ob.(copies := Without(ob.copies, c), refcount := ob.refcount - 1);
    var s1 := s.(groups := DropSlot(s.groups, c), objects := s.objects[o := ob']);
    SlotStep(s, s1, o, ob', c, false);
    if ob.refcount == 1 {
      DestroyInv(s1, o);
      assert s1.objects - {o} == CapFree(s, c).objects;
    } else {
      assert s1 == CapFree(s, c);
    }
  }

  lemma GetInv(s: State, o: Oid)
    requires Inv(s) && o in s.objects
    ensures Inv(Get(s, o))
  {
    var s' := Get(s, o);
    forall x | x in s'.objects
      ensures ObjectOk(s'.groups, x, s'.objects[x], s'.held[x])
    {
      assert ObjectOk(s.groups, x, s.objects[x], s.held[x]);
    }
  }

  lemma PutInv(s: State, o: Oid)
    requires Inv(s) && s.held[o] > 0
    ensures o in s.objects && s.objects[o].refcount > 0
    ensures Inv(Put(s, o))
  {
    assert ObjectOk(s.groups, o, s.objects[o], s.held[o]);
    var ob := s.objects[o];
    var s1 := s.(objects := s.objects[o := ob.(refcount := ob.refcount - 1)], held := s.held - multiset{o});
    forall x | x in s1.objects
      ensures ObjectOk(s1.groups, x, s1.objects[x], s1.held[x])
    {
      assert ObjectOk(s.groups, x, s.objects[x], s.held[x]);
    }
    if ob.refcount == 1 {
      DestroyInv(s1, o);
      assert s1.objects - {o} == Put(s, o).objects;
    }
  }

  // ---- Copying, freeing, moving --------------------------------------------------------------------

  /** obj_alloc: an object of the kind asked for, without references; every slot and other object is as it was. */
  lemma ObjectFacts(s: State, o: Oid, kind: nat)
    requires Inv(s) && o !in s.objects
    ensures var s' := ObjAlloc(s, o, kind);
            && s'.held == s.held && s'.groups == s.groups && s'.objects.Keys == s.objects.Keys + {o}
            && s'.objects[o].kind == kind && s'.objects[o].refcount == 0
            && forall x :: x in s.objects ==> s'.objects[x] == s.objects[x]
  {
  }

  /**
    cap_alloc: the new slot names the given object with the given rights; it is the one reference, and nothing else
    changes.
   */
  lemma AllocFacts(s: State, g: nat, o: Oid, rights: nat)
    requires Inv(s) && g < |s.groups| && o in s.objects && s.objects[o].refcount == 0
    ensures var s', c := CapAlloc(s, g, o, rights), NewCap(s.groups, g);
            && s'.held == s.held && s'.objects.Keys == s.objects.Keys
            && s'.objects[o].refcount == 1 && s'.objects[o].kind == s.objects[o].kind
            && (forall x :: x in s.objects && x != o ==> s'.objects[x] == s.objects[x])
            && c.group == g && At(s.groups, c).None? && At(s'.groups, c) == Some(Slot(o, rights))
            && forall d :: d != c ==> At(s'.groups, d) == At(s.groups, d)
  {
    hide Inv, FirstFree;
    AddNames(s.groups, g, Slot(o, rights));
  }

  /** get_opaque and obj_put: one reference more or less, the last one frees the object, and nothing else changes. */
  lemma ReferenceFacts(s: State, o: Oid)
    requires Inv(s) && o in s.objects
    ensures var s' := Get(s, o);
            && s'.groups == s.groups && s'.held == s.held + multiset{o} && s'.objects.Keys == s.objects.Keys
            && s'.objects[o] == s.objects[o].(refcount := s.objects[o].refcount + 1)
            && forall x :: x in s.objects && x != o ==> s'.objects[x] == s.objects[x]
    ensures s.objects[o].refcount > 0 ==>
              var s' := Put(s, o);
              && s'.groups == s.groups && s'.held == s.held - multiset{o}
              && (o in s'.objects <==> s.objects[o].refcount > 1)
              && (o in s'.objects ==> s'.objects[o] == s.objects[o].(refcount := s.objects[o].refcount - 1))
              && forall x :: x != o ==>
                   (x in s'.objects <==> x in s.objects) && (x in s.objects ==> s'.objects[x] == s.objects[x])
  {
  }

  /**
    cap_copy: the new slot names the same object with the given or the same rights; one reference more, and nothing
    else changes.
   */
  lemma CopyFacts(s: State, src: Cap, g: nat, rights: Option<nat>)
    requires Inv(s) && At(s.groups, src).Some? && g < |s.groups|
    ensures At(s.groups, src).value.target in s.objects
    ensures var s', slot, c := CapCopy(s, src, g, rights), At(s.groups, src).value, NewCap(s.groups, g);
            && s'.held == s.held && s'.objects.Keys == s.objects.Keys
            && s'.objects[slot.target].refcount == s.objects[slot.target].refcount + 1
            && (forall x :: x in s.objects && x != slot.target ==> s'.objects[x] == s.objects[x])
            && c.group == g && At(s.groups, c).None?
            && At(s'.groups, c) == Some(if rights.Some? then Slot(slot.target, rights.value) else slot)
            && forall d :: d != c ==> At(s'.groups, d) == At(s.groups, d)
  {
    hide Inv, FirstFree;
    var slot := At(s.groups, src).value;
    NamedFacts(s, src);
    AddNames(s.groups, g, if rights.Some? then Slot(slot.target, rights.value) else slot);
  }

  /**
    cap_free: the slot is gone, its object has one reference less and is freed exactly at the last one, and nothing
    else changes.
   */
  lemma FreeFacts(s: State, c: Cap)
    requires Inv(s) && At(s.groups, c).Some?
    ensures var s', o := CapFree(s, c), At(s.groups, c).value.target;
            && o in s.objects && s'.held == s.held
            && At(s'.groups, c).None? && (forall d :: d != c ==> At(s'.groups, d) == At(s.groups, d))
            && (o in s'.objects <==> s.objects[o].refcount > 1)
            && (o in s'.objects ==> s'.objects[o].refcount == s.objects[o].refcount - 1)
            && forall x :: x != o ==>
                 (x in s'.objects <==> x in s.objects) && (x in s.objects ==> s'.objects[x] == s.objects[x])
  {
    hide Inv;
    NamedFacts(s, c);
    DropNames(s.groups, c);
  }

  /**
    cap_move: one slot less and one slot more for the same object, whose count and every other object stay as they
    were.
   */
  lemma MoveFacts(s: State, src: Cap, g: nat, rights: Option<nat>)
    requires Inv(s) && At(s.groups, src).Some? && g < |s.groups|
    ensures At(s.groups, src).value.target in s.objects
    ensures var s', slot, c := CapMove(s, src, g, rights), At(s.groups, src).value, NewCap(s.groups, g);
            && Inv(s') && s'.held == s.held && s'.objects.Keys == s.objects.Keys
            && s'.objects[slot.target].refcount == s.objects[slot.target].refcount
            && (forall x :: x in s.objects && x != slot.target ==> s'.objects[x] == s.objects[x])
            && c != src && At(s'.groups, src).None?
            && At(s'.groups, c) == Some(if rights.Some? then Slot(slot.target, rights.value) else slot)
            && forall d :: d != src && d != c ==> At(s'.groups, d) == At(s.groups, d)
  {
    hide Inv, FirstFree;
    var slot, c := At(s.groups, src).value, NewCap(s.groups, g);
    CapCopyInv(s, src, g, rights);
    NamedFacts(s, src);
    AddNames(s.groups, g, if rights.Some? then Slot(slot.target, rights.value) else slot);
    var s1 := CapCopy(s, src, g, rights);
    CapFreeInv(s1, src);
    DropNames(s1.groups, src);
  }

  // ---- Revoking ------------------------------------------------------------------------------------

  /** Freeing the first copy of an object that someone holds a reference to: only that slot and that object change. */
  lemma FreeFirst(s: State, o: Oid)
    requires Inv(s) && s.held[o] > 0 && o in s.objects && s.objects[o].copies != []
    ensures var c, s' := s.objects[o].copies[0], CapFree(s, s.objects[o].copies[0]);
            && Names(s.groups, c, o) && Inv(s') && s'.held == s.held
            && s'.objects == s.objects[o := s.objects[o].(refcount := s.objects[o].refcount - 1,
                                                          copies := s.objects[o].copies[1..])]
            && At(s'.groups, c).None? && forall d :: d != c ==> At(s'.groups, d) == At(s.groups, d)
  {
    var c := s.objects[o].copies[0];
    assert ObjectOk(s.groups, o, s.objects[o], s.held[o]);
    assert c in s.objects[o].copies && Names(s.groups, c, o);
    CapFreeInv(s, c);
    DropNames(s.groups, c);
    assert Without(s.objects[o].copies, c) == s.objects[o].copies[1..];
  }

  /**
    After k rounds of the sweep the object is still allocated: its first k copies are gone, the others are
    as they were, and so is every other slot and object.
   */
  lemma {:induction false} SweepFacts(s: State, o: Oid, k: nat)
    requires Inv(s) && s.held[o] > 0 && o in s.objects && k <= |s.objects[o].copies|
    ensures var cs := s.objects[o].copies;
            var s' := Sweep(s, cs[..k]);
            && Inv(s') && s'.held == s.held
            && s'.objects == s.objects[o := s.objects[o].(refcount := s.objects[o].refcount - k, copies := cs[k..])]
            && forall d :: At(s'.groups, d) == if d in cs[..k] then None else At(s.groups, d)
    decreases k
  {
    hide Inv, CapFree, ObjectOk;
    var cs := s.objects[o].copies;
    if k > 0 {
      FreeFirst(s, o);
      var s1 := CapFree(s, cs[0]);
      SweepFacts(s1, o, k - 1);
      assert cs[..k][1..] == cs[1..][..k - 1] && cs[..k][0] == cs[0];
      assert cs[1..][k - 1..] == cs[k..];
      assert cs[..k] == [cs[0]] + cs[1..][..k - 1];
    } else {
      assert cs[..0] == [];
    }
  }

  /** cap_revoke of a slot in use: get_opaque, obj_free, obj_put. */
  function Revoke(s: State, o: Oid): State
    requires o in s.objects
  {
    var s1 := Get(s, o);
    var s2 := ObjFree(s1, o);
    if o in s2.objects && s2.objects[o].refcount > 0 then Put(s2, o) else s2
  }

  /**
    cap_revoke removes the object from every group and changes nothing else; the object is freed exactly
    if no one else holds a reference, and otherwise its count is what the others hold.
   */
  lemma RevokeFacts(s: State, o: Oid)
    requires Inv(s) && o in s.objects
    ensures var s' := Revoke(s, o);
            && Inv(s') && s'.held == s.held
            && (forall d :: At(s'.groups, d) == if Names(s.groups, d, o) then None else At(s.groups, d))
            && (forall x :: x != o ==>
                  (x in s'.objects <==> x in s.objects) && (x in s.objects ==> s'.objects[x] == s.objects[x]))
            && (o in s'.objects <==> s.held[o] > 0)
            && (o in s'.objects ==> s'.objects[o] == s.objects[o].(refcount := s.held[o], copies := []))
  {
    assert ObjectOk(s.groups, o, s.objects[o], s.held[o]);
    hide Inv;
    var s1 := Get(s, o);
    var cs := s.objects[o].copies;
    GetInv(s, o);
    SweepFacts(s1, o, |cs|);
    assert cs[..|cs|] == cs && cs[|cs|..] == [];
    var s2 := ObjFree(s1, o);
    PutInv(s2, o);
    assert s1.held - multiset{o} == s.held;
  }

  // ---- Runs ----------------------------------------------------------------------------------------

  datatype Op =
    | NewObject(o: Oid, kind: nat)
    | NewSlot(g: nat, o: Oid, rights: nat)
    | Free(c: Cap)
    | Copy(c: Cap, g: nat, r: Option<nat>)
    | GetRef(c: Cap)
    | PutRef(o: Oid)
    | FreeObject(o: Oid)
    | RevokeAll(c: Cap)

  // A move is a copy and, later, a free: other operations may come between.

  /** What callers owe: a new object is new, a put or a sweep is by someone who holds a reference. */
  predicate Allowed(s: State, op: Op) {
    match op
    case NewObject(o, _) => o !in s.objects
    case NewSlot(g, o, _) => g < |s.groups| && o in s.objects && s.objects[o].refcount == 0
    case Free(_) => true
    case Copy(_, g, _) => g < |s.groups|
    case GetRef(_) => true
    case PutRef(o) => s.held[o] > 0
    case FreeObject(o) => o in s.objects && (s.objects[o].refcount == 0 || s.held[o] > 0)
    case RevokeAll(_) => true
  }

  /** An operation on a slot that is not in use is an error and changes nothing. */
  function Apply(s: State, op: Op): State
    requires Allowed(s, op)
  {
    match op
    case NewObject(o, kind) => ObjAlloc(s, o, kind)
    case NewSlot(g, o, rights) => CapAlloc(s, g, o, rights)
    case Free(c) => CapFree(s, c)
    case Copy(c, g, r) => if Counted(s, c) then CapCopy(s, c, g, r) else s
    case GetRef(c) => if Counted(s, c) then Get(s, At(s.groups, c).value.target) else s
    case PutRef(o) => if o in s.objects && s.objects[o].refcount > 0 then Put(s, o) else s
    case FreeObject(o) => ObjFree(s, o)
    case RevokeAll(c) => if Counted(s, c) then Revoke(s, At(s.groups, c).value.target) else s
  }

  lemma FreeObjectInv(s: State, o: Oid)
    requires Inv(s) && Allowed(s, FreeObject(o))
    ensures Inv(ObjFree(s, o))
    ensures s.objects[o].refcount > 0 ==> o in ObjFree(s, o).objects && ObjFree(s, o).objects[o].refcount == s.held[o]
  {
    if s.objects[o].refcount == 0 {
      DestroyInv(s, o);
    } else {
      assert ObjectOk(s.groups, o, s.objects[o], s.held[o]);
      SweepFacts(s, o, |s.objects[o].copies|);
      assert s.objects[o].copies[..|s.objects[o].copies|] == s.objects[o].copies;
    }
  }

  lemma ApplyInv(s: State, op: Op)
    requires Inv(s) && Allowed(s, op)
    ensures Inv(Apply(s, op))
  {
    hide Inv;
    match op
    case NewObject(o, kind) => ObjAllocInv(s, o, kind);
    case NewSlot(g, o, rights) => CapAllocInv(s, g, o, rights);
    case Free(c) => if At(s.groups, c).Some? { CapFreeInv(s, c); }
    case Copy(c, g, r) => if Counted(s, c) { CapCopyInv(s, c, g, r); }
    case GetRef(c) => if Counted(s, c) { GetInv(s, At(s.groups, c).value.target); }
    case PutRef(o) => PutInv(s, o);
    case FreeObject(o) => FreeObjectInv(s, o);
    case RevokeAll(c) => if Counted(s, c) { RevokeFacts(s, At(s.groups, c).value.target); }
  }

  /** Groups without slots and no objects. */
  predicate Initial(s: State) {
    && (forall g :: 0 <= g < |s.groups| ==> forall i :: 0 <= i < |s.groups[g]| ==> s.groups[g][i].None?)
    && s.objects == map[] && s.held == multiset{}
  }

  ghost predicate Run(ss: seq<State>, ops: seq<Op>) {
    && |ss| == |ops| + 1 && Initial(ss[0])
    && forall i :: 0 <= i < |ops| ==> Step(ss[i], ops[i], ss[i + 1])
  }

  ghost predicate Step(s: State, op: Op, s': State) {
    Allowed(s, op) && s' == Apply(s, op)
  }

  /** The accounts hold after every sequence of operations. */
  lemma {:induction false} RunInv(ss: seq<State>, ops: seq<Op>, i: nat)
    requires Run(ss, ops) && i < |ss|
    ensures Inv(ss[i])
  {
    if i > 0 {
      RunInv(ss, ops, i - 1);
      assert Step(ss[i - 1], ops[i - 1], ss[i]);
      ApplyInv(ss[i - 1], ops[i - 1]);
    }
  }

  ghost predicate Referenced(s: State, o: Oid) {
    s.held[o] > 0 || exists c :: Names(s.groups, c, o)
  }

  lemma ReferencedIff(s: State, o: Oid)
    requires Inv(s) && o in s.objects
    ensures Referenced(s, o) <==> s.objects[o].refcount > 0
  {
    assert ObjectOk(s.groups, o, s.objects[o], s.held[o]);
    if s.objects[o].copies != [] {
      assert s.objects[o].copies[0] in s.objects[o].copies;
      assert Names(s.groups, s.objects[o].copies[0], o);
    }
    if c :| Names(s.groups, c, o) {
      assert c in s.objects[o].copies;
    }
  }

  lemma SweepKeepsCount(s: State, x: Oid, o: Oid)
    requires Inv(s) && Allowed(s, FreeObject(x)) && o in s.objects && s.objects[o].refcount > 0
    ensures o in ObjFree(s, x).objects ==> ObjFree(s, x).objects[o].refcount > 0
  {
    FreeObjectInv(s, x);
    hide Inv;
    if s.objects[x].refcount > 0 {
      var cs := s.objects[x].copies;
      SweepFacts(s, x, |cs|);
      assert cs[..|cs|] == cs;
    }
  }

  /** An object in use either stays counted or is gone. */
  lemma CountKept(s: State, op: Op, o: Oid)
    requires Inv(s) && Allowed(s, op) && o in s.objects && s.objects[o].refcount > 0
    ensures o in Apply(s, op).objects ==> Apply(s, op).objects[o].refcount > 0
  {
    hide Inv, ObjFree, Revoke, CapFree, CapCopy;
    match op
    case NewObject(_, _) =>
    case NewSlot(_, _, _) =>
    case Free(c) => if Counted(s, c) { FreeFacts(s, c); } else { UncountedFree(s, c); }
    case Copy(c, g, r) => if Counted(s, c) { CopyFacts(s, c, g, r); }
    case GetRef(_) =>
    case PutRef(_) =>
    case FreeObject(x) => SweepKeepsCount(s, x, o);
    case RevokeAll(c) => if Counted(s, c) { RevokeKeepsCount(s, At(s.groups, c).value.target, o); }
  }

  lemma UncountedFree(s: State, c: Cap)
    requires !Counted(s, c)
    ensures CapFree(s, c) == s
  {
  }

  lemma RevokeKeepsCount(s: State, x: Oid, o: Oid)
    requires Inv(s) && x in s.objects && o in s.objects && s.objects[o].refcount > 0
    ensures o in Revoke(s, x).objects ==> Revoke(s, x).objects[o].refcount > 0
  {
    hide Inv, Revoke;
    RevokeFacts(s, x);
  }

  /** An object in use is freed by exactly the operation that takes its last slot or held reference away. */
  lemma FreedAtLast(s: State, op: Op, o: Oid)
    requires Inv(s) && Allowed(s, op) && o in s.objects && Referenced(s, o)
    ensures o !in Apply(s, op).objects <==> !Referenced(Apply(s, op), o)
  {
    var s' := Apply(s, op);
    ApplyInv(s, op);
    ReferencedIff(s, o);
    CountKept(s, op, o);
    if o in s'.objects {
      ReferencedIff(s', o);
    }
  }

  // ---- Between the copy and the free of a move -----------------------------------------------------

  /** The operation takes the slot c, which is in use, away: it frees it, or it sweeps or revokes its object. */
  predicate Removes(s: State, op: Op, c: Cap) {
    && At(s.groups, c).Some?
    && var o := At(s.groups, c).value.target;
       match op
       case Free(d) => d == c
       case FreeObject(x) => x == o
       case RevokeAll(d) => Names(s.groups, d, o)
       case _ => false
  }

  /** The operation puts a slot under the id c, which is free. */
  predicate Fills(s: State, op: Op, c: Cap) {
    match op
    case NewSlot(g, _, _) => g < |s.groups| && NewCap(s.groups, g) == c
    case Copy(d, g, _) => g < |s.groups| && At(s.groups, d).Some? && NewCap(s.groups, g) == c
    case _ => false
  }

  lemma SweptSlots(s: State, o: Oid)
    requires Inv(s) && o in s.objects && s.held[o] > 0
    ensures forall d :: At(ObjFree(s, o).groups, d) == if Names(s.groups, d, o) then None else At(s.groups, d)
  {
    assert ObjectOk(s.groups, o, s.objects[o], s.held[o]);
    hide Inv;
    var cs := s.objects[o].copies;
    SweepFacts(s, o, |cs|);
    assert cs[..|cs|] == cs;
  }

  lemma UnusedSlots(s: State, o: Oid)
    requires Inv(s) && o in s.objects && s.objects[o].refcount == 0
    ensures forall d :: !Names(s.groups, d, o)
  {
    assert ObjectOk(s.groups, o, s.objects[o], s.held[o]);
    assert s.objects[o].copies == [];
  }

  /**
    obj_free: an object without references is gone; otherwise all its slots are, and it stays with the references that
    are held. Nothing else changes.
   */
  lemma ObjFreeFacts(s: State, o: Oid)
    requires Inv(s) && Allowed(s, FreeObject(o))
    ensures var s' := ObjFree(s, o);
            && s'.held == s.held
            && (forall d :: At(s'.groups, d) == if Names(s.groups, d, o) then None else At(s.groups, d))
            && (o in s'.objects <==> s.objects[o].refcount > 0)
            && (o in s'.objects ==> s'.objects[o] == s.objects[o].(refcount := s.held[o], copies := []))
            && forall x :: x != o ==>
                 (x in s'.objects <==> x in s.objects) && (x in s.objects ==> s'.objects[x] == s.objects[x])
  {
    if s.objects[o].refcount == 0 {
      UnusedSlots(s, o);
    } else {
      assert ObjectOk(s.groups, o, s.objects[o], s.held[o]);
      hide Inv;
      SweptSlots(s, o);
      var cs := s.objects[o].copies;
      SweepFacts(s, o, |cs|);
      assert cs[..|cs|] == cs && cs[|cs|..] == [];
    }
  }

  /** What becomes of a slot in one operation: it is taken away, or filled, or as it was. */
  lemma SlotAfter(s: State, op: Op, c: Cap)
    requires Inv(s) && Allowed(s, op)
    ensures At(s.groups, c).Some? ==> At(Apply(s, op).groups, c) == if Removes(s, op, c) then None else At(s.groups, c)
    ensures At(s.groups, c).None? ==> (At(Apply(s, op).groups, c).Some? <==> Fills(s, op, c))
    ensures op.NewSlot? && Fills(s, op, c) ==> At(Apply(s, op).groups, c) == Some(Slot(op.o, op.rights))
    ensures op.Copy? && Fills(s, op, c) ==>
              var slot := At(s.groups, op.c).value;
              At(Apply(s, op).groups, c) == Some(if op.r.Some? then Slot(slot.target, op.r.value) else slot)
  {
    hide Inv, FirstFree;
    match op
    case NewSlot(g, o, rights) => AddNames(s.groups, g, Slot(o, rights));
    case Free(d) => if At(s.groups, d).Some? { CapFreeInv(s, d); DropNames(s.groups, d); }
    case Copy(d, g, r) => if At(s.groups, d).Some? { NamedFacts(s, d); CopyFacts(s, d, g, r); }
    case FreeObject(o) =>
      if s.objects[o].refcount == 0 {
        UnusedSlots(s, o);
        assert !Names(s.groups, c, o);
      } else {
        SweptSlots(s, o);
      }
    case RevokeAll(d) => if At(s.groups, d).Some? { NamedFacts(s, d); RevokeFacts(s, At(s.groups, d).value.target); }
    case _ =>
  }

  /** No operation changes the kind of an object. */
  lemma KindAfter(s: State, op: Op, o: Oid)
    requires Inv(s) && Allowed(s, op) && o in Apply(s, op).objects
    ensures if o in s.objects then Apply(s, op).objects[o].kind == s.objects[o].kind
            else op == NewObject(o, Apply(s, op).objects[o].kind)
  {
    hide Inv, FirstFree, InsertAfter, AddSlot, DropSlot, Sweep, Revoke;
    match op
    case FreeObject(x) => if s.objects[x].refcount > 0 { SweepKind(s, s.objects[x].copies, o); }
    case RevokeAll(c) => if Counted(s, c) { RevokeKind(s, At(s.groups, c).value.target, o); }
    case _ =>
  }

  lemma RevokeKind(s: State, x: Oid, o: Oid)
    requires x in s.objects && o in Revoke(s, x).objects
    ensures o in s.objects && Revoke(s, x).objects[o].kind == s.objects[o].kind
  {
    hide Sweep;
    var s1 := Get(s, x);
    SweepKind(s1, s1.objects[x].copies, o);
  }

  lemma {:induction false} SweepKind(s: State, cs: seq<Cap>, o: Oid)
    requires o in Sweep(s, cs).objects
    ensures o in s.objects && Sweep(s, cs).objects[o].kind == s.objects[o].kind
    decreases |cs|
  {
    if cs != [] { SweepKind(CapFree(s, cs[0]), cs[1..], o); }
  }

  /** In every run an object has, as long as it lives, the kind it was allocated with. */
  lemma {:induction false} KindKept(ss: seq<State>, ops: seq<Op>, i: nat, o: Oid) returns (n: nat)
    requires Run(ss, ops) && i < |ss| && o in ss[i].objects
    ensures n < i <= |ops| && ops[n] == NewObject(o, ss[i].objects[o].kind)
    ensures forall m :: n < m <= i ==> o in ss[m].objects
    decreases i
  {
    hide Inv, Allowed, Apply;
    RunInv(ss, ops, i - 1);
    assert Step(ss[i - 1], ops[i - 1], ss[i - 1 + 1]);
    KindAfter(ss[i - 1], ops[i - 1], o);
    if o in ss[i - 1].objects {
      n := KindKept(ss, ops, i - 1, o);
    } else {
      n := i - 1;
    }
  }

  ghost predicate InUseAt(ss: seq<State>, n: nat, c: Cap) {
    n < |ss| && At(ss[n].groups, c).Some?
  }

  predicate RemovesAt(ss: seq<State>, ops: seq<Op>, n: nat, c: Cap) {
    n < |ops| < |ss| && Removes(ss[n], ops[n], c)
  }

  predicate FillsAt(ss: seq<State>, ops: seq<Op>, n: nat, c: Cap) {
    n < |ops| < |ss| && Fills(ss[n], ops[n], c)
  }

  /** After step i the slot has been taken away, and its id has not been given out again since. */
  ghost predicate LostSince(ss: seq<State>, ops: seq<Op>, i: nat, j: nat, c: Cap) {
    exists n: nat :: i < n < j && RemovesAt(ss, ops, n, c) && forall m: nat :: n < m < j ==> !FillsAt(ss, ops, m, c)
  }

  lemma SlotRunStep(ss: seq<State>, ops: seq<Op>, n: nat, c: Cap)
    requires Run(ss, ops) && n < |ops|
    ensures !InUseAt(ss, n + 1, c) <==> RemovesAt(ss, ops, n, c) || (!InUseAt(ss, n, c) && !FillsAt(ss, ops, n, c))
  {
    RunInv(ss, ops, n);
    assert Step(ss[n], ops[n], ss[n + 1]);
    hide Inv, Allowed, Apply, Fills;
    SlotAfter(ss[n], ops[n], c);
  }

  lemma LostStep(ss: seq<State>, ops: seq<Op>, i: nat, j: nat, c: Cap)
    requires i < j
    ensures LostSince(ss, ops, i, j + 1, c) <==>
            RemovesAt(ss, ops, j, c) || (LostSince(ss, ops, i, j, c) && !FillsAt(ss, ops, j, c))
  {
    hide RemovesAt, FillsAt;
    if LostSince(ss, ops, i, j + 1, c) {
      var n: nat :| i < n < j + 1 && RemovesAt(ss, ops, n, c) &&
                    forall m: nat :: n < m < j + 1 ==> !FillsAt(ss, ops, m, c);
      assert n < j ==> !FillsAt(ss, ops, j, c);
    }
    if RemovesAt(ss, ops, j, c) {
      assert LostSince(ss, ops, i, j + 1, c);
    } else if LostSince(ss, ops, i, j, c) && !FillsAt(ss, ops, j, c) {
      var n: nat :| i < n < j && RemovesAt(ss, ops, n, c) && forall m: nat :: n < m < j ==> !FillsAt(ss, ops, m, c);
      assert forall m: nat :: n < m < j + 1 ==> !FillsAt(ss, ops, m, c);
    }
  }

  lemma RunLength(ss: seq<State>, ops: seq<Op>)
    requires Run(ss, ops)
    ensures |ss| == |ops| + 1
  {
  }

  /** A slot that is in use in state i + 1 is not in use in state j exactly if it has been lost in between. */
  lemma {:induction false} LostIff(ss: seq<State>, ops: seq<Op>, i: nat, j: nat, c: Cap)
    requires Run(ss, ops) && i < j < |ss| && InUseAt(ss, i + 1, c)
    ensures !InUseAt(ss, j, c) <==> LostSince(ss, ops, i, j, c)
  {
    RunLength(ss, ops);
    hide Run, InUseAt, RemovesAt, FillsAt;
    if j > i + 1 {
      LostIff(ss, ops, i, j - 1, c);
      SlotRunStep(ss, ops, j - 1, c);
      LostStep(ss, ops, i, j - 1, c);
    }
  }

  /** Step i of the run is a copy of c that succeeds, as the first part of a move. */
  ghost predicate CopiesAt(ss: seq<State>, ops: seq<Op>, i: nat, c: Cap) {
    i < |ops| < |ss| && ops[i].Copy? && ops[i].c == c && InUseAt(ss, i, c)
  }

  /**
    The free of a move runs into its BUG_ON exactly if, since the copy, an operation has taken the source
    away and its id has not been given out again.
   */
  lemma MoveBugIff(ss: seq<State>, ops: seq<Op>, i: nat, j: nat, c: Cap)
    requires Run(ss, ops) && CopiesAt(ss, ops, i, c) && i < j < |ss|
    ensures !InUseAt(ss, j, c) <==> LostSince(ss, ops, i, j, c)
  {
    SlotRunStep(ss, ops, i, c);
    LostIff(ss, ops, i, j, c);
  }

  /** And it takes the very slot that was copied if no operation has taken that away. */
  lemma {:induction false} MoveTakesSource(ss: seq<State>, ops: seq<Op>, i: nat, j: nat, c: Cap)
    requires Run(ss, ops) && CopiesAt(ss, ops, i, c) && i < j < |ss|
    requires forall n: nat :: i < n < j ==> !RemovesAt(ss, ops, n, c)
    ensures InUseAt(ss, j, c) && At(ss[j].groups, c) == At(ss[i].groups, c)
    decreases j
  {
    var n := j - 1;
    if n > i { MoveTakesSource(ss, ops, i, n, c); }
    RunInv(ss, ops, n);
    assert Step(ss[n], ops[n], ss[n + 1]);
    assert !RemovesAt(ss, ops, n, c);
    hide Inv, Allowed, Apply;
    SlotAfter(ss[n], ops[n], c);
  }

  /** Four steps from the start: someone frees the source between the copy and the free of a move. */
  lemma MoveBugReachable(s: State, g: nat, o: Oid, kind: nat, rights: nat)
    returns (s1: State, s2: State, s3: State, s4: State, c: Cap)
    requires Initial(s) && g < |s.groups|
    ensures Step(s, NewObject(o, kind), s1) && Step(s1, NewSlot(g, o, rights), s2)
    ensures At(s2.groups, c).Some? && Step(s2, Copy(c, g, None), s3) && Step(s3, Free(c), s4)
    ensures At(s4.groups, c).None?
  {
    assert Inv(s) by {
      assert forall d, x :: !Names(s.groups, d, x);
    }
    c := NewCap(s.groups, g);
    s1 := Apply(s, NewObject(o, kind));
    ApplyInv(s, NewObject(o, kind));
    s2 := Apply(s1, NewSlot(g, o, rights));
    AddNames(s1.groups, g, Slot(o, rights));
    ApplyInv(s1, NewSlot(g, o, rights));
    hide Inv, Initial;
    s3 := Apply(s2, Copy(c, g, None));
    SlotAfter(s2, Copy(c, g, None), c);
    ApplyInv(s2, Copy(c, g, None));
    s4 := Apply(s3, Free(c));
    SlotAfter(s3, Free(c), c);
  }
}
