/**
  The radix tree: 16 levels of nodes with 16 cells, where a cell holds a child on the inner levels and a
  value on the last one. The tree is proved to be a map from 64-bit keys.
 */
module Radix {
  import opened Common

  const RADIX_LEVELS: nat := 16
  const RADIX_NODE_SIZE: nat := 16
  const LEAF: nat := 15

  type NodeId = nat

  /** The union of children and values; None is NULL. */
  type Node = s: seq<Option<nat>> | |s| == RADIX_NODE_SIZE witness seq(RADIX_NODE_SIZE, _ => None)

  const EMPTY_NODE: Node := seq(RADIX_NODE_SIZE, _ => None)

  // ---- Keys ----------------------------------------------------------------------------------------

  /** The keys of type u64. */
  predicate IsKey(key: nat) {
    key < 0x1_0000_0000_0000_0000
  }

  /** The key without its last n digits. */
  function Prefix(key: nat, n: nat): nat {
    if n == 0 then key else Prefix(key, n - 1) / RADIX_NODE_SIZE
  }

  /** A key has 16 digits. */
  lemma NoMoreDigits(key: nat)
    requires IsKey(key)
    ensures Prefix(key, RADIX_LEVELS) == 0
  {
    FourDigits(key, 0);
    FourDigits(key, 4);
    FourDigits(key, 8);
    FourDigits(key, 12);
    assert Prefix(key, 0) == key;
  }

  lemma FourDigits(key: nat, n: nat)
    ensures Prefix(key, n + 4) == Prefix(key, n) / 0x1_0000
  {
    assert Prefix(key, n + 2) == Prefix(key, n + 1) / RADIX_NODE_SIZE;
    assert Prefix(key, n + 3) == Prefix(key, n + 2) / RADIX_NODE_SIZE;
  }

  // ---- Trees ---------------------------------------------------------------------------------------

  /** Where a node sits: its level, and the digits that lead to it from the root, read as a number. */
  datatype Place = Place(level: nat, prefix: nat)

  const TOP := Place(0, 0)

  function Child(p: Place, k: nat): Place {
    Place(p.level + 1, RADIX_NODE_SIZE * p.prefix + k)
  }

  function Parent(p: Place): Place
    requires p.level > 0
  {
    Place(p.level - 1, p.prefix / RADIX_NODE_SIZE)
  }

  /** The places of the tree: the node at each, and the place of each node. */
  datatype Map = Map(at: map<Place, NodeId>, place: map<NodeId, Place>)

  ghost predicate PlaceOk(nodes: map<NodeId, Node>, m: Map, p: Place)
    requires p in m.at
  {
    p.level <= LEAF && m.at[p] in nodes && m.at[p] in m.place && m.place[m.at[p]] == p
  }

  ghost predicate Hangs(m: Map, p: Place) {
    p.level > 0 ==> Parent(p) in m.at
  }

  /** A cell of an inner node is exactly the node at the child's place. */
  ghost predicate CellOk(nodes: map<NodeId, Node>, m: Map, p: Place, k: nat)
    requires p in m.at && m.at[p] in nodes && k < RADIX_NODE_SIZE
  {
    nodes[m.at[p]][k] == if Child(p, k) in m.at then Some(m.at[Child(p, k)]) else None
  }

  ghost predicate TreeOk(nodes: map<NodeId, Node>, m: Map) {
    && (forall p :: p in m.at ==> PlaceOk(nodes, m, p))
    && (forall p {:trigger Hangs(m, p)} :: p in m.at ==> Hangs(m, p))
    && (forall p, k: nat {:trigger CellOk(nodes, m, p, k)} ::
          p in m.at && p.level < LEAF && k < RADIX_NODE_SIZE ==> CellOk(nodes, m, p, k))
  }

  /** The value stored under a key. */
  ghost function Value(nodes: map<NodeId, Node>, m: Map, key: nat): Option<nat> {
    var p := Place(LEAF, key / RADIX_NODE_SIZE);
    if p in m.at && m.at[p] in nodes then nodes[m.at[p]][key % RADIX_NODE_SIZE] else None
  }

  lemma ChildParent(p: Place, k: nat)
    requires k < RADIX_NODE_SIZE
    ensures Parent(Child(p, k)) == p
    ensures forall q, j: nat :: j < RADIX_NODE_SIZE && Child(q, j) == Child(p, k) ==> q == p && j == k
  {
  }

  /** A new empty node in an empty cell changes no value. */
  lemma Grow(nodes: map<NodeId, Node>, m: Map, p: Place, k: nat, id: NodeId)
    requires TreeOk(nodes, m) && p in m.at && p.level < LEAF && k < RADIX_NODE_SIZE
    requires nodes[m.at[p]][k].None? && id !in nodes
    ensures var nodes' := nodes[id := EMPTY_NODE][m.at[p] := nodes[m.at[p]][k := Some(id)]];
            var m' := Map(m.at[Child(p, k) := id], m.place[id := Child(p, k)]);
            && Child(p, k) !in m.at && TreeOk(nodes', m')
            && forall key: nat :: Value(nodes', m', key) == Value(nodes, m, key)
  {
    var nodes' := nodes[id := EMPTY_NODE][m.at[p] := nodes[m.at[p]][k := Some(id)]];
    var c := Child(p, k);
    var m' := Map(m.at[c := id], m.place[id := c]);
    assert CellOk(nodes, m, p, k);
    ChildParent(p, k);
    forall q | q in m'.at
      ensures Hangs(m', q)
    {
      assert q != c ==> Hangs(m, q);
    }
    forall q, j: nat | q in m'.at && q.level < LEAF && j < RADIX_NODE_SIZE
      ensures CellOk(nodes', m', q, j)
    {
      if q == c {
        ChildParent(c, j);
        assert Child(c, j) in m.at ==> Hangs(m, Child(c, j));
      } else {
        assert CellOk(nodes, m, q, j);
      }
    }
    forall key: nat
      ensures Value(nodes', m', key) == Value(nodes, m, key)
    {
    }
  }

  /** Writing a cell on the last level changes the value of one key. */
  lemma Store(nodes: map<NodeId, Node>, m: Map, key: nat, v: Option<nat>)
    requires TreeOk(nodes, m) && Place(LEAF, key / RADIX_NODE_SIZE) in m.at
    ensures var n := m.at[Place(LEAF, key / RADIX_NODE_SIZE)];
            var nodes' := nodes[n := nodes[n][key % RADIX_NODE_SIZE := v]];
            && TreeOk(nodes', m)
            && forall k: nat :: Value(nodes', m, k) == if k == key then v else Value(nodes, m, k)
  {
    var p := Place(LEAF, key / RADIX_NODE_SIZE);
    var n := m.at[p];
    var nodes' := nodes[n := nodes[n][key % RADIX_NODE_SIZE := v]];
    forall q | q in m.at
      ensures Hangs(m, q)
    {
    }
    forall q, j: nat | q in m.at && q.level < LEAF && j < RADIX_NODE_SIZE
      ensures CellOk(nodes', m, q, j)
    {
      assert CellOk(nodes, m, q, j);
    }
    forall k: nat
      ensures Value(nodes', m, k) == if k == key then v else Value(nodes, m, k)
    {
      assert k == RADIX_NODE_SIZE * (k / RADIX_NODE_SIZE) + k % RADIX_NODE_SIZE;
    }
  }

  /** Without a root there is nothing, and a new root holds no value. */
  lemma Plant(nodes: map<NodeId, Node>, m: Map, id: NodeId)
    requires TreeOk(nodes, m) && TOP !in m.at && id !in nodes && forall p :: p in m.at && p.level == 0 ==> p == TOP
    ensures var m' := Map(map[TOP := id], map[id := TOP]);
            && m.at == map[] && TreeOk(nodes[id := EMPTY_NODE], m')
            && forall key: nat :: Value(nodes[id := EMPTY_NODE], m', key) == Value(nodes, m, key)
  {
    forall p | p in m.at
      ensures false
    {
      Rooted(nodes, m, p);
    }
    var nodes', m' := nodes[id := EMPTY_NODE], Map(map[TOP := id], map[id := TOP]);
    forall p, k: nat | p in m'.at && p.level < LEAF && k < RADIX_NODE_SIZE
      ensures CellOk(nodes', m', p, k)
    {
    }
  }

  lemma {:induction false} Rooted(nodes: map<NodeId, Node>, m: Map, p: Place)
    requires TreeOk(nodes, m) && p in m.at && forall q :: q in m.at && q.level == 0 ==> q == TOP
    ensures TOP in m.at
    decreases p.level
  {
    assert Hangs(m, p);
    if p.level > 0 {
      Rooted(nodes, m, Parent(p));
    }
  }

  /** What a node on the way holds. */
  lemma Here(nodes: map<NodeId, Node>, m: Map, p: Place, k: nat)
    requires TreeOk(nodes, m) && p in m.at && k < RADIX_NODE_SIZE
    ensures m.at[p] in nodes && (p.level < LEAF ==> CellOk(nodes, m, p, k))
  {
  }

  /** If the way of a key ends early, the key has no value. */
  lemma {:induction false} DeadEnd(nodes: map<NodeId, Node>, m: Map, key: nat, i: nat)
    requires TreeOk(nodes, m) && 1 <= i <= LEAF && Place(RADIX_LEVELS - i, Prefix(key, i)) !in m.at
    ensures Value(nodes, m, key) == None
  {
    var p := Place(RADIX_LEVELS - i, Prefix(key, i));
    if i > 1 {
      var c := Place(p.level + 1, Prefix(key, i - 1));
      assert c in m.at ==> Hangs(m, c);
      DeadEnd(nodes, m, key, i - 1);
    } else {
      assert Prefix(key, 1) == key / RADIX_NODE_SIZE by { assert Prefix(key, 0) == key; }
    }
  }

  // ---- The nodes on the way of a key ---------------------------------------------------------------

  /** Where the way of the key passes, i levels above its value. */
  function Way(key: nat, i: nat): Place
    requires 1 <= i <= RADIX_LEVELS
  {
    Place(RADIX_LEVELS - i, Prefix(key, i))
  }

  /** How many of the lowest i nodes on the way of the key are missing. */
  ghost function Missing(m: Map, key: nat, i: nat): nat
    requires i <= RADIX_LEVELS
  {
    if i == 0 then 0 else Missing(m, key, i - 1) + if Way(key, i) in m.at then 0 else 1
  }

  lemma MissingStep(m: Map, key: nat, i: nat)
    requires 1 <= i <= RADIX_LEVELS
    ensures Missing(m, key, i) == Missing(m, key, i - 1) + if Way(key, i) in m.at then 0 else 1
  {
  }

  lemma MissingTop(m: Map, key: nat)
    requires IsKey(key)
    ensures Missing(m, key, RADIX_LEVELS) == Missing(m, key, LEAF) + if TOP in m.at then 0 else 1
  {
    NoMoreDigits(key);
  }

  lemma NextDigit(key: nat, i: nat)
    ensures Prefix(key, i) == RADIX_NODE_SIZE * Prefix(key, i + 1) + Prefix(key, i) % RADIX_NODE_SIZE
  {
  }

  lemma {:induction false} MissingAtMost(m: Map, key: nat, i: nat)
    requires i <= RADIX_LEVELS
    ensures Missing(m, key, i) <= i
  {
    if i > 0 { MissingAtMost(m, key, i - 1); }
  }

  // ---- The tree in memory --------------------------------------------------------------------------

  class RadixTree {
    var root: Option<NodeId>
    var nodes: map<NodeId, Node>
    ghost var m: Map

    ghost predicate Valid()
      reads this
    {
      && TreeOk(nodes, m)
      && (root.Some? <==> TOP in m.at) && (root.Some? ==> m.at[TOP] == root.value)
      && forall p :: p in m.at && p.level == 0 ==> p == TOP
    }

    /** The map that the tree stands for. */
    ghost function Find(key: nat): Option<nat>
      reads this
    {
      Value(nodes, m, key)
    }

    /** init_radix */
    constructor (id: NodeId)
      ensures Valid() && root.Some? && forall key: nat :: Find(key) == None
    {
      root := Some(id);
      nodes := map[id := EMPTY_NODE];
      m := Map(map[TOP := id], map[id := TOP]);
    }

    /** The index of each level, from the last digit up. */
    method Indices(key: nat) returns (index: seq<nat>)
      ensures |index| == RADIX_LEVELS
      ensures forall i: nat :: i < RADIX_LEVELS ==> index[i] == Prefix(key, i) % RADIX_NODE_SIZE
    {
      var a := new nat[RADIX_LEVELS](_ => 0);
      var rest: nat := key;
      for i := 0 to RADIX_LEVELS
        invariant rest == Prefix(key, i)
        invariant forall j: nat :: j < i ==> a[j] == Prefix(key, j) % RADIX_NODE_SIZE
      {
        a[i] := rest % RADIX_NODE_SIZE;
        rest := rest / RADIX_NODE_SIZE;
      }
      return a[..];
    }

    /** new_radix_node: memory counts the nodes that can still be allocated. */
    method NewNode(memory: nat) returns (r: Option<NodeId>)
      ensures r.None? <==> memory == 0
      ensures r.Some? ==> r.value !in nodes
    {
      if memory == 0 {
        return None;
      }
      var id := FreshId(nodes.Keys);
      return Some(id);
    }

    /** One level of radix_add: the child of node on the way of the key, made if it is not there. */
    method Descend(node: NodeId, k: nat, memory: nat, ghost p: Place) returns (child: Option<NodeId>, left: nat)
      requires Valid() && p in m.at && m.at[p] == node && p.level < LEAF && k < RADIX_NODE_SIZE
      modifies this`nodes, this`m
      ensures Valid() && (child.None? <==> Child(p, k) !in old(m).at && memory == 0)
      ensures child.Some? ==> Child(p, k) in m.at && m.at[Child(p, k)] == child.value
      ensures child.Some? ==> memory == left + if Child(p, k) in old(m).at then 0 else 1
      ensures forall q :: q in m.at <==> q in old(m).at || (q == Child(p, k) && child.Some?)
      ensures forall key: nat :: Find(key) == old(Find(key))
    {
      hide TreeOk, Value;
      Here(nodes, m, p, k);
      if nodes[node][k].Some? {
        return nodes[node][k], memory;
      }
      child := NewNode(memory);
      if child.None? {
        return child, memory;
      }
      Grow(nodes, m, p, k, child.value);
      nodes := nodes[child.value := EMPTY_NODE];
      nodes := nodes[node := nodes[node][k := child]];
      m := Map(m.at[Child(p, k) := child.value], m.place[child.value := Child(p, k)]);
      left := memory - 1;
    }

    /** radix_add makes the root if there is none. */
    method EnsureRoot(memory: nat) returns (ok: bool, left: nat)
      requires Valid()
      modifies this
      ensures Valid() && (ok <==> root.Some?) && (ok <==> TOP in old(m).at || memory > 0)
      ensures ok ==> memory == left + if TOP in old(m).at then 0 else 1
      ensures forall q :: q in m.at <==> q in old(m).at || (q == TOP && ok)
      ensures forall key: nat :: Find(key) == old(Find(key))
    {
      hide TreeOk, Value;
      if root.Some? {
        return true, memory;
      }
      var new_ := NewNode(memory);
      if new_.None? {
        return false, memory;
      }
      Plant(nodes, m, new_.value);
      nodes := nodes[new_.value := EMPTY_NODE];
      m := Map(map[TOP := new_.value], map[new_.value := TOP]);
      root := new_;
      return true, memory - 1;
    }

    /**
      radix_add: the value of the key and of no other key. Out of memory it may leave empty nodes behind,
      but every key keeps its value. A second value for a key is its BUG_ON; NULL deletes.
     */
    method Add(key: nat, value: Option<nat>, memory: nat) returns (r: int)
      requires Valid() && IsKey(key) && (value.Some? ==> Find(key).None?)
      modifies this
      ensures Valid() && r == if Missing(old(m), key, RADIX_LEVELS) <= memory then 0 else -ENOMEM
      ensures memory >= RADIX_LEVELS ==> r == 0
      ensures forall k: nat :: Find(k) == if r == 0 && k == key then value else old(Find(k))
    {
      hide TreeOk, Value, Prefix, Missing;
      MissingAtMost(m, key, RADIX_LEVELS);
      MissingAtMost(m, key, 0);
      MissingTop(m, key);
      var ok: bool, left: nat := EnsureRoot(memory);
      if !ok {
        return -ENOMEM;
      }
      var node := root.value;
      var index := Indices(key);
      NoMoreDigits(key);
      var i: nat := LEAF;
      while i > 0
        invariant 0 <= i <= LEAF && Valid() && root.Some?
        invariant left + Missing(old(m), key, RADIX_LEVELS) == memory + Missing(old(m), key, i)
        invariant forall j: nat :: 1 <= j <= i ==> (Way(key, j) in m.at <==> Way(key, j) in old(m).at)
        invariant var p := Place(LEAF - i, Prefix(key, i + 1)); p in m.at && m.at[p] == node
        invariant forall k: nat :: Find(k) == old(Find(k))
      {
        ghost var p := Place(LEAF - i, Prefix(key, i + 1));
        NextDigit(key, i);
        assert Child(p, index[i]) == Way(key, i);
        MissingStep(old(m), key, i);
        var child;
        child, left := Descend(node, index[i], left, p);
        if child.None? {
          return -ENOMEM;
        }
        node := child.value;
        i := i - 1;
      }
      FirstDigits(key);
      Here(nodes, m, Place(LEAF, key / RADIX_NODE_SIZE), 0);
      Store(nodes, m, key, value);
      nodes := nodes[node := nodes[node][index[0] := value]];
      return 0;
    }

    /** radix_get: what was stored last. */
    method Get(key: nat) returns (r: Option<nat>)
      requires Valid() && IsKey(key)
      ensures r == Find(key)
    {
      hide TreeOk, Value;
      NoMoreDigits(key);
      if root.None? {
        NoRoot(nodes, m, key);
        return None;
      }
      var node := root.value;
      var index := Indices(key);
      var i: nat := LEAF;
      while i > 0
        invariant 0 <= i <= LEAF
        invariant var p := Place(LEAF - i, Prefix(key, i + 1)); p in m.at && m.at[p] == node
      {
        ghost var p := Place(LEAF - i, Prefix(key, i + 1));
        assert Child(p, index[i]) == Place(RADIX_LEVELS - i, Prefix(key, i));
        Here(nodes, m, p, index[i]);
        if nodes[node][index[i]].None? {
          DeadEnd(nodes, m, key, i);
          return None;
        }
        node := nodes[node][index[i]].value;
        i := i - 1;
      }
      FirstDigits(key);
      Here(nodes, m, Place(LEAF, key / RADIX_NODE_SIZE), 0);
      Stored(nodes, m, key);
      return nodes[node][index[0]];
    }

    /** radix_del: the key has no value any more; it too can run out of memory on the way. */
    method Del(key: nat, memory: nat) returns (r: int)
      requires Valid() && IsKey(key)
      modifies this
      ensures Valid() && r == if Missing(old(m), key, RADIX_LEVELS) <= memory then 0 else -ENOMEM
      ensures memory >= RADIX_LEVELS ==> r == 0
      ensures forall k: nat :: Find(k) == if r == 0 && k == key then None else old(Find(k))
    {
      r := Add(key, None, memory);
    }

    /** radix_free_node: the deleter is called once for each key under the node that has a value. */
    method FreeNode(node: NodeId, level: nat, ghost p: Place) returns (values: seq<nat>, ghost keys: seq<nat>)
      requires Valid() && level == p.level <= LEAF && p in m.at && m.at[p] == node
      ensures Deleted(nodes, m, p, RADIX_NODE_SIZE, values, keys)
      decreases LEAF - level
    {
      hide TreeOk, Value, Under, Branch;
      values, keys := [], [];
      NothingYet(nodes, m, p);
      for i := 0 to RADIX_NODE_SIZE
        invariant Deleted(nodes, m, p, i, values, keys)
      {
        Here(nodes, m, p, i);
        var vs: seq<nat> := [];
        ghost var ks: seq<nat> := [];
        if level == LEAF {
          LeafKey(nodes, m, p, i);
          if nodes[node][i].Some? {
            vs := [nodes[node][i].value];
            ks := [RADIX_NODE_SIZE * p.prefix + i];
          }
        } else if nodes[node][i].Some? {
          vs, ks := FreeNode(nodes[node][i].value, level + 1, Child(p, i));
          DeletedChild(nodes, m, p, i, vs, ks);
        } else {
          NoChild(nodes, m, p, i);
        }
        DeletedJoin(nodes, m, p, i, values, keys, vs, ks);
        values, keys := values + vs, keys + ks;
      }
    }

    /** radix_free: every stored value goes to the deleter exactly once; an empty tree is an error. */
    method Free() returns (r: int, values: seq<nat>, ghost keys: seq<nat>)
      requires Valid()
      ensures r == if root.None? then -EINVAL else 0
      ensures |keys| == |values| && NoDuplicates(keys)
      ensures forall i :: 0 <= i < |keys| ==> Find(keys[i]) == Some(values[i])
      ensures forall key: nat :: IsKey(key) && Find(key).Some? ==> key in keys
    {
      hide TreeOk, Value, Prefix;
      if root.None? {
        forall key: nat
          ensures Find(key) == None
        {
          NoRoot(nodes, m, key);
        }
        return -EINVAL, [], [];
      }
      values, keys := FreeNode(root.value, 0, TOP);
      forall key: nat | IsKey(key)
        ensures Under(TOP, key) && Branch(TOP, key) < RADIX_NODE_SIZE
      {
        NoMoreDigits(key);
      }
      r := 0;
    }
  }

  lemma NothingYet(nodes: map<NodeId, Node>, m: Map, p: Place)
    requires p.level <= LEAF
    ensures Deleted(nodes, m, p, 0, [], [])
  {
  }

  // ---- Freeing -------------------------------------------------------------------------------------

  /** The key's way goes through the place. */
  predicate Under(p: Place, key: nat) {
    p.level <= RADIX_LEVELS && Prefix(key, RADIX_LEVELS - p.level) == p.prefix
  }

  /** The cell of the place that the key's way takes. */
  function Branch(p: Place, key: nat): nat
    requires p.level <= LEAF
  {
    Prefix(key, LEAF - p.level) % RADIX_NODE_SIZE
  }

  lemma UnderChild(p: Place, key: nat, k: nat)
    requires p.level <= LEAF && k < RADIX_NODE_SIZE
    ensures Under(Child(p, k), key) <==> Under(p, key) && Branch(p, key) == k
  {
    assert Prefix(key, RADIX_LEVELS - p.level) == Prefix(key, LEAF - p.level) / RADIX_NODE_SIZE;
  }

  /** The calls of the deleter are, one each, the values of the keys under p that branch below k. */
  ghost predicate Deleted(nodes: map<NodeId, Node>, m: Map, p: Place, k: nat, values: seq<nat>, keys: seq<nat>)
    requires p.level <= LEAF
  {
    && |keys| == |values| && NoDuplicates(keys)
    && (forall i :: 0 <= i < |keys| ==>
          Under(p, keys[i]) && Branch(p, keys[i]) < k && Value(nodes, m, keys[i]) == Some(values[i]))
    && (forall key: nat :: Under(p, key) && Branch(p, key) < k && Value(nodes, m, key).Some? ==> key in keys)
  }

  lemma DeletedJoin(nodes: map<NodeId, Node>, m: Map, p: Place, k: nat, vs: seq<nat>, ks: seq<nat>, vs': seq<nat>,
                    ks': seq<nat>)
    requires p.level <= LEAF && k < RADIX_NODE_SIZE && Deleted(nodes, m, p, k, vs, ks) && |ks'| == |vs'|
    requires NoDuplicates(ks')
    requires forall i :: 0 <= i < |ks'| ==>
               Under(p, ks'[i]) && Branch(p, ks'[i]) == k && Value(nodes, m, ks'[i]) == Some(vs'[i])
    requires forall key: nat :: Under(p, key) && Branch(p, key) == k && Value(nodes, m, key).Some? ==> key in ks'
    ensures Deleted(nodes, m, p, k + 1, vs + vs', ks + ks')
  {
    hide Value, Under, Branch;
    var keys, values := ks + ks', vs + vs';
    forall i, j | 0 <= i < j < |keys|
      ensures keys[i] != keys[j]
    {
      if i < |ks| <= j {
        assert Branch(p, ks[i]) < k && Branch(p, ks'[j - |ks|]) == k;
      }
    }
  }

  /** The keys of the child at k. */
  lemma DeletedChild(nodes: map<NodeId, Node>, m: Map, p: Place, k: nat, vs: seq<nat>, ks: seq<nat>)
    requires p.level < LEAF && k < RADIX_NODE_SIZE && Deleted(nodes, m, Child(p, k), RADIX_NODE_SIZE, vs, ks)
    ensures forall i :: 0 <= i < |ks| ==>
              Under(p, ks[i]) && Branch(p, ks[i]) == k && Value(nodes, m, ks[i]) == Some(vs[i])
    ensures forall key: nat :: Under(p, key) && Branch(p, key) == k && Value(nodes, m, key).Some? ==> key in ks
  {
    hide Value;
    forall key: nat
      ensures Under(Child(p, k), key) <==> Under(p, key) && Branch(p, key) == k
    {
      UnderChild(p, key, k);
    }
    hide Under, Branch;
  }

  /** Without a child no key has a value that way. */
  lemma NoChild(nodes: map<NodeId, Node>, m: Map, p: Place, k: nat)
    requires TreeOk(nodes, m) && p.level < LEAF && k < RADIX_NODE_SIZE && Child(p, k) !in m.at
    ensures forall key: nat :: Under(p, key) && Branch(p, key) == k ==> Value(nodes, m, key) == None
  {
    forall key: nat | Under(p, key) && Branch(p, key) == k
      ensures Value(nodes, m, key) == None
    {
      UnderChild(p, key, k);
      DeadEnd(nodes, m, key, LEAF - p.level);
    }
  }

  /** On the last level there is one key for each cell. */
  lemma LeafKey(nodes: map<NodeId, Node>, m: Map, p: Place, k: nat)
    requires TreeOk(nodes, m) && p in m.at && p.level == LEAF && k < RADIX_NODE_SIZE
    ensures m.at[p] in nodes
    ensures var key := RADIX_NODE_SIZE * p.prefix + k;
            && Under(p, key) && Branch(p, key) == k && Value(nodes, m, key) == nodes[m.at[p]][k]
            && forall other: nat :: Under(p, other) && Branch(p, other) == k ==> other == key
  {
    var key := RADIX_NODE_SIZE * p.prefix + k;
    FirstDigits(key);
    forall other: nat | Under(p, other) && Branch(p, other) == k
      ensures other == key
    {
      FirstDigits(other);
    }
  }

  lemma FirstDigits(key: nat)
    ensures Prefix(key, 0) == key && Prefix(key, 1) == key / RADIX_NODE_SIZE
  {
    assert Prefix(key, 0) == key;
  }

  lemma NoRoot(nodes: map<NodeId, Node>, m: Map, key: nat)
    requires TreeOk(nodes, m) && TOP !in m.at && forall p :: p in m.at && p.level == 0 ==> p == TOP
    ensures Value(nodes, m, key) == None
  {
    var p := Place(LEAF, key / RADIX_NODE_SIZE);
    if p in m.at {
      Rooted(nodes, m, p);
    }
  }

  lemma Stored(nodes: map<NodeId, Node>, m: Map, key: nat)
    requires TreeOk(nodes, m) && Place(LEAF, key / RADIX_NODE_SIZE) in m.at
    ensures m.at[Place(LEAF, key / RADIX_NODE_SIZE)] in nodes
    ensures Value(nodes, m, key) == nodes[m.at[Place(LEAF, key / RADIX_NODE_SIZE)]][key % RADIX_NODE_SIZE]
  {
  }

  method FreshId(used: set<NodeId>) returns (id: NodeId)
    ensures id !in used
  {
    id := 0;
    var rest := used;
    while id in used
      invariant rest <= used && forall x :: x in used && x !in rest ==> x < id
      decreases |rest|
    {
      rest := rest - {id};
      id := id + 1;
    }
  }
}
