/**
  The slot table of a capability group: an array of slots with a bitmap of the ids in use, and a second
  bitmap that marks words of the first one as full so that the search for a free id can skip them.
 */
module SlotTable {
  import opened Common

  const BITS: nat := 64
  const WORD_BYTES: nat := 8

  /** An unsigned long, lowest bit first. */
  type Word = w: seq<bool> | |w| == BITS witness seq(BITS, _ => false)

  const ZEROS: Word := seq(BITS, _ => false)

  predicate AllOnes(w: Word) {
    forall i :: 0 <= i < BITS ==> w[i]
  }

  function WordsFor(bits: nat): nat {
    (bits + BITS - 1) / BITS
  }

  /** get_bit */
  predicate Bit(p: seq<Word>, i: nat)
    requires i / BITS < |p|
  {
    p[i / BITS][i % BITS]
  }

  /** set_bit and clear_bit */
  function WithBit(p: seq<Word>, i: nat, b: bool): seq<Word>
    requires i / BITS < |p|
  {
    p[i / BITS := p[i / BITS][i % BITS := b]]
  }

  lemma WithBitBits(p: seq<Word>, i: nat, b: bool, j: nat)
    requires i / BITS < |p| && j / BITS < |p|
    ensures Bit(WithBit(p, i, b), j) == if i == j then b else Bit(p, j)
  {
    if i != j && i / BITS == j / BITS {
      assert i % BITS != j % BITS;
    }
  }

  // ---- Searching a bitmap --------------------------------------------------------------------------

  /** The set bits of p, inverted when invert is set, with those below low masked out. */
  function Masked(w: Word, invert: bool, low: nat): Word {
    seq(BITS, i requires 0 <= i < BITS => low <= i && w[i] != invert)
  }

  /** ctzl: the number of zeros below the lowest set bit; of a zero word, the size of a word in bytes. */
  method Ctzl(w: Word) returns (i: nat)
    ensures (exists k :: 0 <= k < BITS && w[k]) ==> i < BITS && w[i] && forall j :: 0 <= j < i ==> !w[j]
    ensures (forall k :: 0 <= k < BITS ==> !w[k]) ==> i == WORD_BYTES
  {
    i := 0;
    while i < BITS
      invariant i <= BITS && forall j :: 0 <= j < i ==> !w[j]
    {
      if w[i] {
        return;
      }
      i := i + 1;
    }
    i := WORD_BYTES;
  }

  /** Where the first bit from start on has the value v; size if there is none. */
  ghost predicate IsNext(p: seq<Word>, size: nat, start: nat, v: bool, r: nat)
    requires size <= BITS * |p|
  {
    && start <= r <= size
    && (forall i :: start <= i < r ==> Bit(p, i) != v)
    && (r < size ==> Bit(p, r) == v)
  }

  /** The word of bit i, and the first bit of the next word. */
  lemma WordOf(i: nat, k: nat)
    requires k * BITS <= i < k * BITS + BITS
    ensures i / BITS == k && i % BITS == i - k * BITS
  {
  }

  /** __find_next_bit: whole words at a time. */
  method FindNextBit(p: seq<Word>, size: nat, from: nat, invert: bool) returns (r: nat)
    requires size <= BITS * |p|
    ensures if size <= from then r == size else IsNext(p, size, from, !invert, r)
  {
    if size <= from {
      return size;
    }
    var word := from / BITS;
    var tmp := Masked(p[word], invert, from % BITS);
    var start := BITS * word;
    while forall i :: 0 <= i < BITS ==> !tmp[i]
      invariant word < |p| && start == BITS * word < size
      invariant word == from / BITS || from <= start
      invariant tmp == Masked(p[word], invert, if word == from / BITS then from % BITS else 0)
      invariant forall i :: from <= i < start ==> Bit(p, i) == invert
      decreases |p| - word
    {
      NoneInWord(p, word, invert, from, tmp, size);
      start := start + BITS;
      word := word + 1;
      if start >= size {
        return size;
      }
      tmp := Masked(p[word], invert, 0);
    }
    var k := Ctzl(tmp);
    FirstInWord(p, word, invert, from, tmp, k);
    r := if start + k < size then start + k else size;
  }

  lemma NoneInWord(p: seq<Word>, word: nat, invert: bool, from: nat, tmp: Word, size: nat)
    requires word < |p| && (word == from / BITS || from <= BITS * word)
    requires tmp == Masked(p[word], invert, if word == from / BITS then from % BITS else 0)
    requires forall i :: 0 <= i < BITS ==> !tmp[i]
    ensures forall i :: from <= i && BITS * word <= i < BITS * word + BITS ==> Bit(p, i) == invert
  {
    forall i | from <= i && BITS * word <= i < BITS * word + BITS
      ensures Bit(p, i) == invert
    {
      WordOf(i, word);
      assert !tmp[i % BITS];
    }
  }

  lemma FirstInWord(p: seq<Word>, word: nat, invert: bool, from: nat, tmp: Word, k: nat)
    requires word < |p| && (word == from / BITS || from <= BITS * word)
    requires tmp == Masked(p[word], invert, if word == from / BITS then from % BITS else 0)
    requires k < BITS && tmp[k] && forall j :: 0 <= j < k ==> !tmp[j]
    ensures from <= BITS * word + k && Bit(p, BITS * word + k) == !invert
    ensures forall i :: from <= i && BITS * word <= i < BITS * word + k ==> Bit(p, i) == invert
  {
    WordOf(BITS * word + k, word);
    forall i | from <= i && BITS * word <= i < BITS * word + k
      ensures Bit(p, i) == invert
    {
      WordOf(i, word);
      assert !tmp[i % BITS];
    }
  }

  // ---- The table -----------------------------------------------------------------------------------

  /** Id i is in use. */
  ghost predicate Used(bmp: seq<Word>, i: nat) {
    i / BITS < |bmp| && Bit(bmp, i)
  }

  ghost predicate NoneFree(bmp: seq<Word>) {
    forall i: nat :: i < BITS * |bmp| ==> Used(bmp, i)
  }

  ghost predicate LeastFree(bmp: seq<Word>, id: nat) {
    id < BITS * |bmp| && !Used(bmp, id) && forall i: nat :: i < id ==> Used(bmp, i)
  }

  /** A word marked full is full. */
  ghost predicate Sound(bmp: seq<Word>, full: seq<Word>) {
    && |full| == WordsFor(|bmp|)
    && forall j: nat :: Used(full, j) ==> j < |bmp| && AllOnes(bmp[j])
  }

  class Table<T> {
    var size: nat
    var slots: seq<Option<T>>
    var full: seq<Word>
    var bmp: seq<Word>

    ghost predicate Valid()
      reads this
    {
      && size == BITS * |bmp| && |slots| == size
      && Sound(bmp, full)
      && forall i: nat :: i < size && slots[i].Some? ==> Used(bmp, i)
    }

    /** slot_table_init: the size is rounded up to whole words, and nothing is in use. */
    constructor (n: nat)
      ensures Valid() && n <= size < n + BITS
      ensures forall i: nat :: !Used(bmp, i)
    {
      var words := WordsFor(n);
      size := BITS * words;
      slots := seq(BITS * words, _ => None);
      bmp := seq(words, _ => ZEROS);
      full := seq(WordsFor(words), _ => ZEROS);
    }

    /** expand_slot_table: one more word, everything old copied. */
    method Expand()
      requires Valid()
      modifies this
      ensures Valid() && size == old(size) + BITS
      ensures slots == old(slots) + seq(BITS, _ => None)
      ensures bmp == old(bmp) + [ZEROS]
    {
      hide Bit, WordsFor, Used;
      ExpandSound(bmp, full);
      GrownBits(bmp, ZEROS);
      WordsOfWhole(|bmp| + 1);
      var words := WordsFor(size + BITS);
      var more := WordsFor(words);
      var newBmp := bmp + seq(words - |bmp|, _ => ZEROS);
      assert newBmp == bmp + [ZEROS];
      var newFull := full + seq(more - |full|, _ => ZEROS);
      var newSlots := slots + seq(BITS, _ => None);
      size := size + BITS;
      slots := newSlots;
      bmp := newBmp;
      full := newFull;
    }

    /** The two searches of alloc_slot_id: skip the words marked full, then look for a free id. */
    method Search() returns (empty: nat)
      requires Valid()
      ensures if empty < size then LeastFree(bmp, empty) else NoneFree(bmp)
    {
      hide Bit, WordsFor, IsNext, AllOnes;
      FullCovers(bmp, full);
      var word := FindNextBit(full, |bmp|, 0, true);
      SkipFull(bmp, full, word);
      if word >= |bmp| {
        return size;
      }
      empty := FindNextBit(bmp, size, BITS * word, true);
      SearchEnds(bmp, word, empty);
    }

    /**
      alloc_slot_id: the least id that is not in use; the table grows by one word exactly when every id is
      in use, and then every old slot keeps its id. memory says whether the allocations of a growth succeed.
     */
    method AllocSlotId(memory: bool) returns (id: int)
      requires Valid()
      modifies this
      ensures Valid()
      ensures !NoneFree(old(bmp)) ==> id >= 0 && LeastFree(old(bmp), id) && size == old(size) && slots == old(slots)
      ensures NoneFree(old(bmp)) && memory ==>
                id == old(size) && size == old(size) + BITS && slots == old(slots) + seq(BITS, _ => None)
      ensures NoneFree(old(bmp)) && !memory ==>
                id == -ENOMEM && size == old(size) && slots == old(slots) && bmp == old(bmp)
      ensures id >= 0 ==> id < size && slots[id].None? && forall i: nat :: Used(bmp, i) <==>
                Used(old(bmp), i) || i == id
    {
      hide Bit, WordsFor, AllOnes, Sound, Used, LeastFree, NoneFree;
      var empty := 0;
      ghost var grown := false;
      ghost var bmp0, slots0 := bmp, slots;
      while true
        invariant Valid()
        invariant grown ==> NoneFree(bmp0) && memory && bmp == bmp0 + [ZEROS] && slots == slots0 + seq(BITS, _ => None)
        invariant !grown ==> bmp == bmp0 && slots == slots0
        decreases if grown then 0 else 1
      {
        empty := Search();
        if empty < size {
          break;
        }
        if !memory {
          return -ENOMEM;
        }
        GrownHasFree(bmp0);
        Expand();
        grown := true;
      }
      GrownLeast(bmp0, empty);
      SetBit(bmp, full, empty);
      ghost var bmp1 := bmp;
      bmp := WithBit(bmp, empty, true);
      if AllOnes(bmp[empty / BITS]) {
        full := WithBit(full, empty / BITS, true);
      }
      NewSlot(bmp1, bmp, slots, empty);
      GrownBits(bmp0, ZEROS);
      return empty;
    }

    /** free_slot_id */
    method FreeSlotId(id: nat)
      requires Valid() && id < size
      modifies this
      ensures Valid() && size == old(size) && slots == old(slots)[id := None]
      ensures forall i: nat :: Used(bmp, i) <==> Used(old(bmp), i) && i != id
    {
      hide Bit, WordsFor, AllOnes, Sound, Used;
      ClearBit(bmp, full, id);
      bmp := WithBit(bmp, id, false);
      full := WithBit(full, id / BITS, false);
      slots := slots[id := None];
    }

    /** install_slot; an id that was not allocated is its BUG_ON. */
    method InstallSlot(id: nat, slot: T)
      requires Valid() && Used(bmp, id)
      modifies this`slots
      ensures Valid() && slots == old(slots)[id := Some(slot)]
    {
      slots := slots[id := Some(slot)];
    }

    /** get_slot */
    function GetSlot(id: int): (r: Option<T>)
      requires Valid()
      reads this
      ensures r.Some? ==> 0 <= id < size && Used(bmp, id)
    {
      if id < 0 || id >= size then None else slots[id]
    }
  }

  // ---- What the methods rest on --------------------------------------------------------------------

  lemma WordsOfWhole(k: nat)
    ensures WordsFor(BITS * k) == k
  {
  }

  lemma FullCovers(bmp: seq<Word>, full: seq<Word>)
    requires Sound(bmp, full)
    ensures |bmp| <= BITS * |full|
  {
  }

  lemma GrownBits(bmp: seq<Word>, w: Word)
    ensures forall i: nat :: i < BITS * |bmp| ==> (Used(bmp + [w], i) <==> Used(bmp, i))
    ensures w == ZEROS ==> forall i: nat :: Used(bmp + [w], i) <==> Used(bmp, i)
  {
  }

  /** A growth marks no word as full. */
  lemma ExpandSound(bmp: seq<Word>, full: seq<Word>)
    requires Sound(bmp, full)
    ensures |full| <= WordsFor(|bmp| + 1) <= |full| + 1
    ensures Sound(bmp + [ZEROS], full + seq(WordsFor(|bmp| + 1) - |full|, _ => ZEROS))
  {
    var full' := full + seq(WordsFor(|bmp| + 1) - |full|, _ => ZEROS);
    forall j: nat | Used(full', j)
      ensures Used(full, j)
    {
    }
  }

  /** Every id below the first word that is not marked full is in use. */
  lemma SkipFull(bmp: seq<Word>, full: seq<Word>, word: nat)
    requires Sound(bmp, full) && word <= |bmp| <= BITS * |full|
    requires if |bmp| <= 0 then word == |bmp| else IsNext(full, |bmp|, 0, false, word)
    ensures forall i: nat :: i < BITS * word ==> Used(bmp, i)
  {
    forall i: nat | i < BITS * word
      ensures Used(bmp, i)
    {
      assert Used(full, i / BITS);
    }
  }

  lemma SearchEnds(bmp: seq<Word>, word: nat, empty: nat)
    requires word < |bmp| && IsNext(bmp, BITS * |bmp|, BITS * word, false, empty)
    requires forall i: nat :: i < BITS * word ==> Used(bmp, i)
    ensures if empty < BITS * |bmp| then LeastFree(bmp, empty) else NoneFree(bmp)
  {
  }

  lemma GrownHasFree(bmp: seq<Word>)
    ensures !NoneFree(bmp + [ZEROS])
  {
    assert !Used(bmp + [ZEROS], BITS * |bmp|);
  }

  /** After a growth the least free id is the first new one. */
  lemma GrownLeast(bmp: seq<Word>, id: nat)
    ensures LeastFree(bmp, id) ==> !NoneFree(bmp)
    ensures NoneFree(bmp) && LeastFree(bmp + [ZEROS], id) ==> id == BITS * |bmp|
  {
    GrownBits(bmp, ZEROS);
    assert !Used(bmp + [ZEROS], BITS * |bmp|);
  }

  lemma SetBit(bmp: seq<Word>, full: seq<Word>, id: nat)
    requires Sound(bmp, full) && LeastFree(bmp, id)
    ensures id / BITS < |bmp| && id / BITS / BITS < |full|
    ensures var bmp' := WithBit(bmp, id, true);
            && Sound(bmp', full)
            && (AllOnes(bmp'[id / BITS]) ==> Sound(bmp', WithBit(full, id / BITS, true)))
            && forall i: nat :: Used(bmp', i) <==> Used(bmp, i) || i == id
  {
    var bmp' := WithBit(bmp, id, true);
    forall i: nat | i / BITS < |bmp|
      ensures Used(bmp', i) <==> Used(bmp, i) || i == id
    {
      WithBitBits(bmp, id, true, i);
    }
    MarkSound(bmp, bmp', full, id / BITS);
  }

  lemma MarkSound(bmp: seq<Word>, bmp': seq<Word>, full: seq<Word>, k: nat)
    requires Sound(bmp, full) && |bmp'| == |bmp| && k < |bmp| && k / BITS < |full|
    requires forall j :: 0 <= j < |bmp| && AllOnes(bmp[j]) ==> AllOnes(bmp'[j])
    ensures Sound(bmp', full) && (AllOnes(bmp'[k]) ==> Sound(bmp', WithBit(full, k, true)))
  {
    forall j: nat | j / BITS < |full|
      ensures Used(WithBit(full, k, true), j) <==> Used(full, j) || j == k
    {
      WithBitBits(full, k, true, j);
    }
  }

  lemma ClearBit(bmp: seq<Word>, full: seq<Word>, id: nat)
    requires Sound(bmp, full) && id < BITS * |bmp|
    ensures id / BITS < |bmp| && id / BITS / BITS < |full|
    ensures Sound(WithBit(bmp, id, false), WithBit(full, id / BITS, false))
    ensures forall i: nat :: Used(WithBit(bmp, id, false), i) <==> Used(bmp, i) && i != id
  {
    var bmp', full' := WithBit(bmp, id, false), WithBit(full, id / BITS, false);
    forall i: nat | i / BITS < |bmp|
      ensures Used(bmp', i) <==> Used(bmp, i) && i != id
    {
      WithBitBits(bmp, id, false, i);
    }
    forall j: nat | Used(full', j)
      ensures j < |bmp'| && AllOnes(bmp'[j])
    {
      WithBitBits(full, id / BITS, false, j);
      assert Used(full, j) && j != id / BITS;
    }
  }

  /** An id that was free has no slot, and the bits of all slots stay set. */
  lemma NewSlot<T>(bmp: seq<Word>, bmp': seq<Word>, slots: seq<Option<T>>, id: nat)
    requires |slots| == BITS * |bmp| && LeastFree(bmp, id)
    requires forall i: nat :: i < |slots| && slots[i].Some? ==> Used(bmp, i)
    requires forall i: nat :: Used(bmp', i) <==> Used(bmp, i) || i == id
    ensures id < |slots| && slots[id].None?
    ensures forall i: nat :: i < |slots| && slots[i].Some? ==> Used(bmp', i)
  {
  }
}
