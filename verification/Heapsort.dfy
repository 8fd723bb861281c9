/**
  The boot loader's heapsort: in place, with byte offsets instead of indices, for any comparison function
  that agrees with a ranking of the elements.
 */
module Heapsort {
  import opened Common

  // ---- Heaps in a sequence -------------------------------------------------------------------------

  /** No child below n of p ranks higher than p. */
  ghost predicate Tops<T(!new)>(s: seq<T>, rank: T -> int, p: nat, n: nat)
    requires p < n <= |s|
  {
    && (2 * p + 1 < n ==> rank(s[2 * p + 1]) <= rank(s[p]))
    && (2 * p + 2 < n ==> rank(s[2 * p + 2]) <= rank(s[p]))
  }

  /** The nodes from lo on, below n, are above their children. */
  ghost predicate Heap<T(!new)>(s: seq<T>, rank: T -> int, lo: nat, n: nat) {
    n <= |s| && forall p: nat :: lo <= p < n ==> Tops(s, rank, p, n)
  }

  /** A heap except that r may be below its children; the parent of r is above them. */
  ghost predicate HeapBut<T(!new)>(s: seq<T>, rank: T -> int, lo: nat, n: nat, r: nat) {
    && lo <= r < n <= |s|
    && (forall p: nat :: lo <= p < n && p != r ==> Tops(s, rank, p, n))
    && (forall p: nat :: lo <= p < n && (2 * p + 1 == r || 2 * p + 2 == r) ==> Above(s, rank, p, r, n))
  }

  /** p is above the children of r. */
  ghost predicate Above<T(!new)>(s: seq<T>, rank: T -> int, p: nat, r: nat, n: nat)
    requires p < n <= |s|
  {
    && (2 * r + 1 < n ==> rank(s[2 * r + 1]) <= rank(s[p]))
    && (2 * r + 2 < n ==> rank(s[2 * r + 2]) <= rank(s[p]))
  }

  function Swap<T>(s: seq<T>, i: nat, j: nat): seq<T>
    requires i < |s| && j < |s|
  {
    s[i := s[j]][j := s[i]]
  }

  lemma SwapPermutes<T>(s: seq<T>, i: nat, j: nat)
    requires i < |s| && j < |s|
    ensures multiset(Swap(s, i, j)) == multiset(s)
  {
  }

  /** c is the child of r that ranks highest. */
  ghost predicate BestChild<T(!new)>(s: seq<T>, rank: T -> int, r: nat, c: nat, n: nat) {
    && r < n <= |s| && c < n && (c == 2 * r + 1 || c == 2 * r + 2)
    && (2 * r + 1 < n ==> rank(s[2 * r + 1]) <= rank(s[c]))
    && (2 * r + 2 < n ==> rank(s[2 * r + 2]) <= rank(s[c]))
  }

  lemma SiftDown<T(!new)>(s: seq<T>, rank: T -> int, lo: nat, n: nat, r: nat, c: nat)
    requires HeapBut(s, rank, lo, n, r) && BestChild(s, rank, r, c, n) && rank(s[r]) <= rank(s[c])
    ensures HeapBut(Swap(s, r, c), rank, lo, n, c)
  {
    var s' := Swap(s, r, c);
    forall p: nat | lo <= p < n && p != c
      ensures Tops(s', rank, p, n)
    {
      assert p != r ==> Tops(s, rank, p, n);
      assert 2 * p + 1 == r || 2 * p + 2 == r ==> Above(s, rank, p, r, n);
    }
    assert Tops(s, rank, c, n);
  }

  lemma SiftStop<T(!new)>(s: seq<T>, rank: T -> int, lo: nat, n: nat, r: nat)
    requires HeapBut(s, rank, lo, n, r) && Tops(s, rank, r, n)
    ensures Heap(s, rank, lo, n)
  {
  }

  lemma {:induction false} RootIsTop<T(!new)>(s: seq<T>, rank: T -> int, n: nat, i: nat)
    requires Heap(s, rank, 0, n) && i < n
    ensures rank(s[i]) <= rank(s[0])
  {
    if i > 0 {
      var p := (i - 1) / 2;
      RootIsTop(s, rank, n, p);
      assert Tops(s, rank, p, n);
    }
  }

  // ---- The sorted part -----------------------------------------------------------------------------

  /** From k on the sequence ascends and nothing before k ranks higher. */
  ghost predicate SortedFrom<T(!new)>(s: seq<T>, rank: T -> int, k: nat) {
    k <= |s| && forall i, j :: 0 <= i < j < |s| && k <= j ==> rank(s[i]) <= rank(s[j])
  }

  ghost predicate Ascending<T(!new)>(s: seq<T>, rank: T -> int) {
    forall i, j :: 0 <= i < j < |s| ==> rank(s[i]) <= rank(s[j])
  }

  /** Swaps below k do not touch the sorted part. */
  lemma SwapBelow<T(!new)>(s: seq<T>, rank: T -> int, k: nat, i: nat, j: nat)
    requires SortedFrom(s, rank, k) && i < k && j < k
    ensures SortedFrom(Swap(s, i, j), rank, k)
  {
    var s' := Swap(s, i, j);
    forall a, b | 0 <= a < b < |s'| && k <= b
      ensures rank(s'[a]) <= rank(s'[b])
    {
      assert s'[b] == s[b];
    }
  }

  /** The root goes to the end of the heap, which becomes one shorter. */
  lemma TakeRoot<T(!new)>(s: seq<T>, rank: T -> int, k: nat)
    requires 0 < k < |s| && Heap(s, rank, 0, k + 1) && SortedFrom(s, rank, k + 1)
    ensures SortedFrom(Swap(s, 0, k), rank, k) && HeapBut(Swap(s, 0, k), rank, 0, k, 0)
  {
    var s' := Swap(s, 0, k);
    forall a, b | 0 <= a < b < |s'| && k <= b
      ensures rank(s'[a]) <= rank(s'[b])
    {
      if b == k {
        RootIsTop(s, rank, k + 1, if a == 0 then k else a);
      } else {
        assert s'[b] == s[b];
      }
    }
    forall p: nat | 0 < p < k
      ensures Tops(s', rank, p, k)
    {
      assert Tops(s, rank, p, k + 1);
    }
  }

  /** cmp agrees with the ranking. */
  ghost predicate Agrees<T(!new)>(cmp: (T, T) -> int, rank: T -> int) {
    forall x, y :: if cmp(x, y) < 0 then rank(x) <= rank(y) else rank(y) <= rank(x)
  }

  lemma Compared<T(!new)>(cmp: (T, T) -> int, rank: T -> int, x: T, y: T)
    requires Agrees(cmp, rank)
    ensures cmp(x, y) < 0 ==> rank(x) <= rank(y)
    ensures cmp(x, y) >= 0 ==> rank(y) <= rank(x)
  {
  }

  // ---- Byte offsets --------------------------------------------------------------------------------

  /** The byte offset of element k. */
  function Off(k: int, size: nat): int {
    k * size
  }

  /** Where the children of element i are, and when they are below n. */
  lemma Offsets(i: nat, n: nat, size: nat)
    requires size > 0
    ensures Off(i, size) * 2 + size == Off(2 * i + 1, size) && Off(2 * i + 1, size) + size == Off(2 * i + 2, size)
    ensures Off(2 * i + 1, size) < Off(n, size) <==> 2 * i + 1 < n
    ensures Off(2 * i + 1, size) < Off(n, size) - size <==> 2 * i + 2 < n
  {
    ScaleLess(2 * i + 1, n, size);
    ScaleLess(2 * i + 1, n - 1, size);
  }

  lemma Element(k: nat, size: nat)
    requires size > 0
    ensures Off(k, size) >= 0 && Off(k, size) / size == k
  {
    Unscale(k, size);
  }

  lemma Previous(p: int, size: nat)
    requires size > 0
    ensures Off(p, size) - size == Off(p - 1, size)
    ensures Off(p, size) >= 0 <==> p >= 0
    ensures Off(p, size) > 0 <==> p > 0
  {
    ScaleLess(0, p, size);
    ScaleLess(-1, p, size);
  }

  // ---- sort ----------------------------------------------------------------------------------------

  /** The child of r that cmp prefers. */
  method PickChild<T(!new)>(a: array<T>, size: nat, cmp: (T, T) -> int, r: nat, end: nat,
                            ghost rank: T -> int, ghost i: nat, ghost n: nat) returns (c: nat, ghost j: nat)
    requires size > 0 && Agrees(cmp, rank) && r == Off(i, size) && end == Off(n, size) && 2 * i + 1 < n <= a.Length
    ensures BestChild(a[..], rank, i, j, n) && c == Off(j, size)
  {
    hide Agrees, Off;
    Offsets(i, n, size);
    Element(2 * i + 1, size);
    Element(2 * i + 2, size);
    c := r * 2 + size;
    j := 2 * i + 1;
    if c < end - size {
      Compared(cmp, rank, a[c / size], a[(c + size) / size]);
    }
    if c < end - size && cmp(a[c / size], a[(c + size) / size]) < 0 {
      c := c + size;
      j := j + 1;
    }
  }

  /** The inner loop: the element at start sinks to its place among those below end. */
  method Sift<T(!new)>(a: array<T>, size: nat, cmp: (T, T) -> int, start: nat, end: nat,
                       ghost rank: T -> int, ghost lo: nat, ghost n: nat, ghost k: nat)
    requires size > 0 && Agrees(cmp, rank) && start == Off(lo, size) && end == Off(n, size)
    requires n <= k <= a.Length && HeapBut(a[..], rank, lo, n, lo) && SortedFrom(a[..], rank, k)
    modifies a
    ensures Heap(a[..], rank, lo, n) && SortedFrom(a[..], rank, k) && multiset(a[..]) == multiset(old(a[..]))
  {
    hide HeapBut, Heap, SortedFrom, Agrees, Off;
    var r: nat := start;
    ghost var i := lo;
    ButFacts(a[..], rank, lo, n, lo);
    Offsets(i, n, size);
    while r * 2 + size < end
      invariant lo <= i < n && r == Off(i, size) && (r * 2 + size < end <==> 2 * i + 1 < n)
      invariant HeapBut(a[..], rank, lo, n, i) && SortedFrom(a[..], rank, k) && multiset(a[..]) == multiset(old(a[..]))
      decreases n - i
    {
      var c, j := PickChild(a, size, cmp, r, end, rank, i, n);
      Element(i, size);
      Element(j, size);
      Compared(cmp, rank, a[r / size], a[c / size]);
      if cmp(a[r / size], a[c / size]) >= 0 {
        SiftStop(a[..], rank, lo, n, i);
        return;
      }
      SiftDown(a[..], rank, lo, n, i, j);
      SwapBelow(a[..], rank, k, i, j);
      SwapPermutes(a[..], i, j);
      SwapAt(a, r / size, c / size);
      Offsets(j, n, size);
      r, i := c, j;
    }
    SiftStop(a[..], rank, lo, n, i);
  }

  lemma ButFacts<T(!new)>(s: seq<T>, rank: T -> int, lo: nat, n: nat, r: nat)
    requires HeapBut(s, rank, lo, n, r)
    ensures lo <= r < n <= |s|
  {
  }

  method SwapAt<T>(a: array<T>, i: nat, j: nat)
    requires i < a.Length && j < a.Length
    modifies a
    ensures a[..] == Swap(old(a[..]), i, j)
  {
    a[i], a[j] := a[j], a[i];
  }

  /** The upper half of any sequence has no children. */
  lemma LeavesAreHeap<T(!new)>(s: seq<T>, rank: T -> int)
    ensures Heap(s, rank, |s| / 2, |s|) && SortedFrom(s, rank, |s|)
  {
  }

  lemma AddNode<T(!new)>(s: seq<T>, rank: T -> int, lo: nat, n: nat)
    requires lo < n && Heap(s, rank, lo + 1, n)
    ensures HeapBut(s, rank, lo, n, lo)
  {
  }

  lemma SortedAll<T(!new)>(s: seq<T>, rank: T -> int, k: nat)
    requires SortedFrom(s, rank, k) && k <= 1
    ensures Ascending(s, rank)
  {
  }

  /** The first loop of sort: the whole array becomes a heap. */
  method Heapify<T(!new)>(a: array<T>, size: nat, cmp: (T, T) -> int, ghost rank: T -> int)
    requires size > 0 && Agrees(cmp, rank)
    modifies a
    ensures Heap(a[..], rank, 0, a.Length) && SortedFrom(a[..], rank, a.Length)
    ensures multiset(a[..]) == multiset(old(a[..]))
  {
    hide HeapBut, Heap, SortedFrom, Agrees, Off;
    var num := a.Length;
    var i, n := Off(num / 2 - 1, size), Off(num, size);
    ghost var p := num / 2 - 1;
    LeavesAreHeap(a[..], rank);
    Previous(p, size);
    Previous(num, size);
    while i >= 0
      invariant -1 <= p < num && i == Off(p, size) && (i >= 0 <==> p >= 0)
      invariant Heap(a[..], rank, p + 1, num) && SortedFrom(a[..], rank, num) && multiset(a[..]) == multiset(old(a[..]))
      decreases p
    {
      AddNode(a[..], rank, p, num);
      Sift(a, size, cmp, i, n, rank, p, num, num);
      Previous(p, size);
      Previous(p - 1, size);
      i, p := i - size, p - 1;
    }
    if num == 0 {
      EmptyHeap(a[..], rank);
    }
  }

  lemma EmptyHeap<T(!new)>(s: seq<T>, rank: T -> int)
    ensures Heap(s, rank, 0, 0)
  {
  }

  /** sort: an ascending permutation, for elements of any positive size. */
  method Sort<T(!new)>(a: array<T>, size: nat, cmp: (T, T) -> int, ghost rank: T -> int)
    requires size > 0 && Agrees(cmp, rank)
    modifies a
    ensures Ascending(a[..], rank) && multiset(a[..]) == multiset(old(a[..]))
  {
    hide HeapBut, Heap, SortedFrom, Agrees, Ascending, Off;
    Heapify(a, size, cmp, rank);
    var num := a.Length;
    var i := Off(num, size) - size;
    ghost var p := num - 1;
    Previous(num, size);
    Previous(p, size);
    while i > 0
      invariant -1 <= p < num && i == Off(p, size) && (i > 0 <==> p > 0) && (num > 0 ==> p >= 0)
      invariant Heap(a[..], rank, 0, p + 1) && SortedFrom(a[..], rank, p + 1) && multiset(a[..]) == multiset(old(a[..]))
      decreases p
    {
      Element(p, size);
      Previous(0, size);
      TakeRoot(a[..], rank, p);
      SwapPermutes(a[..], 0, p);
      SwapAt(a, 0, i / size);
      ZeroOff(size);
      Sift(a, size, cmp, 0, i, rank, 0, p, p);
      Previous(p, size);
      Previous(p - 1, size);
      i, p := i - size, p - 1;
    }
    SortedAll(a[..], rank, p + 1);
  }

  lemma ZeroOff(size: nat)
    ensures Off(0, size) == 0
  {
  }
}
