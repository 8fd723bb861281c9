/**
  Inserting a range into a file and collapsing one: what they do to the pages, and that the second undoes the
  first.
 */
module TmpfsRanges {
  import opened Common
  import opened Tmpfs

  type Pages = map<nat, Page>

  /** radix_get */
  function PageAt(pages: Pages, p: nat): Option<Page> {
    if p in pages then Some(pages[p]) else None
  }

  /** No page past the end of the file. */
  ghost predicate NoneBeyond(f: File) {
    forall p: nat :: p in f.pages ==> p < PagesFor(f.size)
  }

  predicate WholePages(offset: nat, len: nat) {
    offset % PAGE_SIZE == 0 && len % PAGE_SIZE == 0
  }

  lemma SamePages(a: Pages, b: Pages)
    requires forall p: nat :: PageAt(a, p) == PageAt(b, p)
    ensures a == b
  {
    assert forall p: nat :: p in a <==> PageAt(a, p).Some?;
    assert forall p: nat :: p in b <==> PageAt(b, p).Some?;
    forall p: nat | p in a
      ensures p in b && a[p] == b[p]
    {
      assert PageAt(a, p) == PageAt(b, p);
    }
  }

  // ---- fs_insert_range -----------------------------------------------------------------------------

  /** The pages from o on are dist pages further up, and nothing is in between. */
  function InsertedAt(pages: Pages, o: nat, dist: nat, q: nat): Option<Page> {
    if q < o then PageAt(pages, q) else if q < o + dist then None else PageAt(pages, q - dist)
  }

  ghost predicate Inserted(pages: Pages, o: nat, dist: nat, pages': Pages) {
    forall q: nat :: PageAt(pages', q) == InsertedAt(pages, o, dist, q)
  }

  /** The pages when those from k up to last have moved by dist and pages beyond last are where they were. */
  function MovedAt(pages: Pages, last: nat, k: nat, dist: nat, q: nat): Option<Page> {
    if q < k then PageAt(pages, q) else if k + dist <= q <= last + dist then PageAt(pages, q - dist)
    else if q <= last then None else PageAt(pages, q)
  }

  ghost predicate Moved(pages: Pages, last: nat, k: nat, dist: nat, now: Pages) {
    forall q: nat :: PageAt(now, q) == MovedAt(pages, last, k, dist, q)
  }

  lemma InsertStart(pages: Pages, last: nat, dist: nat)
    ensures Moved(pages, last, last + 1, dist, pages)
  {
  }

  /**
    One round of the loop: the place page k moves to is taken exactly if it is past last and was taken from the
    start.
   */
  lemma InsertStep(pages: Pages, last: nat, k: nat, dist: nat, now: Pages)
    requires Moved(pages, last, k + 1, dist, now) && k <= last && dist > 0
    ensures k + dist in now <==> k + dist > last && k + dist in pages
    ensures k + dist !in now ==> Moved(pages, last, k, dist, if k in now then (now - {k})[k + dist := now[k]] else now)
  {
    var next := if k in now then (now - {k})[k + dist := now[k]] else now;
    assert PageAt(now, k + dist) == MovedAt(pages, last, k + 1, dist, k + dist);
    assert PageAt(now, k) == MovedAt(pages, last, k + 1, dist, k);
    if k + dist !in now {
      forall q: nat
        ensures PageAt(next, q) == MovedAt(pages, last, k, dist, q)
      {
        assert PageAt(now, q) == MovedAt(pages, last, k + 1, dist, q);
      }
    }
  }

  /** A page past the end stands where a page of the file would move to. */
  ghost predicate Clashes(f: File, offset: nat, len: nat) {
    ClashFrom(f.pages, PagesFor(f.size), offset / PAGE_SIZE, len / PAGE_SIZE)
  }

  ghost predicate ClashFrom(pages: Pages, last: nat, k: nat, dist: nat) {
    exists p: nat :: p in pages && last < p && k + dist <= p <= last + dist
  }

  /** Without pages past the end nothing clashes, and the pages from the offset on have simply moved. */
  lemma MovedIsInserted(f: File, offset: nat, len: nat, pages: Pages)
    requires NoneBeyond(f) && offset / PAGE_SIZE <= PagesFor(f.size)
    ensures !Clashes(f, offset, len)
    ensures Moved(f.pages, PagesFor(f.size), offset / PAGE_SIZE, len / PAGE_SIZE, pages) ==>
              Inserted(f.pages, offset / PAGE_SIZE, len / PAGE_SIZE, pages)
  {
    var o, dist, last := offset / PAGE_SIZE, len / PAGE_SIZE, PagesFor(f.size);
    if Moved(f.pages, last, o, dist, pages) {
      forall q: nat
        ensures PageAt(pages, q) == InsertedAt(f.pages, o, dist, q)
      {
        assert PageAt(pages, q) == MovedAt(f.pages, last, o, dist, q);
      }
    }
  }

  /**
    The insertion is a gap of zeros at offset with every later byte len further up if and only if the pages
    past the end that lie in the gap hold zeros.
   */
  lemma InsertContentsIff(f: File, offset: nat, len: nat, f': File)
    requires WholePages(offset, len) && offset < f.size && f'.size == f.size + len
    requires Moved(f.pages, PagesFor(f.size), offset / PAGE_SIZE, len / PAGE_SIZE, f'.pages)
    ensures Contents(f') == Contents(f)[..offset] + Zeros(len) + Contents(f)[offset..] <==>
            forall i: nat :: (PagesFor(f.size) + 1) * PAGE_SIZE <= i < offset + len ==> View(f.pages, i) == 0
  {
    var bytes := Contents(f)[..offset] + Zeros(len) + Contents(f)[offset..];
    var past := (PagesFor(f.size) + 1) * PAGE_SIZE;
    forall i: nat | i < f'.size
      ensures View(f'.pages, i) == if past <= i < offset + len then View(f.pages, i) else bytes[i]
    {
      InsertView(f, offset, len, f'.pages, i);
    }
    if Contents(f') == bytes {
      forall i: nat | past <= i < offset + len
        ensures View(f.pages, i) == 0
      {
        assert Contents(f')[i] == bytes[i];
      }
    } else {
      var i: nat :| i < f'.size && Contents(f')[i] != bytes[i];
      assert past <= i < offset + len && View(f.pages, i) != 0;
    }
  }

  lemma InsertView(f: File, offset: nat, len: nat, pages: Pages, i: nat)
    requires WholePages(offset, len) && offset < f.size && i < f.size + len
    requires Moved(f.pages, PagesFor(f.size), offset / PAGE_SIZE, len / PAGE_SIZE, pages)
    ensures View(pages, i) == if i < offset then View(f.pages, i)
                              else if i >= offset + len then View(f.pages, i - len)
                              else if i < (PagesFor(f.size) + 1) * PAGE_SIZE then 0 else View(f.pages, i)
  {
    var q, o, dist, last := i / PAGE_SIZE, offset / PAGE_SIZE, len / PAGE_SIZE, PagesFor(f.size);
    assert PageAt(pages, q) == MovedAt(f.pages, last, o, dist, q);
    if i >= offset + len {
      assert (i - len) / PAGE_SIZE == q - dist && (i - len) % PAGE_SIZE == i % PAGE_SIZE;
    }
  }

  /** On a file without pages past the end: the gap, and again no page past the end. */
  lemma InsertContents(f: File, offset: nat, len: nat, f': File)
    requires NoneBeyond(f) && WholePages(offset, len) && offset < f.size && f'.size == f.size + len
    requires Moved(f.pages, PagesFor(f.size), offset / PAGE_SIZE, len / PAGE_SIZE, f'.pages)
    ensures Contents(f') == Contents(f)[..offset] + Zeros(len) + Contents(f)[offset..]
    ensures NoneBeyond(f')
  {
    InsertContentsIff(f, offset, len, f');
    forall p: nat | p in f'.pages
      ensures p < PagesFor(f'.size)
    {
      assert PageAt(f'.pages, p) == MovedAt(f.pages, PagesFor(f.size), offset / PAGE_SIZE, len / PAGE_SIZE, p);
    }
  }

  const WORD: nat := 0x1_0000_0000_0000_0000

  /** The unsigned loop counter of fs_insert_range after n rounds. */
  function Counter(start: nat, n: nat): nat {
    (start - n) % WORD
  }

  /** The loop can end if and only if the offset is not in the first page. */
  lemma InsertEndsIff(start: nat, offset: nat)
    requires offset / PAGE_SIZE <= start < WORD
    ensures (exists n: nat :: Counter(start, n) < offset / PAGE_SIZE) <==> offset >= PAGE_SIZE
  {
    if offset >= PAGE_SIZE {
      assert Counter(start, start - offset / PAGE_SIZE + 1) == offset / PAGE_SIZE - 1;
    }
  }

  // ---- fs_collapse_range ---------------------------------------------------------------------------

  /** The first count pages above the range have moved down over it. */
  function CollapsedAt(pages: Pages, o: nat, dist: nat, count: nat, q: nat): Option<Page> {
    if q < o then PageAt(pages, q) else if q < o + count then PageAt(pages, q + dist)
    else if o + dist <= q < o + dist + count then None else PageAt(pages, q)
  }

  ghost predicate Collapsed(pages: Pages, o: nat, dist: nat, count: nat, pages': Pages) {
    forall q: nat :: PageAt(pages', q) == CollapsedAt(pages, o, dist, count, q)
  }

  lemma CollapseStep(pages: Pages, o: nat, dist: nat, count: nat, now: Pages)
    requires Collapsed(pages, o, dist, count, now) && dist > 0
    ensures var one, two := o + count, o + count + dist;
            var gone := now - {one};
            Collapsed(pages, o, dist, count + 1, if two in now then gone[one := now[two]] - {two} else gone)
  {
    var one, two := o + count, o + count + dist;
    var gone := now - {one};
    var next := if two in now then gone[one := now[two]] - {two} else gone;
    assert PageAt(now, two) == CollapsedAt(pages, o, dist, count, two) == PageAt(pages, two);
    forall q: nat
      ensures PageAt(next, q) == CollapsedAt(pages, o, dist, count + 1, q)
    {
      assert PageAt(now, q) == CollapsedAt(pages, o, dist, count, q);
    }
  }

  /** The loop count of fs_collapse_range. */
  function Remaining(size: nat, offset: nat, len: nat): nat
    requires offset + len < size
  {
    (size + PAGE_SIZE - 1 - (offset + len)) / PAGE_SIZE
  }

  lemma RemainingIs(size: nat, offset: nat, len: nat)
    requires WholePages(offset, len) && offset + len < size
    ensures Remaining(size, offset, len) == PagesFor(size) - offset / PAGE_SIZE - len / PAGE_SIZE
    ensures PagesFor(size - len) == PagesFor(size) - len / PAGE_SIZE
  {
  }

  /** The bytes of the range are gone, on every file. */
  lemma CollapseContents(f: File, offset: nat, len: nat, f': File)
    requires WholePages(offset, len) && offset + len < f.size && f'.size == f.size - len
    requires Collapsed(f.pages, offset / PAGE_SIZE, len / PAGE_SIZE, Remaining(f.size, offset, len), f'.pages)
    ensures Contents(f') == Contents(f)[..offset] + Contents(f)[offset + len..]
  {
    var o, dist, count := offset / PAGE_SIZE, len / PAGE_SIZE, Remaining(f.size, offset, len);
    RemainingIs(f.size, offset, len);
    var bytes := Contents(f)[..offset] + Contents(f)[offset + len..];
    forall i: nat | i < f'.size
      ensures Contents(f')[i] == bytes[i]
    {
      var q := i / PAGE_SIZE;
      assert PageAt(f'.pages, q) == CollapsedAt(f.pages, o, dist, count, q);
      assert (i + len) / PAGE_SIZE == q + dist && (i + len) % PAGE_SIZE == i % PAGE_SIZE;
    }
  }

  /** Pages of the range that are further down than the pages above it reach stay behind, past the new end. */
  lemma CollapseLeaves(f: File, offset: nat, len: nat, f': File)
    requires WholePages(offset, len) && offset + len < f.size && f'.size == f.size - len && NoneBeyond(f)
    requires Collapsed(f.pages, offset / PAGE_SIZE, len / PAGE_SIZE, Remaining(f.size, offset, len), f'.pages)
    ensures NoneBeyond(f') <==>
            var o := offset / PAGE_SIZE;
            forall p: nat :: o + Remaining(f.size, offset, len) <= p < o + len / PAGE_SIZE ==> p !in f.pages
  {
    var o, dist, count := offset / PAGE_SIZE, len / PAGE_SIZE, Remaining(f.size, offset, len);
    RemainingIs(f.size, offset, len);
    forall q: nat
      ensures q >= o + count ==> (q in f'.pages <==> q in f.pages && q < o + dist)
    {
      assert PageAt(f'.pages, q) == CollapsedAt(f.pages, o, dist, count, q);
    }
  }

  /** Collapsing the range that was inserted gives back the pages and the size. */
  lemma InsertThenCollapse(f: File, offset: nat, len: nat, g: File, h: File)
    requires NoneBeyond(f) && WholePages(offset, len) && offset < f.size && len > 0
    requires g.size == f.size + len && Inserted(f.pages, offset / PAGE_SIZE, len / PAGE_SIZE, g.pages)
    requires h.size == g.size - len
    requires Collapsed(g.pages, offset / PAGE_SIZE, len / PAGE_SIZE, Remaining(g.size, offset, len), h.pages)
    ensures h == f
  {
    var o, dist, count := offset / PAGE_SIZE, len / PAGE_SIZE, Remaining(g.size, offset, len);
    RemainingIs(g.size, offset, len);
    forall q: nat
      ensures PageAt(h.pages, q) == PageAt(f.pages, q)
    {
      assert PageAt(h.pages, q) == CollapsedAt(g.pages, o, dist, count, q);
      assert PageAt(g.pages, q) == InsertedAt(f.pages, o, dist, q);
      assert PageAt(g.pages, q + dist) == InsertedAt(f.pages, o, dist, q + dist);
    }
    SamePages(h.pages, f.pages);
  }

  /**
    On a file without holes, collapsing more pages than lie above the range and one more leaves pages past the
    end, and then the insertion of a single page, anywhere in the file, runs into its BUG_ON.
   */
  lemma CollapseThenInsert(f: File, offset: nat, len: nat, g: File, offset': nat)
    requires NoHoles(f) && WholePages(offset, len) && offset + len < f.size && g.size == f.size - len
    requires Collapsed(f.pages, offset / PAGE_SIZE, len / PAGE_SIZE, Remaining(f.size, offset, len), g.pages)
    requires Remaining(f.size, offset, len) + 1 < len / PAGE_SIZE && offset' < g.size
    ensures Clashes(g, offset', PAGE_SIZE)
  {
    var o, dist, count := offset / PAGE_SIZE, len / PAGE_SIZE, Remaining(f.size, offset, len);
    RemainingIs(f.size, offset, len);
    var p := o + count + 1;
    assert PageAt(g.pages, p) == CollapsedAt(f.pages, o, dist, count, p) == PageAt(f.pages, p);
    assert p * PAGE_SIZE < f.size;
    assert p in g.pages && PagesFor(g.size) < p;
  }
}
