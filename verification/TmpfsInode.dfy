/** The file operations as they run, page by page, each proved to have its effect on the bytes of the file. */
module TmpfsInode {
  import opened Common
  import opened Tmpfs
  import opened TmpfsRanges

  class Inode {
    var pages: map<nat, Page>
    var size: nat

    ghost function F(): File
      reads this
    {
      File(pages, size)
    }

    constructor ()
      ensures F() == File(map[], 0) && Plain(F())
    {
      pages := map[];
      size := 0;
    }

    /**
      tfs_file_write; an offset past the end is its BUG_ON. memory counts the pages that can be allocated, and
      junk is what they hold. A write that runs out of memory stops at a page and leaves the size alone.
     */
    method Write(offset: nat, data: seq<Byte>, junk: nat -> Byte, memory: nat) returns (n: nat)
      requires offset <= size
      modifies this
      ensures n <= |data|
      ensures n == |data| <==> Missing(old(pages), offset / PAGE_SIZE, PastPage(offset, offset + |data|)) <= memory
      ensures n == |data| ==> WroteAll(old(F()), junk, offset, data, F())
      ensures n < |data| ==>
                (n == 0 || (offset + n) % PAGE_SIZE == 0) && size == old(size) &&
                ReachedAll(old(pages), junk, offset, data, offset + n, pages)
      ensures n < |data| && old(TailZero(F())) && (offset % PAGE_SIZE != 0 ==> offset / PAGE_SIZE in old(pages)) ==>
                && Contents(F()) == Splice(old(Contents(F())), offset, data[..Counted(old(F()), offset, n)])
                && (TailZero(F()) <==> forall k :: old(size) - offset <= k < n ==> data[k] == 0)
      ensures n == |data| && old(Plain(F())) ==> Plain(F()) && WriteGood(old(F()), offset, data, F())
    {
      hide ReachedAll, WroteAll, TailZero, NoHoles, WriteGood, Missing, Splice;
      ghost var f := F();
      var page;
      n, page := WritePages(offset, data, junk, memory);
      var cur := offset + n;
      if n < |data| {
        if TailZero(f) && (offset % PAGE_SIZE != 0 ==> offset / PAGE_SIZE in f.pages) {
          ShortWrite(f, junk, offset, data, n, pages);
        }
        return;
      }
      if cur > size {
        size := cur;
        if cur % PAGE_SIZE != 0 {
          TailCleared(f, junk, offset, data, pages);
          pages := pages[page := Fill(pages[page], cur % PAGE_SIZE, Zeros(PAGE_SIZE - cur % PAGE_SIZE))];
        } else {
          TailWhole(f, junk, offset, data, pages);
        }
      } else {
        TailWhole(f, junk, offset, data, pages);
      }
      if Plain(f) {
        PlainWrite(f, junk, offset, data, F());
      }
    }

    /** The loop of tfs_file_write: n bytes are stored, the last of them in the given page. */
    method WritePages(offset: nat, data: seq<Byte>, junk: nat -> Byte, memory: nat) returns (n: nat, page: nat)
      modifies this`pages
      ensures n <= |data| && ReachedAll(old(pages), junk, offset, data, offset + n, pages)
      ensures n == |data| <==> Missing(old(pages), offset / PAGE_SIZE, PastPage(offset, offset + |data|)) <= memory
      ensures n < |data| ==> n == 0 || (offset + n) % PAGE_SIZE == 0
      ensures n > 0 ==> page == (offset + n - 1) / PAGE_SIZE
    {
      hide ReachedAll;
      ghost var was := pages;
      var cur, left := offset, memory;
      page := 0;
      NothingReached(pages, junk, offset, data);
      while cur < offset + |data|
        invariant offset <= cur <= offset + |data|
        invariant cur == offset || cur == offset + |data| || cur % PAGE_SIZE == 0
        invariant cur > offset ==> page == (cur - 1) / PAGE_SIZE
        invariant ReachedAll(was, junk, offset, data, cur, pages)
        invariant left >= 0 && left + Missing(was, offset / PAGE_SIZE, PastPage(offset, cur)) == memory
        decreases offset + |data| - cur
      {
        var pageOff, next := cur % PAGE_SIZE, cur / PAGE_SIZE;
        var toWrite := if offset + |data| - cur < PAGE_SIZE - pageOff then offset + |data| - cur else
              PAGE_SIZE - pageOff;
        ReachMore(was, junk, offset, data, cur, pages, toWrite);
        WritePage(was, junk, offset, data, cur, toWrite, pages);
        if next !in pages {
          if left == 0 {
            return cur - offset, page;
          }
          left := left - 1;
          pages := pages[next := Junk(junk, next)];
        }
        pages := pages[next := Fill(pages[next], pageOff, data[cur - offset..cur - offset + toWrite])];
        cur, page := cur + toWrite, next;
      }
      return cur - offset, page;
    }

    /** tfs_file_read: a slice of the file, for every file. */
    method Read(offset: nat, size_: nat) returns (buff: seq<Byte>)
      ensures buff == if offset >= size then [] else
                Contents(F())[offset..if size - offset < size_ then size else offset + size_]
    {
      if offset >= size {
        return [];
      }
      var want := if size - offset < size_ then size - offset else size_;
      var cur := offset;
      buff := [];
      while want > 0 && cur <= size
        invariant offset <= cur <= size && 0 <= want
        invariant cur + want == if size - offset < size_ then size else offset + size_
        invariant |buff| == cur - offset && forall i :: 0 <= i < |buff| ==> buff[i] == View(pages, offset + i)
        decreases want
      {
        var page, pageOff := cur / PAGE_SIZE, cur % PAGE_SIZE;
        var toRead := if want < PAGE_SIZE - pageOff then want else PAGE_SIZE - pageOff;
        var part: seq<Byte> := if page !in pages then Zeros(toRead) else pages[page][pageOff..pageOff + toRead];
        forall i | 0 <= i < toRead
          ensures part[i] == View(pages, cur + i)
        {
          assert (cur + i) / PAGE_SIZE == page && (cur + i) % PAGE_SIZE == pageOff + i;
        }
        cur := cur + toRead;
        buff := buff + part;
        want := want - toRead;
      }
      ghost var wanted := Contents(F())[offset..cur];
      assert |buff| == |wanted| && forall i :: 0 <= i < |buff| ==> buff[i] == wanted[i];
      assert buff == wanted;
    }

    /** tfs_truncate */
    method Truncate(newSize: nat)
      modifies this
      ensures size == newSize
      ensures newSize == 0 ==> pages == map[]
      ensures newSize >= old(size) && newSize > 0 ==> pages == old(pages)
      ensures 0 < newSize < old(size) ==> Shrunk(old(F()), newSize, F())
      ensures old(Plain(F())) && newSize <= old(size) ==> Plain(F()) && Contents(F()) == old(Contents(F()))[..newSize]
      ensures old(TailZero(F())) && newSize > old(size) ==>
                TailZero(F()) && Contents(F()) == old(Contents(F())) + Zeros(newSize - old(size))
    {
      hide Shrunk, TailZero, NoHoles;
      ghost var f := F();
      if newSize == 0 {
        pages := map[];
        size := 0;
        EmptyIsPlain();
      } else if newSize > size {
        size := newSize;
        if TailZero(f) {
          GrowIsZeros(f, newSize);
        }
      } else if newSize < size {
        Shrink(newSize);
        if Plain(f) {
          PlainShrink(f, newSize, F());
        }
      } else {
        assert Contents(f)[..newSize] == Contents(f);
      }
    }

    /** The shrinking branch of tfs_truncate. */
    method Shrink(newSize: nat)
      requires 0 < newSize < size
      modifies this
      ensures Shrunk(old(F()), newSize, F()) && size == newSize
    {
      hide Shrunk;
      ghost var f := F();
      var cur := newSize;
      var pageNo, pageOff := cur / PAGE_SIZE, cur % PAGE_SIZE;
      if pageOff != 0 && pageNo in pages {
        var toWrite := if size - newSize < PAGE_SIZE - pageOff then size - newSize else PAGE_SIZE - pageOff;
        pages := pages[pageNo := Fill(pages[pageNo], pageOff, Zeros(toWrite))];
        cur := cur + toWrite;
      }
      assert cur == Cut(f, newSize);
      ghost var filled, first := pages, cur;
      while cur < size
        invariant first <= cur && (cur - first) % PAGE_SIZE == 0 && size == f.size &&
                  (cur > first ==> cur - PAGE_SIZE < size)
        invariant forall p: nat :: PageAt(pages, p) == CutAt(filled, first, cur, p)
        decreases size + PAGE_SIZE - cur
      {
        ghost var now := pages;
        pages := pages - {cur / PAGE_SIZE};
        forall p: nat
          ensures PageAt(pages, p) == CutAt(filled, first, cur + PAGE_SIZE, p)
        {
          assert PageAt(now, p) == CutAt(filled, first, cur, p);
        }
        cur := cur + PAGE_SIZE;
      }
      ShrinkDone(f, newSize, filled, pages, cur);
      size := newSize;
    }

    /**
      fs_insert_range; an offset in the first page would not end. stopped says that its BUG_ON fired, which is
      exactly when a page past the end stands where a page of the file would move to.
     */
    method InsertRange(offset: nat, len: nat) returns (r: int, stopped: bool)
      requires len > 0 && (WholePages(offset, len) && offset < size ==> offset >= PAGE_SIZE)
      modifies this
      ensures r == if !WholePages(offset, len) || offset >= old(size) then -EINVAL else 0
      ensures r != 0 ==> F() == old(F()) && !stopped
      ensures r == 0 ==> (stopped <==> Clashes(old(F()), offset, len))
      ensures r == 0 && !stopped ==>
                && size == old(size) + len
                && Moved(old(pages), PagesFor(old(size)), offset / PAGE_SIZE, len / PAGE_SIZE, pages)
      ensures r == 0 && old(NoneBeyond(F())) ==>
                && !stopped && NoneBeyond(F()) && Inserted(old(pages), offset / PAGE_SIZE, len / PAGE_SIZE, pages)
                && Contents(F()) == old(Contents(F()))[..offset] + Zeros(len) + old(Contents(F()))[offset..]
    {
      hide Inserted, NoneBeyond, Moved, ClashFrom;
      if offset % PAGE_SIZE != 0 || len % PAGE_SIZE != 0 {
        return -EINVAL, false;
      }
      if offset >= size {
        return -EINVAL, false;
      }
      ghost var f := F();
      ghost var last := PagesFor(size);
      var one, dist := PagesFor(size), len / PAGE_SIZE;
      if NoneBeyond(f) {
        MovedIsInserted(f, offset, len, pages);
      }
      InsertStart(pages, last, dist);
      NoClashYet(pages, last, dist);
      while one >= offset / PAGE_SIZE
        invariant offset / PAGE_SIZE <= one + 1 <= last + 1 && Moved(f.pages, last, one + 1, dist, pages) &&
                  size == f.size
        invariant !ClashFrom(f.pages, last, one + 1, dist)
        decreases one
      {
        InsertStep(f.pages, last, one, dist, pages);
        ClashStep(f.pages, last, offset / PAGE_SIZE, one, dist);
        var two := one + dist;
        if two in pages {
          return 0, true;
        }
        if one in pages {
          var page := pages[one];
          pages := pages - {one};
          pages := pages[two := page];
        }
        one := one - 1;
      }
      size := size + len;
      if NoneBeyond(f) {
        MovedIsInserted(f, offset, len, pages);
        InsertContents(f, offset, len, F());
      }
      return 0, false;
    }

    /** fs_collapse_range */
    method CollapseRange(offset: nat, len: nat) returns (r: int)
      requires len > 0
      modifies this
      ensures r == if !WholePages(offset, len) || offset + len >= old(size) then -EINVAL else 0
      ensures r != 0 ==> F() == old(F())
      ensures r == 0 ==> && size == old(size) - len
                         && Collapsed(old(pages), offset / PAGE_SIZE, len / PAGE_SIZE,
                                      Remaining(old(size), offset, len), pages)
                         && Contents(F()) == old(Contents(F()))[..offset] + old(Contents(F()))[offset + len..]
    {
      hide Collapsed;
      if offset % PAGE_SIZE != 0 || len % PAGE_SIZE != 0 {
        return -EINVAL;
      }
      if offset + len >= size {
        return -EINVAL;
      }
      ghost var f := F();
      var cur, o, dist := offset, offset / PAGE_SIZE, len / PAGE_SIZE;
      var remain := Remaining(size, offset, len);
      CollapseStart(pages, o, dist);
      for k := 0 to remain
        invariant cur == offset + k * PAGE_SIZE && size == f.size && Collapsed(f.pages, o, dist, k, pages)
      {
        CollapseStep(f.pages, o, dist, k, pages);
        var one := cur / PAGE_SIZE;
        var two := one + dist;
        cur := cur + PAGE_SIZE;
        var page1, page2 := PageAt(pages, one), PageAt(pages, two);
        ghost var now := pages;
        if page1.Some? {
          pages := pages - {one};
        }
        assert pages == now - {one};
        if page2.Some? {
          pages := pages[one := page2.value];
          pages := pages - {two};
        }
      }
      size := size - len;
      CollapseContents(f, offset, len, F());
      return 0;
    }
  }

  // ---- What the methods rest on --------------------------------------------------------------------

  lemma NothingReached(pages: map<nat, Page>, junk: nat -> Byte, offset: nat, data: seq<Byte>)
    ensures ReachedAll(pages, junk, offset, data, offset, pages)
  {
  }

  /** The page a round writes to is missing now exactly if it was missing at first; so the pages made are counted. */
  lemma WritePage(pages: map<nat, Page>, junk: nat -> Byte, offset: nat, data: seq<Byte>, cur: nat, n: nat,
                  now: map<nat, Page>)
    requires offset <= cur && cur + n <= offset + |data| && 0 < n && cur % PAGE_SIZE + n <= PAGE_SIZE
    requires cur == offset || cur % PAGE_SIZE == 0
    requires ReachedAll(pages, junk, offset, data, cur, now)
    ensures cur / PAGE_SIZE in now <==> cur / PAGE_SIZE in pages
    ensures PastPage(offset, cur) == cur / PAGE_SIZE && PastPage(offset, cur + n) == cur / PAGE_SIZE + 1
    ensures Missing(pages, offset / PAGE_SIZE, cur / PAGE_SIZE + 1) <= Missing(pages, offset / PAGE_SIZE,
          PastPage(offset, offset + |data|))
  {
    MissingMonotone(pages, offset / PAGE_SIZE, cur / PAGE_SIZE + 1, PastPage(offset, offset + |data|));
  }

  /** Clearing the rest of the last page. */
  lemma TailCleared(f: File, junk: nat -> Byte, offset: nat, data: seq<Byte>, now: map<nat, Page>)
    requires ReachedAll(f.pages, junk, offset, data, offset + |data|, now) && offset <= f.size
    requires offset + |data| > f.size && (offset + |data|) % PAGE_SIZE != 0
    ensures var end := offset + |data|;
            var page := (end - 1) / PAGE_SIZE;
            && page in now
            && WroteAll(f, junk, offset, data,
                        File(now[page := Fill(now[page], end % PAGE_SIZE, Zeros(PAGE_SIZE - end % PAGE_SIZE))], end))
  {
    var end := offset + |data|;
    var page := (end - 1) / PAGE_SIZE;
    var zeros := Zeros(PAGE_SIZE - end % PAGE_SIZE);
    var next := now[page := Fill(now[page], end % PAGE_SIZE, zeros)];
    assert page == end / PAGE_SIZE;
    forall i: nat
      ensures View(next, i) == Stored(f, junk, offset, data, i)
    {
      FillView(now, page, end % PAGE_SIZE, zeros, i);
      assert View(now, i) == Reached(f.pages, junk, offset, data, end, i);
    }
  }

  lemma TailWhole(f: File, junk: nat -> Byte, offset: nat, data: seq<Byte>, now: map<nat, Page>)
    requires ReachedAll(f.pages, junk, offset, data, offset + |data|, now) && offset <= f.size
    requires offset + |data| <= f.size || (offset + |data|) % PAGE_SIZE == 0
    ensures WroteAll(f, junk, offset, data, File(now, if offset + |data| > f.size then offset + |data| else f.size))
  {
    forall i: nat
      ensures View(now, i) == Stored(f, junk, offset, data, i)
    {
      assert View(now, i) == Reached(f.pages, junk, offset, data, offset + |data|, i);
    }
  }

  lemma EmptyIsPlain()
    ensures Plain(File(map[], 0))
  {
  }

  /** The loop of a shrinking truncate has deleted the pages from the cut up to cur. */
  function CutAt(pages: map<nat, Page>, first: nat, cur: nat, p: nat): Option<Page> {
    if first / PAGE_SIZE <= p < cur / PAGE_SIZE then None else PageAt(pages, p)
  }

  /** The page of the new end, cleared up to the cut. */
  function CutFilled(f: File, size: nat): map<nat, Page>
    requires size < f.size
  {
    var p := size / PAGE_SIZE;
    if size % PAGE_SIZE != 0 && p in f.pages
    then f.pages[p := Fill(f.pages[p], size % PAGE_SIZE, Zeros(Cut(f, size) - size))]
    else f.pages
  }

  lemma ShrinkDone(f: File, size: nat, filled: map<nat, Page>, pages: map<nat, Page>, cur: nat)
    requires 0 < size < f.size && filled == CutFilled(f, size)
    requires Cut(f, size) <= cur && (cur - Cut(f, size)) % PAGE_SIZE == 0 && f.size <= cur
    requires (cur > Cut(f, size) ==> cur - PAGE_SIZE < f.size)
    requires forall p: nat :: PageAt(pages, p) == CutAt(filled, Cut(f, size), cur, p)
    ensures Shrunk(f, size, File(pages, size))
  {
    forall p: nat
      ensures PageAt(pages, p) == if CutPage(f, size, p) then None else PageAt(filled, p)
    {
      assert PageAt(pages, p) == CutAt(filled, Cut(f, size), cur, p);
    }
    forall i: nat
      ensures View(pages, i) == ShrunkByte(f, size, i)
    {
      assert PageAt(pages, i / PAGE_SIZE) == if CutPage(f, size, i / PAGE_SIZE) then None else
               PageAt(filled, i / PAGE_SIZE);
      FilledView(f, size, i);
    }
    forall p: nat
      ensures p in pages <==> p in f.pages && !CutPage(f, size, p)
    {
      assert PageAt(pages, p) == if CutPage(f, size, p) then None else PageAt(filled, p);
    }
  }

  lemma FilledView(f: File, size: nat, i: nat)
    requires size < f.size
    ensures View(CutFilled(f, size), i) == if size <= i < Cut(f, size) then 0 else View(f.pages, i)
  {
    var p := size / PAGE_SIZE;
    if size % PAGE_SIZE != 0 && p in f.pages {
      FillView(f.pages, p, size % PAGE_SIZE, Zeros(Cut(f, size) - size), i);
    }
  }

  lemma NoClashYet(pages: map<nat, Page>, last: nat, dist: nat)
    ensures !ClashFrom(pages, last, last + 1, dist)
  {
  }

  /** The rounds down to k clash exactly if those down to k + 1 do or page k finds its new place taken. */
  lemma ClashStep(pages: map<nat, Page>, last: nat, o: nat, k: nat, dist: nat)
    requires o <= k <= last
    ensures ClashFrom(pages, last, k, dist) <==>
              ClashFrom(pages, last, k + 1, dist) || (k + dist > last && k + dist in pages)
    ensures ClashFrom(pages, last, k, dist) ==> ClashFrom(pages, last, o, dist)
  {
  }

  lemma CollapseStart(pages: map<nat, Page>, o: nat, dist: nat)
    ensures Collapsed(pages, o, dist, 0, pages)
  {
  }
}
