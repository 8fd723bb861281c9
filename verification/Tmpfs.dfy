/**
  File data of the in-memory file system: a size and a sparse map of pages, which together should denote a
  sequence of bytes. Pages are allocated without being cleared, so what a file denotes depends on which
  pages are there.
 */
module Tmpfs {
  import opened Common

  const PAGE_SIZE: nat := 4096

  type Byte = b: int | 0 <= b < 256

  type Page = p: seq<Byte> | |p| == PAGE_SIZE witness seq(PAGE_SIZE, _ => 0)

  datatype File = File(pages: map<nat, Page>, size: nat)

  // ---- What a file denotes -------------------------------------------------------------------------

  /** The byte stored at an offset; a missing page reads as zeros. */
  function View(pages: map<nat, Page>, i: nat): Byte {
    if i / PAGE_SIZE in pages then pages[i / PAGE_SIZE][i % PAGE_SIZE] else 0
  }

  function Contents(f: File): seq<Byte> {
    seq(f.size, i requires 0 <= i < f.size => View(f.pages, i))
  }

  function Zeros(n: nat): seq<Byte> {
    seq(n, _ => 0)
  }

  function PagesFor(size: nat): nat {
    (size + PAGE_SIZE - 1) / PAGE_SIZE
  }

  /** Every byte stored past the end of the file is zero. */
  ghost predicate TailZero(f: File) {
    forall i: nat :: i >= f.size ==> View(f.pages, i) == 0
  }

  /** Exactly the pages that the size needs. */
  ghost predicate NoHoles(f: File) {
    forall p: nat :: p in f.pages <==> p * PAGE_SIZE < f.size
  }

  /** Files grown by writes and cut by shrinking truncates. */
  ghost predicate Plain(f: File) {
    NoHoles(f) && TailZero(f)
  }

  // ---- Writing into a page -------------------------------------------------------------------------

  /** memcpy or memset into a page. */
  function Fill(page: Page, off: nat, bytes: seq<Byte>): Page
    requires off + |bytes| <= PAGE_SIZE
  {
    page[..off] + bytes + page[off + |bytes|..]
  }

  lemma FillView(pages: map<nat, Page>, p: nat, off: nat, bytes: seq<Byte>, i: nat)
    requires p in pages && off + |bytes| <= PAGE_SIZE
    ensures View(pages[p := Fill(pages[p], off, bytes)], i) ==
            if p * PAGE_SIZE + off <= i < p * PAGE_SIZE + off + |bytes| then bytes[i - p * PAGE_SIZE - off] else
              View(pages, i)
  {
    if i / PAGE_SIZE == p {
      assert i % PAGE_SIZE == i - p * PAGE_SIZE;
    }
  }

  /** A fresh page holds whatever its memory held. */
  function Junk(junk: nat -> Byte, p: nat): Page {
    seq(PAGE_SIZE, k requires 0 <= k < PAGE_SIZE => junk(p * PAGE_SIZE + k))
  }

  lemma JunkView(pages: map<nat, Page>, p: nat, junk: nat -> Byte, i: nat)
    ensures View(pages[p := Junk(junk, p)], i) == if i / PAGE_SIZE == p then junk(i) else View(pages, i)
  {
  }

  // ---- tfs_file_write ------------------------------------------------------------------------------

  /** Offset i lies in a page that the first bytes of a write, up to cur, have made. */
  predicate Made(pages: map<nat, Page>, offset: nat, cur: nat, i: nat) {
    offset < cur && i / PAGE_SIZE !in pages && offset / PAGE_SIZE <= i / PAGE_SIZE <= (cur - 1) / PAGE_SIZE
  }

  /** What is stored at i once the write has reached cur. */
  function Reached(pages: map<nat, Page>, junk: nat -> Byte, offset: nat, data: seq<Byte>, cur: nat, i: nat): Byte
    requires offset <= cur <= offset + |data|
  {
    if offset <= i < cur then data[i - offset]
    else if Made(pages, offset, cur, i) then junk(i)
    else View(pages, i)
  }

  ghost predicate ReachedAll(pages: map<nat, Page>, junk: nat -> Byte, offset: nat, data: seq<Byte>, cur: nat,
                             pages': map<nat, Page>)
    requires offset <= cur <= offset + |data|
  {
    && (forall i: nat :: View(pages', i) == Reached(pages, junk, offset, data, cur, i))
    && (forall p: nat :: p in pages' <==>
          p in pages || (offset < cur && offset / PAGE_SIZE <= p <= (cur - 1) / PAGE_SIZE))
  }

  /** One round of the write loop. */
  lemma ReachMore(pages: map<nat, Page>, junk: nat -> Byte, offset: nat, data: seq<Byte>, cur: nat, now: map<nat,
                  Page>, n: nat)
    requires offset <= cur && cur + n <= offset + |data| && 0 < n && cur % PAGE_SIZE + n <= PAGE_SIZE
    requires cur == offset || cur % PAGE_SIZE == 0
    requires ReachedAll(pages, junk, offset, data, cur, now)
    ensures var p := cur / PAGE_SIZE;
            var made := if p in now then now else now[p := Junk(junk, p)];
            ReachedAll(pages, junk, offset, data, cur + n,
                       made[p := Fill(made[p], cur % PAGE_SIZE, data[cur - offset..cur - offset + n])])
  {
    var p := cur / PAGE_SIZE;
    var made := if p in now then now else now[p := Junk(junk, p)];
    var bytes := data[cur - offset..cur - offset + n];
    var next := made[p := Fill(made[p], cur % PAGE_SIZE, bytes)];
    assert (cur + n - 1) / PAGE_SIZE == p;
    forall i: nat
      ensures View(next, i) == Reached(pages, junk, offset, data, cur + n, i)
    {
      JunkView(now, p, junk, i);
      FillView(made, p, cur % PAGE_SIZE, bytes, i);
      assert View(now, i) == Reached(pages, junk, offset, data, cur, i);
    }
  }

  /** What is stored at i after a write that succeeded: past a new end, its last page is cleared. */
  function Stored(f: File, junk: nat -> Byte, offset: nat, data: seq<Byte>, i: nat): Byte {
    var end := offset + |data|;
    if end > f.size && end % PAGE_SIZE != 0 && end <= i && i / PAGE_SIZE == end / PAGE_SIZE then 0
    else Reached(f.pages, junk, offset, data, end, i)
  }

  ghost predicate WroteAll(f: File, junk: nat -> Byte, offset: nat, data: seq<Byte>, f': File) {
    var end := offset + |data|;
    && f'.size == (if end > f.size then end else f.size)
    && (forall i: nat :: View(f'.pages, i) == Stored(f, junk, offset, data, i))
    && (forall p: nat :: p in f'.pages <==>
          p in f.pages || (offset < end && offset / PAGE_SIZE <= p <= (end - 1) / PAGE_SIZE))
  }

  /** data laid over s from offset on. */
  function Splice(s: seq<Byte>, offset: nat, data: seq<Byte>): seq<Byte>
    requires offset <= |s|
  {
    s[..offset] + data + if offset + |data| < |s| then s[offset + |data|..] else []
  }

  /** The pages that a write fills only in part, below the old end or at it, are there. */
  predicate Covered(f: File, offset: nat, n: nat) {
    n > 0 ==>
      && (offset % PAGE_SIZE != 0 ==> offset / PAGE_SIZE in f.pages)
      && ((offset + n) % PAGE_SIZE != 0 && offset + n <= f.size ==> (offset + n) / PAGE_SIZE in f.pages)
  }

  /** A write is a splice, and nothing but zeros is stored past the end. */
  ghost predicate WriteGood(f: File, offset: nat, data: seq<Byte>, f': File)
    requires offset <= f.size
  {
    Contents(f') == Splice(Contents(f), offset, data) && TailZero(f')
  }

  lemma WriteIsSplice(f: File, junk: nat -> Byte, offset: nat, data: seq<Byte>, f': File)
    requires TailZero(f) && offset <= f.size && WroteAll(f, junk, offset, data, f') && Covered(f, offset, |data|)
    ensures WriteGood(f, offset, data, f')
  {
    var end := offset + |data|;
    assert TailZero(f') by {
      forall i: nat | i >= f'.size
        ensures View(f'.pages, i) == 0
      {
        NotJunk(f, junk, offset, data, i);
      }
    }
    var spliced := Splice(Contents(f), offset, data);
    forall i: nat | i < f'.size
      ensures Contents(f')[i] == spliced[i]
    {
      NotJunk(f, junk, offset, data, i);
    }
  }

  /** On a covered write no junk is left. */
  lemma NotJunk(f: File, junk: nat -> Byte, offset: nat, data: seq<Byte>, i: nat)
    requires Covered(f, offset, |data|) && offset <= f.size
    ensures var end := offset + |data|;
            Stored(f, junk, offset, data, i) ==
            if offset <= i < end then data[i - offset]
            else if end > f.size && end % PAGE_SIZE != 0 && end <= i && i / PAGE_SIZE == end / PAGE_SIZE then 0
            else View(f.pages, i)
  {
  }

  /** Outside that condition there is memory that spoils the file. */
  lemma WriteSpoils(f: File, junk: nat -> Byte, offset: nat, data: seq<Byte>, f': File)
    requires offset <= f.size && WroteAll(f, junk, offset, data, f') && !Covered(f, offset, |data|)
    requires forall i: nat :: junk(i) != 0
    ensures !WriteGood(f, offset, data, f')
  {
    var end := offset + |data|;
    var spliced := Splice(Contents(f), offset, data);
    if offset % PAGE_SIZE != 0 && offset / PAGE_SIZE !in f.pages {
      var i := offset - offset % PAGE_SIZE;
      assert i / PAGE_SIZE == offset / PAGE_SIZE && i < offset;
      assert View(f'.pages, i) == Stored(f, junk, offset, data, i) == junk(i);
      assert Contents(f')[i] != 0 && spliced[i] == Contents(f)[i] == 0;
    } else {
      assert (end - 1) / PAGE_SIZE == end / PAGE_SIZE;
      assert View(f'.pages, end) == Stored(f, junk, offset, data, end) == junk(end);
      if end < f.size {
        assert Contents(f')[end] != 0 && spliced[end] == Contents(f)[end] == 0;
      }
    }
  }

  /** On plain files every write is a splice, and the file stays plain. */
  lemma PlainWrite(f: File, junk: nat -> Byte, offset: nat, data: seq<Byte>, f': File)
    requires Plain(f) && offset <= f.size && WroteAll(f, junk, offset, data, f')
    ensures WriteGood(f, offset, data, f') && Plain(f')
  {
    var end := offset + |data|;
    assert offset % PAGE_SIZE != 0 ==> offset / PAGE_SIZE * PAGE_SIZE < f.size;
    assert end % PAGE_SIZE != 0 && end <= f.size ==> end / PAGE_SIZE * PAGE_SIZE < f.size;
    WriteIsSplice(f, junk, offset, data, f');
    forall p: nat
      ensures p in f'.pages <==> p * PAGE_SIZE < f'.size
    {
      assert p in f.pages <==> p * PAGE_SIZE < f.size;
    }
  }

  /**
    What was written is read back, on every file; where the write is covered every other byte of the file is as it
    was.
   */
  lemma ReadBack(f: File, junk: nat -> Byte, offset: nat, data: seq<Byte>, f': File)
    requires offset <= f.size && WroteAll(f, junk, offset, data, f')
    ensures |Contents(f')| == (if offset + |data| > f.size then offset + |data| else f.size)
    ensures Contents(f')[offset..offset + |data|] == data
    ensures Covered(f, offset, |data|) ==>
              forall i :: 0 <= i < f.size && !(offset <= i < offset + |data|) ==> Contents(f')[i] == Contents(f)[i]
  {
    assert forall i: nat :: offset <= i < offset + |data| ==> View(f'.pages, i) == data[i - offset];
    forall i | 0 <= i < f.size && !(offset <= i < offset + |data|) && Covered(f, offset, |data|)
      ensures Contents(f')[i] == Contents(f)[i]
    {
      NotJunk(f, junk, offset, data, i);
    }
  }

  /**
    A write that stops at a page for want of memory: the file is spliced up to its old end, and the bytes
    written past that end are stored but not counted. So the zeros there survive if and only if those bytes
    are all zero.
   */
  lemma ShortWrite(f: File, junk: nat -> Byte, offset: nat, data: seq<Byte>, n: nat, pages: map<nat, Page>)
    requires TailZero(f) && offset <= f.size && n < |data| && (n == 0 || (offset + n) % PAGE_SIZE == 0)
    requires n > 0 && offset % PAGE_SIZE != 0 ==> offset / PAGE_SIZE in f.pages
    requires ReachedAll(f.pages, junk, offset, data, offset + n, pages)
    ensures Contents(File(pages, f.size)) == Splice(Contents(f), offset, data[..Counted(f, offset, n)])
    ensures TailZero(File(pages, f.size)) <==> forall k :: f.size - offset <= k < n ==> data[k] == 0
  {
    hide ReachedAll, View;
    ShortView(f, junk, offset, data, n, pages);
    var spliced := Splice(Contents(f), offset, data[..Counted(f, offset, n)]);
    forall i: nat | i < f.size
      ensures Contents(File(pages, f.size))[i] == spliced[i]
    {
    }
    forall k | f.size - offset <= k < n && TailZero(File(pages, f.size))
      ensures data[k] == 0
    {
      assert View(pages, offset + k) == data[k];
    }
  }

  lemma ShortView(f: File, junk: nat -> Byte, offset: nat, data: seq<Byte>, n: nat, pages: map<nat, Page>)
    requires n < |data| && (n == 0 || (offset + n) % PAGE_SIZE == 0)
    requires n > 0 && offset % PAGE_SIZE != 0 ==> offset / PAGE_SIZE in f.pages
    requires ReachedAll(f.pages, junk, offset, data, offset + n, pages)
    ensures forall i: nat :: View(pages, i) == if offset <= i < offset + n then data[i - offset] else View(f.pages, i)
  {
    forall i: nat
      ensures View(pages, i) == if offset <= i < offset + n then data[i - offset] else View(f.pages, i)
    {
      assert View(pages, i) == Reached(f.pages, junk, offset, data, offset + n, i);
    }
  }

  /** How many of the first n bytes of a write at offset lie below the old end. */
  function Counted(f: File, offset: nat, n: nat): nat
    requires offset <= f.size
  {
    if offset + n <= f.size then n else f.size - offset
  }

  /** How many of the pages from lo up to hi are missing. */
  function Missing(pages: map<nat, Page>, lo: nat, hi: nat): nat
    requires lo <= hi
  {
    if lo == hi then 0 else Missing(pages, lo, hi - 1) + if hi - 1 in pages then 0 else 1
  }

  lemma {:induction false} MissingMonotone(pages: map<nat, Page>, lo: nat, mid: nat, hi: nat)
    requires lo <= mid <= hi
    ensures Missing(pages, lo, mid) <= Missing(pages, lo, hi)
  {
    if mid < hi {
      MissingMonotone(pages, lo, mid, hi - 1);
    }
  }

  /** The first page that the bytes from offset up to cur do not touch. */
  function PastPage(offset: nat, cur: nat): (p: nat)
    requires offset <= cur
    ensures offset / PAGE_SIZE <= p
  {
    if cur == offset then offset / PAGE_SIZE else (cur - 1) / PAGE_SIZE + 1
  }

  // ---- tfs_truncate --------------------------------------------------------------------------------

  /** How far a shrinking truncate clears the page of the new end. */
  function Cut(f: File, size: nat): nat {
    if size % PAGE_SIZE != 0 && size / PAGE_SIZE in f.pages
    then var up := (size / PAGE_SIZE + 1) * PAGE_SIZE; if f.size < up then f.size else up
    else size
  }

  /** The pages a shrinking truncate deletes: one every PAGE_SIZE from the cut on, while below the old end. */
  predicate CutPage(f: File, size: nat, p: nat) {
    Cut(f, size) / PAGE_SIZE <= p && Cut(f, size) % PAGE_SIZE + p * PAGE_SIZE < f.size
  }

  function ShrunkByte(f: File, size: nat, i: nat): Byte {
    if size <= i < Cut(f, size) || CutPage(f, size, i / PAGE_SIZE) then 0 else View(f.pages, i)
  }

  ghost predicate Shrunk(f: File, size: nat, f': File) {
    && f'.size == size
    && (forall i: nat :: View(f'.pages, i) == ShrunkByte(f, size, i))
    && (forall p: nat :: p in f'.pages <==> p in f.pages && !CutPage(f, size, p))
  }

  /** The last page is not passed over, or holds only zeros. */
  ghost predicate CutsAll(f: File, size: nat) {
    || size % PAGE_SIZE == 0 || size / PAGE_SIZE in f.pages
    || forall i: nat ::
         (size / PAGE_SIZE + 1) * PAGE_SIZE <= i < f.size <= size % PAGE_SIZE + i / PAGE_SIZE * PAGE_SIZE ==>
         View(f.pages, i) == 0
  }

  /**
    A shrinking truncate leaves a prefix. It leaves only zeros past the end if and only if the page of the
    new end is there, or the new end is at a page, or the last page is reached or zero.
   */
  lemma ShrinkIsPrefix(f: File, size: nat, f': File)
    requires TailZero(f) && 0 < size < f.size && Shrunk(f, size, f')
    ensures Contents(f') == Contents(f)[..size]
    ensures TailZero(f') <==> CutsAll(f, size)
  {
    forall i: nat | i < size
      ensures View(f'.pages, i) == View(f.pages, i)
    {
      ShrinkKeeps(f, size, i);
    }
    if CutsAll(f, size) {
      forall i: nat | i >= size
        ensures View(f'.pages, i) == 0
      {
        ShrinkClears(f, size, i);
      }
    } else {
      var i: nat :| (size / PAGE_SIZE + 1) * PAGE_SIZE <= i < f.size <= size % PAGE_SIZE + i / PAGE_SIZE * PAGE_SIZE &&
          View(f.pages, i) != 0;
      assert View(f'.pages, i) == ShrunkByte(f, size, i) == View(f.pages, i);
    }
  }

  lemma ShrinkKeeps(f: File, size: nat, i: nat)
    requires i < size < f.size
    ensures ShrunkByte(f, size, i) == View(f.pages, i)
  {
  }

  lemma ShrinkClears(f: File, size: nat, i: nat)
    requires TailZero(f) && 0 < size < f.size && CutsAll(f, size) && i >= size
    ensures ShrunkByte(f, size, i) == 0
  {
    if i < f.size && !CutPage(f, size, i / PAGE_SIZE) && i >= Cut(f, size) && i / PAGE_SIZE > size / PAGE_SIZE {
      assert Cut(f, size) == size;
    }
  }

  lemma PlainShrink(f: File, size: nat, f': File)
    requires Plain(f) && 0 < size < f.size && Shrunk(f, size, f')
    ensures Contents(f') == Contents(f)[..size] && Plain(f')
  {
    assert size / PAGE_SIZE * PAGE_SIZE < f.size;
    assert CutsAll(f, size);
    ShrinkIsPrefix(f, size, f');
    forall p: nat
      ensures p in f'.pages <==> p * PAGE_SIZE < size
    {
      assert p in f.pages <==> p * PAGE_SIZE < f.size;
    }
  }

  /** On a file with zeros past its end a growing truncate adds zeros, and leaves zeros past the new end. */
  lemma GrowIsZeros(f: File, size: nat)
    requires TailZero(f) && size > f.size
    ensures Contents(f.(size := size)) == Contents(f) + Zeros(size - f.size) && TailZero(f.(size := size))
  {
  }

  /** Without them it does not, for some size: what a short write or a leftover page stored comes back. */
  lemma GrowExposes(f: File)
    requires !TailZero(f)
    ensures exists size: nat :: size > f.size && Contents(f.(size := size)) != Contents(f) + Zeros(size - f.size)
  {
    var i: nat :| i >= f.size && View(f.pages, i) != 0;
    var grown := Contents(f) + Zeros(i + 1 - f.size);
    assert Contents(f.(size := i + 1))[i] != grown[i];
  }
}
