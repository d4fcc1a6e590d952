/** The copy program on top of segmented reads: thread i reads the blocks i, i + nthreads,
    i + 2 * nthreads, ... of the source and then writes each at its own offset of one shared
    output.  Writes are atomic; the threads' writes interleave freely.  A read returns the range it
    is asked for, as `SegmentedRead` shows, or fails with a negative code. */
module StridedCopy {
  import opened Bytes
  import opened ModArithmetic
  import opened Numbers

  /** Is `offset` the start of one of the blocks thread id reads? */
  predicate OwnsBlock(size: nat, bsize: nat, nthreads: nat, id: nat, offset: nat)
    requires bsize > 0 && nthreads > 0
  {
    offset < size && offset % bsize == 0 && (offset / bsize) % nthreads == id
  }

  /** Each thread's walk visits the blocks it owns in order. */
  function Visit(bsize: nat, nthreads: nat, id: nat, k: nat): nat {
    (id + k * nthreads) * bsize
  }

  lemma VisitOwned(size: nat, bsize: nat, nthreads: nat, id: nat, k: nat)
    requires bsize > 0 && id < nthreads && Visit(bsize, nthreads, id, k) < size
    ensures OwnsBlock(size, bsize, nthreads, id, Visit(bsize, nthreads, id, k))
  {
    var b := id + k * nthreads;
    BlockStart(b, bsize);
    ModUnique(b, k, id, nthreads);
  }

  lemma BlockStart(b: nat, bsize: nat)
    requires bsize > 0
    ensures (b * bsize) / bsize == b && (b * bsize) % bsize == 0
  {
    ModUnique(b * bsize, b, 0, bsize);
    var q := (b * bsize) / bsize;
    assert b * bsize == q * bsize;
    if q != b { CancelFactor(q, b, bsize); }
  }

  lemma CancelFactor(q: nat, b: nat, c: nat)
    requires c > 0 && q * c == b * c
    ensures q == b
  {
    if q < b {
      assert (b - q) * c == b * c - q * c;
      MulAtLeast(b - q, c);
    } else if b < q {
      assert (q - b) * c == q * c - b * c;
      MulAtLeast(q - b, c);
    }
  }

  /** A block its owner would visit no later than its k-th visit has been visited. */
  lemma OwnedVisited(size: nat, bsize: nat, nthreads: nat, id: nat, offset: nat) returns (k: nat)
    requires bsize > 0 && id < nthreads && OwnsBlock(size, bsize, nthreads, id, offset)
    ensures offset == Visit(bsize, nthreads, id, k)
  {
    var b := offset / bsize;
    k := b / nthreads;
    assert b == k * nthreads + id;
    assert offset == b * bsize;
  }

  lemma VisitsAdvance(bsize: nat, nthreads: nat, id: nat, j: nat, k: nat)
    requires bsize > 0 && nthreads > 0 && j < k
    ensures Visit(bsize, nthreads, id, j) < Visit(bsize, nthreads, id, k)
  {
    assert (k - j) * nthreads == k * nthreads - j * nthreads;
    MulAtLeast(k - j, nthreads);
    var x, y := id + j * nthreads, id + k * nthreads;
    assert y * bsize - x * bsize == (y - x) * bsize;
    MulAtLeast(y - x, bsize);
  }

  /** Every byte of the source belongs to exactly one block of exactly one thread. */
  lemma BlocksPartition(size: nat, bsize: nat, nthreads: nat, p: nat)
    requires bsize > 0 && nthreads > 0 && p < size
    ensures var offset := p / bsize * bsize;
            && offset <= p < offset + bsize && OwnsBlock(size, bsize, nthreads, offset / bsize % nthreads, offset)
            && forall id: nat, o: nat :: id < nthreads && OwnsBlock(size, bsize, nthreads, id, o) && o <= p < o + bsize ==>
                 id == offset / bsize % nthreads && o == offset
  {
    var b := p / bsize;
    MulStep(b, bsize);
    BlockStart(b, bsize);
    forall id: nat, o: nat | id < nthreads && OwnsBlock(size, bsize, nthreads, id, o) && o <= p < o + bsize
      ensures id == b % nthreads && o == b * bsize
    {
      var c := o / bsize;
      MulStep(c, bsize);
      assert o == c * bsize;
      SameQuotient(p, b, c, bsize);
    }
  }

  lemma SameQuotient(p: nat, b: nat, c: nat, bsize: nat)
    requires bsize > 0 && b * bsize <= p < b * bsize + bsize && c * bsize <= p < c * bsize + bsize
    ensures b == c
  {
    if b < c {
      assert c * bsize - b * bsize == (c - b) * bsize;
      MulAtLeast(c - b, bsize);
    } else if c < b {
      assert b * bsize - c * bsize == (b - c) * bsize;
      MulAtLeast(b - c, bsize);
    }
  }

  /** What a thread stores for a block: its whole buffer, and the read's result as an unsigned word. */
  datatype Stored = Stored(data: seq<byte>, length: nat)

  /** A block is stored with its contents if it could be read; otherwise the negative code has become
      a huge length. */
  predicate StoredRight(source: seq<byte>, bsize: nat, fails: map<nat, int>, o: nat, e: Stored) {
    if o in fails then e.length == fails[o] % WORD
    else e.length == |Slice(source, o, bsize)| <= |e.data| && e.data[..e.length] == Slice(source, o, bsize)
  }

  /** A thread reads its block at o unless it has failed before. */
  predicate Reached(size: nat, bsize: nat, nthreads: nat, id: nat, fails: map<nat, int>, o: nat)
    requires bsize > 0 && nthreads > 0
  {
    OwnsBlock(size, bsize, nthreads, id, o)
    && forall e :: e in fails && e < o ==> !OwnsBlock(size, bsize, nthreads, id, e)
  }

  /** One reading thread: fills its content store, block by block, up to the first failure; the reads
      at the offsets in `fails` fail with these codes. */
  method ReadStrided(source: seq<byte>, bsize: nat, nthreads: nat, id: nat, fails: map<nat, int>)
    returns (contentStore: map<nat, Stored>)
    requires 0 < bsize < WORD && id < nthreads && forall o :: o in fails ==> fails[o] < 0
    ensures forall o: nat :: o in contentStore <==> Reached(|source|, bsize, nthreads, id, fails, o)
    ensures forall o: nat :: o in contentStore ==> StoredRight(source, bsize, fails, o, contentStore[o])
  {
    hide Visit, OwnsBlock, StoredRight;
    var fileSize := |source|;
    contentStore := map[];
    var buff := seq(bsize, _ => 0);
    var offset := bsize * id;
    var retRead: int := 1;
    ghost var k: nat, last: nat := 0, 0;
    VisitStart(bsize, nthreads, id);
    NothingBefore(fileSize, bsize, nthreads, id);
    while retRead > 0 && offset < fileSize
      invariant |buff| == bsize && offset == Visit(bsize, nthreads, id, k)
      invariant forall o: nat :: o in contentStore <==> OwnsBlock(fileSize, bsize, nthreads, id, o) && o < offset
      invariant forall o: nat :: o in contentStore ==> StoredRight(source, bsize, fails, o, contentStore[o])
      invariant StoppedRight(contentStore.Keys, fails, retRead <= 0, last)
      decreases if retRead > 0 then 1 else 0, fileSize - offset
    {
      var blen := if offset + bsize > fileSize then fileSize - offset else bsize;
      VisitOwned(fileSize, bsize, nthreads, id, k);
      VisitsAdvance(bsize, nthreads, id, k, k + 1);
      NextVisit(bsize, nthreads, id, k);
      OwnedBetween(fileSize, bsize, nthreads, id, k);
      var entry;
      entry, buff, retRead := ReadBlock(source, bsize, offset, blen, fails, buff);
      contentStore := contentStore[offset := entry];
      last := offset;
      offset := offset + bsize * nthreads;
      k := k + 1;
    }
    StoppedReached(fileSize, bsize, nthreads, id, fails, contentStore.Keys, offset, retRead <= 0, last);
  }

  /** Reads one block into the thread's buffer and makes its store entry. */
  method ReadBlock(source: seq<byte>, bsize: nat, offset: nat, blen: nat, fails: map<nat, int>, was: seq<byte>)
    returns (entry: Stored, buff: seq<byte>, retRead: int)
    requires offset < |source| && 0 < |was| == bsize < WORD && blen == Min(bsize, |source| - offset)
    requires offset in fails ==> fails[offset] < 0
    ensures StoredRight(source, bsize, fails, offset, entry) && |buff| == bsize
    ensures retRead > 0 <==> offset !in fails
  {
    if offset in fails {
      buff, retRead := was, fails[offset];
    } else {
      var got := Slice(source, offset, blen);
      buff, retRead := got + was[|got|..], |got|;
      ModUnique(retRead, 0, |got|, WORD);
    }
    entry := Stored(buff, retRead % WORD);
  }

  /** Nothing stored has failed, except the last block if the thread has stopped there. */
  ghost predicate StoppedRight(stored: set<nat>, fails: map<nat, int>, failed: bool, last: nat) {
    && (forall o :: o in stored ==> o <= last && (o in fails ==> failed && o == last))
    && (failed ==> last in stored && last in fails)
  }

  lemma StoppedReached(size: nat, bsize: nat, nthreads: nat, id: nat, fails: map<nat, int>, stored: set<nat>, offset: nat,
                       failed: bool, last: nat)
    requires bsize > 0 && nthreads > 0 && StoppedRight(stored, fails, failed, last) && (failed || offset >= size)
    requires forall o: nat :: o in stored <==> OwnsBlock(size, bsize, nthreads, id, o) && o < offset
    ensures forall o: nat :: o in stored <==> Reached(size, bsize, nthreads, id, fails, o)
  {
  }

  lemma NothingBefore(size: nat, bsize: nat, nthreads: nat, id: nat)
    requires bsize > 0 && id < nthreads
    ensures forall o: nat :: OwnsBlock(size, bsize, nthreads, id, o) ==> Visit(bsize, nthreads, id, 0) <= o
  {
    hide Visit, OwnsBlock;
    forall o: nat | OwnsBlock(size, bsize, nthreads, id, o) ensures Visit(bsize, nthreads, id, 0) <= o {
      var j := OwnedVisited(size, bsize, nthreads, id, o);
      if j > 0 { VisitsAdvance(bsize, nthreads, id, 0, j); }
    }
  }

  /** Between two visits a thread owns nothing. */
  lemma OwnedBetween(size: nat, bsize: nat, nthreads: nat, id: nat, k: nat)
    requires bsize > 0 && id < nthreads
    ensures forall o: nat :: OwnsBlock(size, bsize, nthreads, id, o) && o < Visit(bsize, nthreads, id, k + 1) ==>
              o < Visit(bsize, nthreads, id, k) || o == Visit(bsize, nthreads, id, k)
  {
    hide Visit, OwnsBlock;
    forall o: nat | OwnsBlock(size, bsize, nthreads, id, o) && o < Visit(bsize, nthreads, id, k + 1)
      ensures o <= Visit(bsize, nthreads, id, k)
    {
      var j := OwnedVisited(size, bsize, nthreads, id, o);
      if j > k + 1 { VisitsAdvance(bsize, nthreads, id, k + 1, j); }
      if j < k { VisitsAdvance(bsize, nthreads, id, j, k); }
    }
  }

  lemma VisitStart(bsize: nat, nthreads: nat, id: nat)
    ensures Visit(bsize, nthreads, id, 0) == bsize * id
  {
  }

  lemma NextVisit(bsize: nat, nthreads: nat, id: nat, k: nat)
    ensures Visit(bsize, nthreads, id, k + 1) == Visit(bsize, nthreads, id, k) + bsize * nthreads
  {
    MulStep(k, nthreads);
    var x := id + k * nthreads;
    assert (x + nthreads) * bsize == x * bsize + nthreads * bsize;
  }

  // ---------------------------------------------------------------------------
  // The shared output
  // ---------------------------------------------------------------------------

  datatype Write = Write(offset: nat, data: seq<byte>)

  /** Seeking and writing: a gap up to the offset is filled with zeros. */
  function Written(out: seq<byte>, w: Write): (r: seq<byte>)
    ensures |r| == if w.data == [] then |out| else if |out| < w.offset + |w.data| then w.offset + |w.data| else |out|
    ensures forall p :: 0 <= p < |r| ==>
              r[p] == if w.offset <= p < w.offset + |w.data| then w.data[p - w.offset] else if p < |out| then out[p] else 0
  {
    if w.data == [] then out
    else
      var n := if |out| < w.offset + |w.data| then w.offset + |w.data| else |out|;
      seq(n, p requires 0 <= p < n =>
        if w.offset <= p < w.offset + |w.data| then w.data[p - w.offset] else if p < |out| then out[p] else 0)
  }

  class SynchronizedWrite {
    var contents: seq<byte>
    var position: nat

    constructor ()
      ensures contents == [] && position == 0
    {
      contents, position := [], 0;
    }

    /** One byte at the position; what lies between the end and the position reads as zeros. */
    method Put(b: byte)
      modifies this
      ensures contents == Written(old(contents), Write(old(position), [b])) && position == old(position) + 1
    {
      while |contents| < position
        invariant |old(contents)| <= |contents| && contents[..|old(contents)|] == old(contents)
        invariant |contents| <= position || contents == old(contents)
        invariant forall p :: |old(contents)| <= p < |contents| ==> contents[p] == 0
        invariant position == old(position)
      {
        contents := contents + [0];
      }
      contents := if position < |contents| then contents[position := b] else contents + [b];
      position := position + 1;
    }

    /** Seeks to the offset and writes byte by byte. */
    method WriteAt(offset: nat, buf: seq<byte>, len: nat)
      requires len <= |buf|
      modifies this
      ensures contents == Written(old(contents), Write(offset, buf[..len]))
    {
      position := offset;
      for k := 0 to len
        invariant contents == Written(old(contents), Write(offset, buf[..k])) && position == offset + k
      {
        Put(buf[k]);
        WrittenOneMore(old(contents), offset, buf, k);
      }
    }
  }

  /** Writing one byte behind a write extends the write. */
  lemma WrittenOneMore(out: seq<byte>, offset: nat, buf: seq<byte>, k: nat)
    requires k < |buf|
    ensures Written(Written(out, Write(offset, buf[..k])), Write(offset + k, [buf[k]])) == Written(out, Write(offset, buf[..k + 1]))
  {
    hide Written;
  }

  function WrittenAll(writes: seq<Write>): seq<byte> {
    if writes == [] then [] else Written(WrittenAll(writes[..|writes| - 1]), writes[|writes| - 1])
  }

  /** The write of one block. */
  function BlockWrite(source: seq<byte>, bsize: nat, offset: nat): Write {
    Write(offset, Slice(source, offset, bsize))
  }

  /** The write is that of a block some thread owns. */
  ghost predicate IsBlockWrite(source: seq<byte>, bsize: nat, nthreads: nat, w: Write)
    requires bsize > 0 && nthreads > 0
  {
    && w == BlockWrite(source, bsize, w.offset)
    && exists id: nat :: id < nthreads && OwnsBlock(|source|, bsize, nthreads, id, w.offset)
  }

  predicate FromSource(source: seq<byte>, w: Write) { w.data == Slice(source, w.offset, |w.data|) }

  predicate Covers(w: Write, p: nat) { w.offset <= p < w.offset + |w.data| }

  /** Position p has been written. */
  ghost predicate Covered(writes: seq<Write>, p: nat) {
    exists k :: 0 <= k < |writes| && Covers(writes[k], p)
  }

  lemma {:induction false} NeverLonger(source: seq<byte>, writes: seq<Write>)
    requires forall k :: 0 <= k < |writes| ==> FromSource(source, writes[k])
    ensures |WrittenAll(writes)| <= |source|
  {
    if writes != [] {
      NeverLonger(source, writes[..|writes| - 1]);
      assert FromSource(source, writes[|writes| - 1]);
    }
  }

  /** One more write of source bytes puts the right byte at every position it covers and leaves the
      others. */
  lemma OneWrite(source: seq<byte>, out: seq<byte>, w: Write, p: nat)
    requires FromSource(source, w) && p < |source| && (Covers(w, p) || (p < |out| && out[p] == source[p]))
    ensures p < |Written(out, w)| && Written(out, w)[p] == source[p]
  {
  }

  /** A position that has been written holds the byte of the source. */
  lemma {:induction false} SoFar(source: seq<byte>, writes: seq<Write>, p: nat)
    requires forall k :: 0 <= k < |writes| ==> FromSource(source, writes[k])
    requires p < |source| && Covered(writes, p)
    ensures p < |WrittenAll(writes)| && WrittenAll(writes)[p] == source[p]
  {
    hide FromSource, Written, Covers;
    var n := |writes| - 1;
    if !Covers(writes[n], p) {
      var k :| 0 <= k < |writes| && Covers(writes[k], p);
      assert writes[..n][k] == writes[k];
      SoFar(source, writes[..n], p);
    }
    OneWrite(source, WrittenAll(writes[..n]), writes[n], p);
  }

  lemma EveryByteWritten(source: seq<byte>, bsize: nat, nthreads: nat, writes: seq<Write>, p: nat)
    requires bsize > 0 && nthreads > 0 && p < |source|
    requires forall id: nat, o: nat :: id < nthreads && OwnsBlock(|source|, bsize, nthreads, id, o) ==>
               BlockWrite(source, bsize, o) in writes
    ensures Covered(writes, p)
  {
    BlocksPartition(|source|, bsize, nthreads, p);
    var o := p / bsize * bsize;
    assert BlockWrite(source, bsize, o) in writes;
    var k :| 0 <= k < |writes| && writes[k] == BlockWrite(source, bsize, o);
    assert Covers(writes[k], p);
  }

  /** The copy is the source: whatever order the blocks of all threads are written in, even if some
      were written more than once. */
  lemma CopyIsFaithful(source: seq<byte>, bsize: nat, nthreads: nat, writes: seq<Write>)
    requires bsize > 0 && nthreads > 0
    requires forall k :: 0 <= k < |writes| ==> IsBlockWrite(source, bsize, nthreads, writes[k])
    requires forall id: nat, o: nat :: id < nthreads && OwnsBlock(|source|, bsize, nthreads, id, o) ==>
               BlockWrite(source, bsize, o) in writes
    ensures WrittenAll(writes) == source
  {
    hide OwnsBlock, WrittenAll, IsBlockWrite, FromSource, BlockWrite, Slice;
    forall k | 0 <= k < |writes| ensures FromSource(source, writes[k]) {
      BlockFromSource(source, bsize, nthreads, writes[k]);
    }
    NeverLonger(source, writes);
    forall p: nat | p < |source| ensures AgreeAt(WrittenAll(writes), source, p) {
      EveryByteWritten(source, bsize, nthreads, writes, p);
      SoFar(source, writes, p);
    }
    SameBytes(WrittenAll(writes), source);
  }

  lemma BlockFromSource(source: seq<byte>, bsize: nat, nthreads: nat, w: Write)
    requires bsize > 0 && nthreads > 0 && IsBlockWrite(source, bsize, nthreads, w)
    ensures FromSource(source, w)
  {
  }

  predicate AgreeAt(a: seq<byte>, b: seq<byte>, p: nat) { p < |a| && p < |b| && a[p] == b[p] }

  lemma SameBytes(a: seq<byte>, b: seq<byte>)
    requires |a| <= |b| && forall p: nat :: p < |b| ==> AgreeAt(a, b, p)
    ensures a == b
  {
    if |b| > 0 { assert AgreeAt(a, b, |b| - 1); }
    forall p: nat | p < |b| ensures a[p] == b[p] {
      assert AgreeAt(a, b, p);
    }
  }

  /** What a thread writes for one entry of its store. */
  function EntryWrite(o: nat, e: Stored): Write
    requires e.length <= |e.data|
  {
    Write(o, e.data[..e.length])
  }

  /** The stores that the threads' reads fill when none of them fails. */
  ghost predicate AllRead(source: seq<byte>, bsize: nat, nthreads: nat, stores: seq<map<nat, Stored>>)
    requires bsize > 0 && nthreads > 0
  {
    && |stores| == nthreads
    && forall id: nat, o: nat :: id < nthreads ==>
         (o in stores[id] <==> Reached(|source|, bsize, nthreads, id, map[], o))
         && (o in stores[id] ==> StoredRight(source, bsize, map[], o, stores[id][o]))
  }

  /** The threads together copy the source: let all of them write out their stores, each entry at
      least once and nothing else, in any order. */
  lemma StoresCopyTheSource(source: seq<byte>, bsize: nat, nthreads: nat, stores: seq<map<nat, Stored>>, writes: seq<Write>)
    requires bsize > 0 && nthreads > 0 && AllRead(source, bsize, nthreads, stores)
    requires forall id: nat, o: nat :: id < nthreads && o in stores[id] ==> EntryWrite(o, stores[id][o]) in writes
    requires forall w :: w in writes ==>
               exists id: nat :: id < nthreads && w.offset in stores[id] && w == EntryWrite(w.offset, stores[id][w.offset])
    ensures WrittenAll(writes) == source
  {
    hide OwnsBlock, WrittenAll, Slice;
    forall id: nat, o: nat | id < nthreads && OwnsBlock(|source|, bsize, nthreads, id, o)
      ensures BlockWrite(source, bsize, o) in writes
    {
      assert o in stores[id] && StoredRight(source, bsize, map[], o, stores[id][o]);
      assert EntryWrite(o, stores[id][o]) in writes;
    }
    forall k | 0 <= k < |writes| ensures IsBlockWrite(source, bsize, nthreads, writes[k]) {
      var w := writes[k];
      var id: nat :| id < nthreads && w.offset in stores[id] && w == EntryWrite(w.offset, stores[id][w.offset]);
      assert Reached(|source|, bsize, nthreads, id, map[], w.offset);
      assert StoredRight(source, bsize, map[], w.offset, stores[id][w.offset]);
    }
    CopyIsFaithful(source, bsize, nthreads, writes);
  }
}
