/** Reads of a byte range over the network: the producer cuts a file into segments, the consumer
    asks for the segments its range touches, and puts the replies, which arrive in any order, back
    together.  `FileHandler::getReadData` and `Read` make one segment; `File::read` sorts a vector
    of replies and `Consumer::Read` keeps them in an ordered map. */
module SegmentedRead {
  import opened Options
  import opened Numbers
  import opened Bytes
  import opened ModArithmetic

  /** A Data packet: its segment number, if its name ends in one, and its content. */
  datatype Data = Data(segment: Option<nat>, content: seq<byte>)

  /** How a read ends: with so many bytes, with an error code, by looking for the first element of
      an empty store, or by copying from behind the end of a segment. */
  datatype Outcome = Bytes(n: nat) | Failed(code: int) | NothingStored | OutOfBounds

  function SegmentOf(file: seq<byte>, size: nat, i: nat): seq<byte> {
    Slice(file, i * size, size)
  }

  function First(offset: nat, size: nat): nat
    requires size > 0
  {
    offset / size
  }

  /** One past the last segment: the range's end divided by the segment size, rounded up. */
  function Last(offset: nat, len: nat, size: nat): nat
    requires size > 0
  {
    (offset + len + size - 1) / size
  }

  lemma DivBounds(x: nat, size: nat)
    requires size > 0
    ensures (x / size) * size <= x < (x / size + 1) * size && x == (x / size) * size + x % size
  {
    MulStep(x / size, size);
  }

  /** The segments asked for cover the range, and there are none only for an empty, aligned one. */
  lemma RangeCovered(offset: nat, len: nat, size: nat)
    requires size > 0
    ensures First(offset, size) * size <= offset < (First(offset, size) + 1) * size
    ensures offset + len <= Last(offset, len, size) * size
    ensures First(offset, size) <= Last(offset, len, size)
    ensures First(offset, size) == Last(offset, len, size) <==> len == 0 && offset % size == 0
  {
    var q, l := First(offset, size), Last(offset, len, size);
    DivBounds(offset, size);
    DivBounds(offset + len + size - 1, size);
    MulStep(l, size);
    if l < q {
      MulAtLeast2(l + 1, q, size);
    } else if l == q {
    } else {
      MulAtLeast2(q + 1, l, size);
    }
  }

  lemma MulAtLeast2(a: int, b: int, c: nat)
    requires a <= b
    ensures a * c <= b * c
  {
    assert b * c - a * c == (b - a) * c;
    MulNonNegative(b - a, c);
  }

  // ---------------------------------------------------------------------------
  // The producer's side
  // ---------------------------------------------------------------------------

  /** What the producer answers with: content, or an application-level Nack that carries the absolute
      value of an error code. */
  datatype Package = Blob(data: Data) | Nack(segment: Option<nat>, value: nat)
  {
    function Segment(): Option<nat> { if Blob? then data.segment else segment }
  }

  /** The consumer's look at an answer: the error of the fetch, a failed validation, or the code a
      Nack carries; 0 for content. */
  function ValidateData(errcode: int, valid: bool, p: Package): int {
    if errcode != 0 then errcode
    else if !valid then -1
    else if p.Nack? then 0 - p.value
    else 0
  }

  /** An answer is accepted exactly if it was fetched, is valid and is content, or a Nack that carries no
      error; the first thing that is wrong is the error that is reported. */
  lemma AcceptedExactly(errcode: int, valid: bool, p: Package)
    ensures ValidateData(errcode, valid, p) == 0 <==> errcode == 0 && valid && (p.Blob? || p.value == 0)
    ensures errcode != 0 ==> ValidateData(errcode, valid, p) == errcode
    ensures errcode == 0 && !valid ==> ValidateData(errcode, valid, p) == -1
    ensures errcode == 0 && valid && p.Nack? ==> ValidateData(errcode, valid, p) == 0 - p.value
  {
  }

  class FileHandler {
    const contents: seq<byte>

    constructor (contents: seq<byte>)
      ensures this.contents == contents
    {
      this.contents := contents;
    }

    /** `pread`: as many bytes as there are, up to `count`, or the negated error number. */
    method Pread(buff: array<byte>, count: nat, offset: nat, errno: nat) returns (ret: int)
      requires count <= buff.Length
      modifies buff
      ensures errno == 0 ==> ret == |Slice(contents, offset, count)| && buff[..ret] == Slice(contents, offset, count)
      ensures errno == 0 ==> buff[ret..] == old(buff[ret..])
      ensures errno != 0 ==> ret == 0 - errno && buff[..] == old(buff[..])
    {
      if errno != 0 { return 0 - errno; }
      ret := if offset <= |contents| then (if count < |contents| - offset then count else |contents| - offset) else 0;
      forall k | 0 <= k < ret { buff[k] := contents[offset + k]; }
    }

    /** The package for one segment: its content, or, if it cannot be read, the error, from which the
        consumer recovers the error code. */
    method GetReadData(segment: nat, errno: nat) returns (p: Package)
      ensures errno == 0 ==> p == Blob(Data(Some(segment), SegmentOf(contents, MAX_PAYLOAD, segment)))
      ensures p.Segment() == Some(segment) && ValidateData(0, true, p) == 0 - errno
    {
      var blockFromFile := new byte[MAX_PAYLOAD];
      var retRead := Pread(blockFromFile, MAX_PAYLOAD, segment * MAX_PAYLOAD, errno);
      if retRead < 0 {
        p := Nack(Some(segment), -retRead);
      } else {
        p := Blob(Data(Some(segment), blockFromFile[..retRead]));
      }
    }
  }

  // ---------------------------------------------------------------------------
  // Putting the replies together
  // ---------------------------------------------------------------------------

  /** The replies to a request for segments [first, last) of a file, in some order. */
  predicate Replies(file: seq<byte>, size: nat, first: nat, last: nat, replies: seq<Data>) {
    && first <= last && |replies| == last - first
    && (forall k :: 0 <= k < |replies| ==> IsReply(file, size, first, last, replies[k]))
    && (forall i, k :: 0 <= i < k < |replies| ==> replies[i].segment != replies[k].segment)
  }

  predicate IsReply(file: seq<byte>, size: nat, first: nat, last: nat, d: Data) {
    d.segment.Some? && first <= d.segment.value < last && d.content == SegmentOf(file, size, d.segment.value)
  }

  predicate Sorted(replies: seq<Data>) {
    && (forall k :: 0 <= k < |replies| ==> replies[k].segment.Some?)
    && forall i, k :: 0 <= i < k < |replies| ==> replies[i].segment.value <= replies[k].segment.value
  }

  /** Sorted replies are the segments in order, whatever order they arrived in. */
  lemma SortedReplies(file: seq<byte>, size: nat, first: nat, last: nat, replies: seq<Data>, k: nat)
    requires Replies(file, size, first, last, replies) && Sorted(replies) && k < |replies|
    ensures replies[k].segment == Some(first + k) && replies[k].content == SegmentOf(file, size, first + k)
  {
    AtLeastPlace(file, size, first, last, replies, k);
    AtMostPlace(file, size, first, last, replies, k);
  }

  lemma {:induction false} AtLeastPlace(file: seq<byte>, size: nat, first: nat, last: nat, replies: seq<Data>, k: nat)
    requires Replies(file, size, first, last, replies) && Sorted(replies) && k < |replies|
    ensures replies[k].segment.Some? && first + k <= replies[k].segment.value
  {
    assert IsReply(file, size, first, last, replies[k]);
    if k > 0 { AtLeastPlace(file, size, first, last, replies, k - 1); }
  }

  lemma {:induction false} AtMostPlace(file: seq<byte>, size: nat, first: nat, last: nat, replies: seq<Data>, k: nat)
    requires Replies(file, size, first, last, replies) && Sorted(replies) && k < |replies|
    ensures replies[k].segment.Some? && replies[k].segment.value <= first + k
    decreases |replies| - k
  {
    assert IsReply(file, size, first, last, replies[k]);
    if k + 1 < |replies| { AtMostPlace(file, size, first, last, replies, k + 1); }
  }

  /** The read begins where the first segment can be trimmed. */
  predicate Trimmable(file: seq<byte>, size: nat, offset: nat)
    requires size > 0
  {
    offset <= |file| || offset % size == 0
  }

  /** `std::min(value_size() - off, blen)` on unsigned words. */
  function CopyLength(have: nat, off: nat, blen: nat): nat {
    Min((have - off) % WORD, blen)
  }

  /** Does a copy of so many bytes at `off` read behind the end of a block? */
  predicate Overreads(have: nat, off: nat, len: nat) { len > 0 && off + len > have }

  /** The copy reads behind the end exactly when it begins there and is asked for anything at all:
      the difference has wrapped around and is no limit any more. */
  lemma CopyLengthExactly(have: nat, off: nat, blen: nat)
    requires have < WORD && off < WORD && blen < WORD
    ensures Overreads(have, off, CopyLength(have, off, blen)) <==> off > have && blen > 0
    ensures off <= have ==> CopyLength(have, off, blen) == Min(have - off, blen)
    ensures CopyLength(have, off, blen) <= blen
  {
    if off <= have { ModUnique(have - off, 0, have - off, WORD); } else { ModUnique(have - off, -1, WORD + have - off, WORD); }
  }

  /** How much of the range a prefix of the file supplies that reaches up to `reach`. */
  function SuppliedTo(file: seq<byte>, offset: nat, len: nat, reach: int): nat {
    if offset >= |file| then 0
    else
      var end := Min(Min(reach, |file|), offset + len);
      if end < offset then 0 else end - offset
  }

  /** How much of the range the first k segments supply. */
  function Supplied(file: seq<byte>, size: nat, offset: nat, len: nat, k: nat): nat
    requires size > 0
  {
    SuppliedTo(file, offset, len, (First(offset, size) + k) * size)
  }

  /** Where segment q + k begins. */
  lemma NextStart(size: nat, offset: nat, k: nat)
    requires size > 0
    ensures var q := First(offset, size);
            && q * size + offset % size == offset && (q + k + 1) * size == (q + k) * size + size
            && (k > 0 ==> offset < (q + k) * size)
  {
    var q := First(offset, size);
    DivBounds(offset, size);
    MulStep(q + k, size);
    if k > 0 { MulAtLeast2(q + 1, q + k, size); }
  }

  lemma NothingSliced(file: seq<byte>, offset: nat)
    ensures Slice(file, offset, 0) == []
  {
  }

  lemma SliceOfSlice(file: seq<byte>, base: nat, size: nat, trim: nat, more: nat)
    requires trim + more <= |Slice(file, base, size)|
    ensures Slice(file, base, size)[trim..trim + more] == Slice(file, base + trim, more)
  {
  }

  lemma SupplyGrows(file: seq<byte>, size: nat, offset: nat, len: nat, base: nat, trim: nat)
    requires (base + trim == offset && trim < size && (offset <= |file| || trim == 0)) || (offset < base && trim == 0)
    ensures var have, had := |Slice(file, base, size)|, SuppliedTo(file, offset, len, base);
            && trim <= have && had <= len
            && SuppliedTo(file, offset, len, base + size) == had + Min(have - trim, len - had)
            && (Min(have - trim, len - had) > 0 ==> offset + had == base + trim)
  {
  }

  /** One more segment, that from `base` on: it contains the beginning of the range behind its trim, or
      begins behind that. */
  lemma NextFrom(file: seq<byte>, size: nat, offset: nat, len: nat, base: nat, trim: nat)
    requires (base + trim == offset && trim < size && (offset <= |file| || trim == 0)) || (offset < base && trim == 0)
    ensures var content, had := Slice(file, base, size), SuppliedTo(file, offset, len, base);
            && trim <= |content| && had <= len
            && var more := Min(|content| - trim, len - had);
               && SuppliedTo(file, offset, len, base + size) == had + more
               && content[trim..trim + more] == Slice(file, offset + had, more)
  {
    SupplyGrows(file, size, offset, len, base, trim);
    hide SuppliedTo;
    var content, had := Slice(file, base, size), SuppliedTo(file, offset, len, base);
    var more := Min(|content| - trim, len - had);
    SliceOfSlice(file, base, size, trim, more);
    if more == 0 { NothingSliced(file, offset + had); }
  }

  /** What the k-th segment and the supplies before and behind it are in terms of where it begins. */
  lemma NextBase(file: seq<byte>, size: nat, offset: nat, len: nat, k: nat) returns (base: nat)
    requires size > 0
    ensures SegmentOf(file, size, First(offset, size) + k) == Slice(file, base, size)
    ensures Supplied(file, size, offset, len, k) == SuppliedTo(file, offset, len, base)
    ensures Supplied(file, size, offset, len, k + 1) == SuppliedTo(file, offset, len, base + size)
    ensures if k == 0 then base + offset % size == offset && offset % size < size else offset < base
  {
    hide First, Slice, SuppliedTo;
    NextStart(size, offset, k);
    base := (First(offset, size) + k) * size;
  }

  /** The bytes the next segment adds, its trim included, continue the range where it stopped. */
  lemma NextSupply(file: seq<byte>, size: nat, offset: nat, len: nat, k: nat)
    requires size > 0 && Trimmable(file, size, offset)
    ensures var content := SegmentOf(file, size, First(offset, size) + k);
            var trim := if k == 0 then offset % size else 0;
            var had := Supplied(file, size, offset, len, k);
            && trim <= |content| && had <= len
            && var more := Min(|content| - trim, len - had);
               && Supplied(file, size, offset, len, k + 1) == had + more
               && content[trim..trim + more] == Slice(file, offset + had, more)
  {
    hide First, Slice, SuppliedTo, Supplied, SegmentOf;
    var base := NextBase(file, size, offset, len, k);
    NextFrom(file, size, offset, len, base, if k == 0 then offset % size else 0);
  }

  /** Also as the code computes it, and for an empty range that begins anywhere. */
  lemma NextCopy(file: seq<byte>, size: nat, offset: nat, len: nat, k: nat)
    requires 0 < size < WORD && len < WORD && (Trimmable(file, size, offset) || len == 0)
    ensures var content := SegmentOf(file, size, First(offset, size) + k);
            var trim := if k == 0 then offset % size else 0;
            var had := Supplied(file, size, offset, len, k);
            && had <= len
            && var more := CopyLength(|content|, trim, len - had);
               && Supplied(file, size, offset, len, k + 1) == had + more && more == |Slice(file, offset + had, more)|
               && (more > 0 ==> trim + more <= |content| && content[trim..trim + more] == Slice(file, offset + had, more))
  {
    hide First, CopyLength, SegmentOf;
    SegmentFits(file, size, First(offset, size) + k);
    CopyLengthExactly(|SegmentOf(file, size, First(offset, size) + k)|,
                      if k == 0 then offset % size else 0, len - Supplied(file, size, offset, len, k));
    if len > 0 {
      hide Supplied, Slice;
      NextSupply(file, size, offset, len, k);
    }
  }

  /** Segments that reach the end of the range supply all there is of it. */
  lemma EnoughSupplied(file: seq<byte>, offset: nat, len: nat, reach: int)
    requires offset + len <= reach
    ensures SuppliedTo(file, offset, len, reach) == |Slice(file, offset, len)|
  {
  }

  /** All segments together supply the whole range. */
  lemma AllSupplied(file: seq<byte>, size: nat, offset: nat, len: nat, k: nat)
    requires size > 0 && First(offset, size) + k == Last(offset, len, size)
    ensures Supplied(file, size, offset, len, k) == |Slice(file, offset, len)|
  {
    hide First, Last, SuppliedTo, Slice;
    RangeCovered(offset, len, size);
    EnoughSupplied(file, offset, len, Last(offset, len, size) * size);
  }

  /** Trimming the first segment is safe exactly for ranges that begin inside the file or at its
      end, or on a segment boundary; elsewhere the unsigned subtraction wraps around. */
  lemma TrimSafeExactly(file: seq<byte>, size: nat, offset: nat)
    requires size > 0
    ensures offset % size <= |SegmentOf(file, size, First(offset, size))| <==> Trimmable(file, size, offset)
  {
    DivBounds(offset, size);
  }

  /** Copies what fits of one segment behind its trim to position n of the buffer; not `ok` when that
      would read behind the end of the segment. */
  method CopyDataContent(buf: array<byte>, n: nat, content: seq<byte>, off: nat, blen: nat) returns (len: nat, ok: bool)
    requires |content| < WORD && off < WORD && blen < WORD && n + blen <= buf.Length
    modifies buf
    ensures ok <==> off <= |content| || blen == 0
    ensures ok ==> len == if off <= |content| then Min(|content| - off, blen) else 0
    ensures ok && len > 0 ==> off + len <= |content| && buf[n..n + len] == content[off..off + len]
    ensures ok ==> buf[..n] == old(buf[..n]) && buf[n + len..] == old(buf[n + len..])
    ensures !ok ==> buf[..] == old(buf[..])
  {
    CopyLengthExactly(|content|, off, blen);
    var left := (|content| - off) % WORD;
    len := if left < blen then left else blen;
    ok := len == 0 || off + len <= |content|;
    if ok {
      forall k | 0 <= k < len { buf[n + k] := content[off + k]; }
    }
  }

  /** The whole range is in the buffer and nothing behind it has been touched. */
  twostate predicate RangeRead(file: seq<byte>, buf: array<byte>, offset: nat, blen: nat, n: int)
    reads buf
  {
    && n == |Slice(file, offset, blen)| && n <= buf.Length
    && buf[..n] == Slice(file, offset, blen) && buf[n..] == old(buf[n..])
  }

  /** One more segment joins what has been copied. */
  lemma SliceExtends(file: seq<byte>, offset: nat, had: nat, more: nat)
    requires had == |Slice(file, offset, had)| && more == |Slice(file, offset + had, more)|
    ensures Slice(file, offset, had) + Slice(file, offset + had, more) == Slice(file, offset, had + more)
  {
  }

  lemma SuppliedIsThere(file: seq<byte>, size: nat, offset: nat, len: nat, k: nat)
    requires size > 0
    ensures var had := Supplied(file, size, offset, len, k); had <= len && had == |Slice(file, offset, had)|
  {
    hide First;
  }

  lemma SupplyStarts(file: seq<byte>, size: nat, offset: nat, len: nat)
    requires size > 0
    ensures Supplied(file, size, offset, len, 0) == 0
  {
    DivBounds(offset, size);
  }

  lemma SegmentFits(file: seq<byte>, size: nat, i: nat)
    ensures |SegmentOf(file, size, i)| <= size
  {
  }

  /** Copies the k-th reply; both readers do this in segment order. */
  method CopySegment(ghost file: seq<byte>, buf: array<byte>, offset: nat, ghost len: nat, size: nat, k: nat, n: nat,
                     blen: nat, content: seq<byte>)
    returns (added: nat, ok: bool)
    requires 0 < size < WORD && buf.Length >= len && len < WORD
    requires k > 0 ==> Trimmable(file, size, offset) || len == 0
    requires content == SegmentOf(file, size, First(offset, size) + k)
    requires n == Supplied(file, size, offset, len, k) && n + blen == len && buf[..n] == Slice(file, offset, n)
    modifies buf
    ensures ok <==> Trimmable(file, size, offset) || len == 0
    ensures ok ==> added <= blen && n + added == Supplied(file, size, offset, len, k + 1)
    ensures ok ==> buf[..n + added] == Slice(file, offset, n + added)
    ensures ok ==> buf[n + added..] == old(buf[n + added..])
    ensures !ok ==> buf[..] == old(buf[..])
  {
    hide Supplied, SegmentOf, First, Slice, CopyLength;
    TrimSafeExactly(file, size, offset);
    SegmentFits(file, size, First(offset, size) + k);
    if k == 0 { SupplyStarts(file, size, offset, len); }
    var trim := if k == 0 then offset % size else 0;
    added, ok := CopyDataContent(buf, n, content, trim, blen);
    if ok {
      CopyLengthExactly(|content|, trim, blen);
      NextCopy(file, size, offset, len, k);
      SuppliedIsThere(file, size, offset, len, k);
      SliceExtends(file, offset, n, added);
      if added == 0 { NothingSliced(file, offset + n); }
      assert buf[n..n + added] == Slice(file, offset + n, added);
      assert buf[..n + added] == buf[..n] + buf[n..n + added];
    }
  }

  // ---------------------------------------------------------------------------
  // Consumer::syncRequestDataFor and File::read
  // ---------------------------------------------------------------------------

  /** A reply the caller can use: present, and its name ends in a segment. */
  predicate Usable(pop: Option<Data>) { pop.Some? && pop.value.segment.Some? }

  /** Waits for one reply per Interest; a null reply or one without a segment spoils them all.
      `pops` is what the response queue hands out. */
  method SyncRequestDataFor(npkts: nat, pushed: bool, pops: seq<Option<Data>>) returns (pkts: seq<Data>)
    requires |pops| == npkts
    ensures pushed && (forall k :: 0 <= k < npkts ==> Usable(pops[k])) ==>
              |pkts| == npkts && forall k :: 0 <= k < npkts ==> pkts[k] == pops[k].value
    ensures !(pushed && forall k :: 0 <= k < npkts ==> Usable(pops[k])) ==> pkts == []
  {
    pkts := [];
    if !pushed { return; }
    var left := npkts;
    while left > 0
      invariant 0 <= left <= npkts && |pkts| == npkts - left
      invariant forall k :: 0 <= k < |pkts| ==> Usable(pops[k]) && pkts[k] == pops[k].value
    {
      var pkt := pops[npkts - left];
      if pkt.None? { return []; }
      if pkt.value.segment.None? { return []; }
      pkts := pkts + [pkt.value];
      left := left - 1;
    }
  }

  /** Sorts replies by segment number. */
  method SortBySegment(response: seq<Data>) returns (sorted: seq<Data>)
    requires forall k :: 0 <= k < |response| ==> response[k].segment.Some?
    ensures Sorted(sorted) && multiset(sorted) == multiset(response)
  {
    sorted := [];
    for i := 0 to |response|
      invariant Sorted(sorted) && multiset(sorted) == multiset(response[..i])
    {
      sorted := Insert(sorted, response[i]);
      assert response[..i + 1] == response[..i] + [response[i]];
    }
    assert response[..|response|] == response;
  }

  lemma InsertedCounts<T>(xs: seq<T>, j: nat, x: T)
    requires j <= |xs|
    ensures multiset(xs[..j] + [x] + xs[j..]) == multiset(xs) + multiset{x}
  {
    assert xs == xs[..j] + xs[j..];
  }

  method Insert(sorted: seq<Data>, d: Data) returns (longer: seq<Data>)
    requires Sorted(sorted) && d.segment.Some?
    ensures Sorted(longer) && multiset(longer) == multiset(sorted) + multiset{d}
  {
    var j := 0;
    while j < |sorted| && sorted[j].segment.value <= d.segment.value
      invariant j <= |sorted| && forall k :: 0 <= k < j ==> sorted[k].segment.value <= d.segment.value
    {
      j := j + 1;
    }
    longer := sorted[..j] + [d] + sorted[j..];
    InsertedSorted(sorted, j, d);
    InsertedCounts(sorted, j, d);
  }

  lemma InsertedSorted(sorted: seq<Data>, j: nat, d: Data)
    requires Sorted(sorted) && d.segment.Some? && j <= |sorted|
    requires forall k :: 0 <= k < j ==> sorted[k].segment.value <= d.segment.value
    requires j < |sorted| ==> d.segment.value <= sorted[j].segment.value
    ensures Sorted(sorted[..j] + [d] + sorted[j..])
  {
    var longer := sorted[..j] + [d] + sorted[j..];
    forall k | 0 <= k < |longer|
      ensures longer[k] == if k < j then sorted[k] else if k == j then d else sorted[k - 1]
    {
    }
  }

  lemma {:induction false} CountAtMostOne(xs: seq<Data>, d: Data)
    requires forall i, k :: 0 <= i < k < |xs| ==> xs[i].segment != xs[k].segment
    ensures multiset(xs)[d] <= 1
  {
    if xs != [] {
      var n := |xs| - 1;
      CountAtMostOne(xs[..n], d);
      assert xs == xs[..n] + [xs[n]];
      if xs[n] == d { assert d !in xs[..n]; }
    }
  }

  lemma CountAtLeastTwo(xs: seq<Data>, i: nat, k: nat)
    requires i < k < |xs| && xs[i] == xs[k]
    ensures multiset(xs)[xs[i]] >= 2
  {
    assert xs == xs[..k] + xs[k..];
    assert xs[i] == xs[..k][i] && xs[i] == xs[k..][0];
    assert xs[i] in multiset(xs[..k]) && xs[i] in multiset(xs[k..]);
  }

  /** Being the replies to a request does not depend on their order. */
  lemma OrderDoesNotMatter(file: seq<byte>, size: nat, first: nat, last: nat, replies: seq<Data>, sorted: seq<Data>)
    requires Replies(file, size, first, last, replies) && multiset(sorted) == multiset(replies)
    ensures Replies(file, size, first, last, sorted)
  {
    assert |sorted| == |multiset(sorted)| == |multiset(replies)| == |replies|;
    forall k | 0 <= k < |sorted| ensures IsReply(file, size, first, last, sorted[k]) {
      assert sorted[k] in multiset(replies);
      var i :| 0 <= i < |replies| && replies[i] == sorted[k];
    }
    forall i, k | 0 <= i < k < |sorted| ensures sorted[i].segment != sorted[k].segment {
      if sorted[i].segment == sorted[k].segment {
        assert IsReply(file, size, first, last, sorted[i]) && IsReply(file, size, first, last, sorted[k]);
        CountAtLeastTwo(sorted, i, k);
        CountAtMostOne(replies, sorted[i]);
      }
    }
  }

  /** What the pipeline may hand out for a request: as many answers as Interests, and the ones that
      are not null are the requested segments, none twice. */
  predicate Answers(file: seq<byte>, size: nat, first: nat, last: nat, pops: seq<Option<Data>>) {
    && first <= last && |pops| == last - first
    && (forall k :: 0 <= k < |pops| && Usable(pops[k]) ==> IsReply(file, size, first, last, pops[k].value))
    && (forall i, k :: 0 <= i < k < |pops| && Usable(pops[i]) && Usable(pops[k]) ==>
          pops[i].value.segment != pops[k].value.segment)
  }

  /** Nothing is asked for. */
  predicate AsksNothing(size: nat, offset: nat, blen: nat)
    requires size > 0
  {
    blen == 0 && offset % size == 0
  }

  /** `File::read`: the bytes of the range, in full and nothing else; -1 exactly when nothing was
      asked for or something could not be had; and otherwise out of bounds exactly when bytes are
      asked for from behind the end of the file and not on a segment boundary. */
  method Read(ghost file: seq<byte>, size: nat, buf: array<byte>, offset: nat, blen: nat, pushed: bool,
              pops: seq<Option<Data>>)
    returns (r: Outcome)
    requires 0 < size < WORD && buf.Length >= blen && blen < WORD
    requires Answers(file, size, First(offset, size), Last(offset, blen, size), pops)
    modifies buf
    ensures r.Failed? <==> AsksNothing(size, offset, blen) || !pushed || exists k :: 0 <= k < |pops| && !Usable(pops[k])
    ensures r.OutOfBounds? <==> !r.Failed? && !Trimmable(file, size, offset) && blen > 0
    ensures r.Bytes? ==> RangeRead(file, buf, offset, blen, r.n)
    ensures !r.Bytes? ==> buf[..] == old(buf[..]) && (r.Failed? ==> r.code == -1) && !r.NothingStored?
  {
    var indexFirstSegment, indexLastSegment := First(offset, size), Last(offset, blen, size);
    RangeCovered(offset, blen, size);
    var response := SyncRequestDataFor(indexLastSegment - indexFirstSegment, pushed, pops);
    if response == [] { return Failed(-1); }
    assert Replies(file, size, indexFirstSegment, indexLastSegment, response);
    var sorted := SortBySegment(response);
    OrderDoesNotMatter(file, size, indexFirstSegment, indexLastSegment, response, sorted);
    assert |sorted| == |response|;
    r := CopyInOrder(file, size, buf, offset, blen, sorted);
  }

  method CopyInOrder(ghost file: seq<byte>, size: nat, buf: array<byte>, offset: nat, blen: nat, sorted: seq<Data>)
    returns (r: Outcome)
    requires 0 < size < WORD && buf.Length >= blen && blen < WORD && |sorted| > 0
    requires Replies(file, size, First(offset, size), Last(offset, blen, size), sorted) && Sorted(sorted)
    modifies buf
    ensures r == OutOfBounds <==> !Trimmable(file, size, offset) && blen > 0
    ensures r != OutOfBounds ==> r.Bytes? && RangeRead(file, buf, offset, blen, r.n)
    ensures r == OutOfBounds ==> buf[..] == old(buf[..])
  {
    hide Supplied, SegmentOf, First, Last, Slice, Replies, Sorted, Trimmable;
    var n, left := 0, blen;
    SupplyStarts(file, size, offset, blen);
    NothingSliced(file, offset);
    RepliesCount(file, size, First(offset, size), Last(offset, blen, size), sorted);
    for k := 0 to |sorted|
      invariant k > 0 ==> Trimmable(file, size, offset) || blen == 0
      invariant n == Supplied(file, size, offset, blen, k) && n <= blen && left == blen - n
      invariant buf[..n] == Slice(file, offset, n) && buf[n..] == old(buf[n..])
    {
      SortedReplies(file, size, First(offset, size), Last(offset, blen, size), sorted, k);
      label Before:
      var added, ok := CopySegment(file, buf, offset, blen, size, k, n, left, sorted[k].content);
      if !ok { return OutOfBounds; }
      assert buf[n + added..] == old@Before(buf[n..])[added..];
      n, left := n + added, left - added;
    }
    AllSupplied(file, size, offset, blen, |sorted|);
    r := Bytes(n);
  }

  lemma RepliesCount(file: seq<byte>, size: nat, first: nat, last: nat, replies: seq<Data>)
    requires Replies(file, size, first, last, replies)
    ensures |replies| == last - first
  {
  }

  // ---------------------------------------------------------------------------
  // Consumer::Read and returnData
  // ---------------------------------------------------------------------------

  /** A completed future: the validation code and, if that is zero, the Data. */
  datatype Fetched = Fetched(code: int, data: Data)

  predicate Good(f: Fetched) { f.code == 0 }

  predicate Fetches(file: seq<byte>, size: nat, first: nat, last: nat, results: seq<Fetched>) {
    && first <= last && |results| == last - first
    && (forall k :: 0 <= k < |results| && Good(results[k]) ==> IsReply(file, size, first, last, results[k].data))
    && (forall i, k :: 0 <= i < k < |results| && Good(results[i]) && Good(results[k]) ==>
          results[i].data.segment != results[k].data.segment)
  }

  /** The store holds the contents of segments [from, last). */
  ghost predicate Holds(file: seq<byte>, size: nat, from: nat, last: nat, store: map<nat, seq<byte>>) {
    && (forall i: nat :: i in store <==> from <= i < last)
    && (forall i: nat :: i in store ==> store[i] == SegmentOf(file, size, i))
  }

  /** Distinct numbers that fill a range are the range. */
  lemma {:induction false} FillsRange(keys: set<nat>, first: nat, last: nat)
    requires first <= last && |keys| == last - first && forall i :: i in keys ==> first <= i < last
    ensures forall i: nat :: i in keys <==> first <= i < last
  {
    if first < last {
      if last - 1 in keys {
        FillsRange(keys - {last - 1}, first, last - 1);
      } else {
        TooMany(keys, first, last - 1);
      }
    }
  }

  lemma {:induction false} TooMany(keys: set<nat>, first: nat, last: nat)
    requires first <= last && forall i :: i in keys ==> first <= i < last
    ensures |keys| <= last - first
  {
    if first < last {
      TooMany(keys - {last - 1}, first, last - 1);
      assert keys <= (keys - {last - 1}) + {last - 1};
    } else {
      assert keys == {};
    }
  }

  /** The store holds the contents of the first i results. */
  ghost predicate Gathered(file: seq<byte>, size: nat, first: nat, last: nat, results: seq<Fetched>, i: nat,
                           dataStore: map<nat, seq<byte>>)
    requires i <= |results|
  {
    && (forall k :: 0 <= k < i ==> Good(results[k])) && |dataStore.Keys| == i
    && (forall s: nat :: s in dataStore ==> first <= s < last && dataStore[s] == SegmentOf(file, size, s))
    && (forall s: nat :: s in dataStore ==> StoredBy(results, i, s))
  }

  ghost predicate StoredBy(results: seq<Fetched>, i: nat, s: nat)
    requires i <= |results|
  {
    exists k :: 0 <= k < i && results[k].data.segment == Some(s)
  }

  /** No segment arrives twice. */
  lemma NotStoredYet(file: seq<byte>, size: nat, first: nat, last: nat, results: seq<Fetched>, i: nat)
    requires Fetches(file, size, first, last, results) && i < |results| && forall k :: 0 <= k <= i ==> Good(results[k])
    ensures IsReply(file, size, first, last, results[i].data)
    ensures !StoredBy(results, i, results[i].data.segment.value)
  {
    hide SegmentOf;
  }

  lemma StoredMore(results: seq<Fetched>, i: nat, s: nat)
    requires i < |results| && (StoredBy(results, i, s) || results[i].data.segment == Some(s))
    ensures StoredBy(results, i + 1, s)
  {
  }

  lemma GatherOne(file: seq<byte>, size: nat, first: nat, last: nat, results: seq<Fetched>, i: nat,
                  dataStore: map<nat, seq<byte>>)
    requires Fetches(file, size, first, last, results) && i < |results| && Good(results[i])
    requires Gathered(file, size, first, last, results, i, dataStore)
    ensures IsReply(file, size, first, last, results[i].data)
    ensures Gathered(file, size, first, last, results, i + 1, dataStore[results[i].data.segment.value := results[i].data.content])
  {
    hide SegmentOf, StoredBy, Fetches;
    NotStoredYet(file, size, first, last, results, i);
    var segment := results[i].data.segment.value;
    var more := dataStore[segment := results[i].data.content];
    assert more.Keys == dataStore.Keys + {segment};
    forall s: nat | s in more ensures StoredBy(results, i + 1, s) {
      StoredMore(results, i, s);
    }
  }

  /** Collects the results in the order they complete; the first error ends the read. */
  method Collect(ghost file: seq<byte>, size: nat, ghost first: nat, ghost last: nat, results: seq<Fetched>)
    returns (code: int, dataStore: map<nat, seq<byte>>)
    requires Fetches(file, size, first, last, results)
    ensures code == 0 <==> forall k :: 0 <= k < |results| ==> Good(results[k])
    ensures code == 0 ==> Holds(file, size, first, last, dataStore)
    ensures code != 0 ==>
              exists k :: 0 <= k < |results| && results[k].code == code && forall i :: 0 <= i < k ==> Good(results[i])
  {
    hide SegmentOf, StoredBy;
    dataStore := map[];
    for i := 0 to |results|
      invariant Gathered(file, size, first, last, results, i, dataStore)
    {
      if results[i].code != 0 { return results[i].code, map[]; }
      GatherOne(file, size, first, last, results, i, dataStore);
      dataStore := dataStore[results[i].data.segment.value := results[i].data.content];
    }
    FillsRange(dataStore.Keys, first, last);
    code := 0;
  }

  /** Takes out the first element of an ordered map. */
  method PopFirst(ghost file: seq<byte>, ghost size: nat, ghost from: nat, ghost last: nat, store: map<nat, seq<byte>>)
    returns (content: seq<byte>, rest: map<nat, seq<byte>>)
    requires Holds(file, size, from, last, store) && store != map[]
    ensures content == SegmentOf(file, size, from) && from < last && Holds(file, size, from + 1, last, rest)
  {
    hide Holds, SegmentOf;
    SmallestKey(file, size, from, last, store);
    var begin :| begin in store && forall i :: i in store ==> begin <= i;
    content, rest := store[begin], store - {begin};
  }

  /** `returnData`: takes the contents out of the store in key order. */
  method ReturnData(ghost file: seq<byte>, buff: array<byte>, offset: nat, blen: nat, size: nat,
                    dataStore: map<nat, seq<byte>>)
    returns (r: Outcome)
    requires 0 < size < WORD && buff.Length >= blen && blen < WORD
    requires Holds(file, size, First(offset, size), Last(offset, blen, size), dataStore) && dataStore != map[]
    modifies buff
    ensures r == OutOfBounds <==> !Trimmable(file, size, offset) && blen > 0
    ensures r != OutOfBounds ==> r.Bytes? && RangeRead(file, buff, offset, blen, r.n)
    ensures r == OutOfBounds ==> buff[..] == old(buff[..])
  {
    hide Holds, Supplied, Slice, SegmentOf, First, Last, Trimmable;
    var first := First(offset, size);
    ghost var last := Last(offset, blen, size);
    var nBytes, left, k, store := 0, blen, 0, dataStore;
    SupplyStarts(file, size, offset, blen);
    NothingSliced(file, offset);
    RangeCovered(offset, blen, size);
    while store != map[]
      invariant first + k <= last && Holds(file, size, first + k, last, store)
      invariant if k == 0 then store == dataStore else Trimmable(file, size, offset) || blen == 0
      invariant nBytes == Supplied(file, size, offset, blen, k) && nBytes <= blen && left == blen - nBytes
      invariant buff[..nBytes] == Slice(file, offset, nBytes) && buff[nBytes..] == old(buff[nBytes..])
      decreases last - first - k
    {
      label Before:
      var content;
      content, store := PopFirst(file, size, first + k, last, store);
      var added, ok := CopySegment(file, buff, offset, blen, size, k, nBytes, left, content);
      if !ok { return OutOfBounds; }
      assert buff[nBytes + added..] == old@Before(buff[nBytes..])[added..];
      nBytes, left, k := nBytes + added, left - added, k + 1;
    }
    NoneLeft(file, size, first + k, last, store);
    AllSupplied(file, size, offset, blen, k);
    r := Bytes(nBytes);
  }

  lemma SmallestKey(file: seq<byte>, size: nat, from: nat, last: nat, store: map<nat, seq<byte>>)
    requires Holds(file, size, from, last, store) && store != map[]
    ensures from in store && store[from] == SegmentOf(file, size, from) && from < last
    ensures forall i :: i in store && (forall j :: j in store ==> i <= j) <==> i == from
    ensures Holds(file, size, from + 1, last, store - {from})
  {
    var i :| i in store;
  }

  lemma NoneLeft(file: seq<byte>, size: nat, from: nat, last: nat, store: map<nat, seq<byte>>)
    requires Holds(file, size, from, last, store) && store == map[] && from <= last
    ensures from == last
  {
    assert from in store <==> from < last;
  }

  /** `Consumer::Read`, whatever order the futures complete in. */
  method ReadMapped(ghost file: seq<byte>, size: nat, buff: array<byte>, offset: nat, blen: nat, results: seq<Fetched>)
    returns (r: Outcome)
    requires 0 < size < WORD && buff.Length >= blen && blen < WORD
    requires Fetches(file, size, First(offset, size), Last(offset, blen, size), results)
    modifies buff
    ensures r.NothingStored? <==> AsksNothing(size, offset, blen)
    ensures r.OutOfBounds? <==> !r.NothingStored? && !r.Failed? && !Trimmable(file, size, offset) && blen > 0
    ensures r.Bytes? ==> RangeRead(file, buff, offset, blen, r.n)
    ensures r.Failed? <==> exists k :: 0 <= k < |results| && !Good(results[k])
    ensures !r.Bytes? ==> buff[..] == old(buff[..])
    ensures r.Failed? ==>
              exists k :: 0 <= k < |results| && results[k].code == r.code && forall i :: 0 <= i < k ==> Good(results[i])
  {
    RangeCovered(offset, blen, size);
    var code, dataStore := Collect(file, size, First(offset, size), Last(offset, blen, size), results);
    if code != 0 { return Failed(code); }
    if dataStore == map[] {
      assert First(offset, size) !in dataStore;
      return NothingStored;
    }
    r := ReturnData(file, buff, offset, blen, size, dataStore);
  }
}
