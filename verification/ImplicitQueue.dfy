/** The whole single-producer sub-queue: claims on indices (`OptimisticDequeue`), the circular
    block index (`BlockIndex`), the blocks and their cells, and the life of a block from
    requisition to release.

    The producer runs `enqueue_bulk` (a single enqueue is a batch of one): it allocates one
    block per block boundary in its range and links each to the block before it, undoing everything
    if an allocation fails, writes the cells by following these links and then publishes them with
    one store of the tail.  A consumer that has won a range of indices finds their blocks through
    whatever block-index header it loaded, moves the elements out, counts them as emptied, and gives
    a block back when it empties it.  Each access to shared memory is one step.

    A block that is not in use here may be in use anywhere else: its link, count and cells change
    at any time.

    `next` holds the blocks' links.  While it allocates and writes, the program moves `tailBlock` along
    and keeps the old one as its start block; here `tailBlock` stays until the batch is published, and
    what moves is `walk.cursor`, which also stands for the block an undo loop is at.  `walk.stop` is
    the index where the writing loop leaves its block.  The `blocks` in a producer's state (the
    blocks allocated so far; the program keeps the first and the last), `elements` (the sequence
    enqueued so far), `delivered`, `finished` and `inUse` are history. */
module ImplicitQueue {
  import opened Options
  import opened BlockIndex
  import opened Blocks
  import opened Numbers
  import D = OptimisticDequeue

  type Tid = D.Tid

  datatype Producer<T> =
    | Resting
    | Allocating(items: seq<T>, blocks: seq<BlockId>)
    | KeyStored(items: seq<T>, blocks: seq<BlockId>, entry: EntryId)
    | TailStored(items: seq<T>, blocks: seq<BlockId>, entry: EntryId)
    | Obtained(items: seq<T>, blocks: seq<BlockId>, entry: EntryId, block: BlockId)
    | Built(items: seq<T>, blocks: seq<BlockId>, entry: EntryId, block: BlockId)
    | Linking(items: seq<T>, blocks: seq<BlockId>)
    | Writing(items: seq<T>, blocks: seq<BlockId>, written: nat)
    | Rewound(blocks: seq<BlockId>, entry: EntryId)
    | Undoing(blocks: seq<BlockId>, undone: nat)
    | UndoRewinding(blocks: seq<BlockId>, undone: nat)
    | Returning(blocks: seq<BlockId>, returned: nat)

  datatype Consumer =
    | Outside
    | Located(next: nat, end: nat)
    | HeaderLoaded(next: nat, end: nat, header: nat)
    | SlotLoaded(next: nat, end: nat, header: nat, tail: nat, seen: nat)
    | AtBlock(next: nat, end: nat, header: nat, slot: nat)
    | Taking(start: nat, next: nat, end: nat, header: nat, slot: nat, block: BlockId)
    | Clearing(next: nat, end: nat, header: nat, slot: nat, block: BlockId, number: nat)
    | Releasing(next: nat, end: nat, header: nat, slot: nat, block: BlockId)

  datatype Walk = Walk(cursor: Option<BlockId>, stop: nat)

  datatype State<T> = State(
    claims: D.State, index: BlockIndex.State,
    cells: map<(BlockId, nat), T>, emptied: map<BlockId, nat>, next: map<BlockId, Option<BlockId>>,
    tailBlock: Option<BlockId>, walk: Walk, producer: Producer<T>, consumers: map<Tid, Consumer>,
    elements: seq<T>, delivered: map<nat, T>, finished: set<nat>, inUse: set<BlockId>)

  function Init<T>(threads: set<Tid>, garbage: Option<BlockId>): State<T> {
    State.State(D.Init(threads), BlockIndex.Init(garbage), map[], map[], map[], None,
          Walk(None, 0), Resting, map t | t in threads :: Outside, [], map[], {}, {})
  }

  function Tail<T>(s: State<T>): nat { s.claims.tail }

  function Head<T>(s: State<T>): nat { s.claims.head }

  // ---------------------------------------------------------------------------
  // Steps
  // ---------------------------------------------------------------------------

  /** What an allocation comes back with: a block, or nothing; `garbage` is what uninitialised
      entries of a new header contain.  A single enqueue of elements whose constructor may fail
      builds its element `early`, before its block is in the index. */
  datatype Luck = Luck(block: Option<BlockId>, indexMemory: bool, garbage: Option<BlockId>, early: bool)

  datatype Action<T> =
    | Enqueue(items: seq<T>)
    | Produce(luck: Luck)
    | Dequeue(tid: Tid, max: nat)
    | Consume(tid: Tid)
    | Elsewhere(block: BlockId, link: Option<BlockId>, count: nat, cell: nat, item: T)

  /** The block that holds index i while the producer is writing: its tail block as long as i
      still falls into it, then the blocks it has just allocated. */
  function WriteBlock<T>(s: State<T>, blocks: seq<BlockId>, i: nat): Option<BlockId> {
    var k := BlockOf(i) - BlocksFor(Tail(s));
    if k < 0 then s.tailBlock else if k < |blocks| then Some(blocks[k]) else None
  }

  function At(blocks: seq<BlockId>, k: nat): Option<BlockId> { if k < |blocks| then Some(blocks[k]) else None }

  /** The block that `tailBlock` has come to after these allocations. */
  function EndBlock(tailBlock: Option<BlockId>, blocks: seq<BlockId>): Option<BlockId> {
    if blocks == [] then tailBlock else Some(blocks[|blocks| - 1])
  }

  /** Where a walk through one block stops. */
  function Stop(start: nat, end: nat): nat {
    Min(end, (BlockOf(start) + 1) * BLOCK_SIZE)
  }

  function StartOrWrite<T>(s: State<T>, items: seq<T>, blocks: seq<BlockId>): Producer<T> {
    if BlocksFor(Tail(s)) + |blocks| < BlocksFor(Tail(s) + |items|) then Allocating(items, blocks)
    else Writing(items, blocks, 0)
  }

  /** The writing loop begins in the start block, or in the first allocated one if the start block is
      full. */
  function StartWalk<T>(s: State<T>, items: seq<T>, blocks: seq<BlockId>): Walk {
    Walk(if Tail(s) % BLOCK_SIZE == 0 && blocks != [] then Some(blocks[0]) else s.tailBlock, Stop(Tail(s), Tail(s) + |items|))
  }

  /** The test before a new block is linked: has the start block room, or is there a block before? */
  predicate MustLink<T>(s: State<T>, blocks: seq<BlockId>) {
    Tail(s) % BLOCK_SIZE != 0 || |blocks| > 1
  }

  /** The entry at the tail slot, as the producer sees it. */
  function TailEntry(index: BlockIndex.State): EntryId
    requires Shaped(index)
  {
    index.headers[index.Current()].index[index.headers[index.Current()].tail]
  }

  /** The producer's own lookup, `get_block_index_entry_for_index`, while nobody else stores keys. */
  function OwnLookup(index: BlockIndex.State, base: int): EntryId
    requires Shaped(index) && index.entries[TailEntry(index)].key.Some?
  {
    var hd := index.headers[index.Current()];
    hd.index[SlotFromTail(hd, hd.tail, index.entries[TailEntry(index)].key.value, base)]
  }

  predicate ProducerEnabled<T>(s: State<T>, luck: Luck) {
    && Shaped(s.index)
    && match s.producer
       case Resting => false
       case TailStored(_, _, _) => s.index.inserted > 0 && (luck.block.Some? ==> luck.block.value !in s.inUse)
       case Obtained(_, _, entry, _) => entry < |s.index.entries| && s.index.pending.Some?
       case Built(_, _, entry, _) => entry < |s.index.entries| && s.index.pending.Some?
       case Linking(_, blocks) =>
         |blocks| > 0 && (MustLink(s, blocks) ==> EndBlock(s.tailBlock, blocks[..|blocks| - 1]).Some?)
       case Rewound(_, entry) => entry < |s.index.entries|
       case Undoing(_, _) => s.walk.cursor.Some? ==> s.index.entries[TailEntry(s.index)].key.Some?
       case Writing(items, blocks, written) =>
         if Tail(s) + written != s.walk.stop then written < |items| && s.walk.cursor.Some?
         else s.walk.cursor == EndBlock(s.tailBlock, blocks) || HasNext(s)
       case UndoRewinding(_, _) => s.index.inserted > 0 && HasNext(s)
       case Returning(_, _) => s.walk.cursor.Some? ==> HasNext(s)
       case _ => true
  }

  /** The block the walk is at exists and its link can be followed. */
  predicate HasNext<T>(s: State<T>) { s.walk.cursor.Some? && s.walk.cursor.value in s.next }

  function Produced<T>(s: State<T>, luck: Luck): State<T>
    requires ProducerEnabled(s, luck)
  {
    match s.producer
    case Allocating(items, blocks) =>
      if HasRoom(s.index) then
        s.(index := StoreKey(s.index, (BlocksFor(Tail(s)) + |blocks|) * BLOCK_SIZE),
           producer := KeyStored(items, blocks, NextEntry(s.index)))
      else if luck.indexMemory then s.(index := Grow(s.index, luck.garbage))
      else s.(producer := Undoing(blocks, 0), walk := s.walk.(cursor := At(blocks, 0)))
    case KeyStored(items, blocks, entry) =>
      s.(index := StoreTail(s.index), producer := TailStored(items, blocks, entry))
    case TailStored(items, blocks, entry) =>
      (match luck.block
       case Some(b) =>
         s.(emptied := s.emptied[b := 0], next := s.next[b := None], inUse := s.inUse + {b},
            producer := Obtained(items, blocks, entry, b))
       case None => s.(index := Rewind(s.index), producer := Rewound(blocks, entry)))
    case Obtained(items, blocks, entry, b) =>
      if luck.early && |items| == 1 && blocks == [] then
        s.(cells := s.cells[(b, CellOf(Tail(s))) := items[0]], producer := Built(items, blocks, entry, b))
      else s.(index := StoreValue(s.index, entry, b), producer := Linking(items, blocks + [b]))
    case Built(items, blocks, entry, b) =>
      s.(index := StoreValue(s.index, entry, b), producer := Writing(items, blocks + [b], 1),
         walk := StartWalk(s, items, blocks + [b]))
    case Linking(items, blocks) =>
      s.(next := if MustLink(s, blocks)
                 then s.next[EndBlock(s.tailBlock, blocks[..|blocks| - 1]).value := Some(blocks[|blocks| - 1])]
                 else s.next,
         producer := StartOrWrite(s, items, blocks), walk := StartWalk(s, items, blocks))
    case Writing(items, blocks, written) =>
      if Tail(s) + written != s.walk.stop then
        s.(cells := s.cells[(s.walk.cursor.value, CellOf(Tail(s) + written)) := items[written]],
           producer := Writing(items, blocks, written + 1))
      else if s.walk.cursor != EndBlock(s.tailBlock, blocks) then
        s.(walk := Walk(s.next[s.walk.cursor.value], Stop(s.walk.stop, Tail(s) + |items|)))
      else
        s.(claims := D.Apply(s.claims, D.Publish(|items|)), elements := s.elements + items,
           tailBlock := s.walk.cursor, producer := Resting)
    case Rewound(blocks, entry) =>
      s.(index := ClearPending(s.index, entry), producer := Undoing(blocks, 0), walk := s.walk.(cursor := At(blocks, 0)))
    case Undoing(blocks, undone) =>
      if s.walk.cursor.Some? then
        var j := BlocksFor(Tail(s)) + undone;
        s.(index := ClearValue(s.index, OwnLookup(s.index, j * BLOCK_SIZE), j),
           producer := UndoRewinding(blocks, undone))
      else s.(producer := Returning(blocks, 0), walk := s.walk.(cursor := At(blocks, 0)))
    case UndoRewinding(blocks, undone) =>
      s.(index := Rewind(s.index), producer := Undoing(blocks, undone + 1),
         walk := s.walk.(cursor := s.next[s.walk.cursor.value]))
    case Returning(blocks, returned) =>
      if s.walk.cursor.Some? then
        s.(inUse := s.inUse - {s.walk.cursor.value}, producer := Returning(blocks, returned + 1),
           walk := s.walk.(cursor := s.next[s.walk.cursor.value]))
      else s.(producer := Resting)
    case Resting => s
  }

  predicate ConsumerEnabled<T>(s: State<T>, t: Tid) {
    && t in s.consumers && Shaped(s.index)
    && match s.consumers[t]
       case Outside => D.Enabled(s.claims, D.Advance(t))
       case Located(_, _) => true
       case HeaderLoaded(_, _, h) => h < |s.index.headers|
       case SlotLoaded(_, _, h, tail, _) =>
         && h < |s.index.headers| && tail < |s.index.headers[h].index|
         && s.index.entries[s.index.headers[h].index[tail]].key.Some?
       case AtBlock(_, _, h, slot) =>
         && h < |s.index.headers| && slot < |s.index.headers[h].index|
         && s.index.entries[s.index.headers[h].index[slot]].value.Some?
       case Taking(start, next, end, h, slot, block) =>
         && h < |s.index.headers| && (next < Stop(start, end) ==> (block, CellOf(next)) in s.cells)
         && block in s.emptied && start <= next
       case Clearing(_, _, h, slot, _, _) => h < |s.index.headers| && slot < |s.index.headers[h].index|
       case Releasing(_, _, h, _, _) => h < |s.index.headers|
  }

  /** After a block: on to the next one in the same header, or out. */
  function AfterBlock(hd: Header, next: nat, end: nat, header: nat, slot: nat): Consumer
    requires hd.Capacity() > 0
  {
    if next == end then Outside else AtBlock(next, end, header, (slot + 1) % hd.Capacity())
  }

  function Interval(lo: nat, hi: nat): (r: set<nat>)
    ensures forall i :: i in r <==> lo <= i < hi
    ensures |r| == if lo <= hi then hi - lo else 0
  {
    if hi <= lo then {} else Interval(lo, hi - 1) + {hi - 1}
  }

  function Consumed<T>(s: State<T>, t: Tid): State<T>
    requires ConsumerEnabled(s, t)
  {
    match s.consumers[t]
    case Outside =>
      var claims := D.Advanced(s.claims, t);
      s.(claims := claims,
         consumers := if s.claims.threads[t].Claiming? then s.consumers[t := Located(s.claims.head, claims.head)]
                      else s.consumers)
    case Located(next, end) =>
      s.(consumers := s.consumers[t := HeaderLoaded(next, end, s.index.Current())])
    case HeaderLoaded(next, end, h) =>
      s.(consumers := s.consumers[t := SlotLoaded(next, end, h, s.index.headers[h].tail, Reach(s.index, h))])
    case SlotLoaded(next, end, h, tail, seen) =>
      var hd := s.index.headers[h];
      var base := BlockOf(next) * BLOCK_SIZE;
      var slot := SlotFromTail(hd, tail, s.index.entries[hd.index[tail]].key.value, base);
      s.(consumers := s.consumers[t := AtBlock(next, end, h, slot)])
    case AtBlock(next, end, h, slot) =>
      var block := s.index.entries[s.index.headers[h].index[slot]].value.value;
      s.(consumers := s.consumers[t := Taking(next, next, end, h, slot, block)])
    case Taking(start, next, end, h, slot, block) =>
      if next < Stop(start, end) then
        s.(delivered := s.delivered[next := s.cells[(block, CellOf(next))]],
           consumers := s.consumers[t := Taking(start, next + 1, end, h, slot, block)])
      else
        var count := s.emptied[block] + (next - start);
        s.(emptied := s.emptied[block := count],
           finished := s.finished + Interval(start, next),
           consumers := s.consumers[t :=
             if count == BLOCK_SIZE then Clearing(next, end, h, slot, block, BlockOf(start))
             else AfterBlock(s.index.headers[h], next, end, h, slot)])
    case Clearing(next, end, h, slot, block, number) =>
      s.(index := ClearValue(s.index, s.index.headers[h].index[slot], number),
         consumers := s.consumers[t := Releasing(next, end, h, slot, block)])
    case Releasing(next, end, h, slot, block) =>
      s.(inUse := s.inUse - {block},
         consumers := s.consumers[t := AfterBlock(s.index.headers[h], next, end, h, slot)])
  }

  predicate Enabled<T>(s: State<T>, a: Action<T>) {
    match a
    case Enqueue(_) => s.producer.Resting?
    case Produce(luck) => ProducerEnabled(s, luck)
    case Dequeue(t, max) =>
      t in s.consumers && s.consumers[t].Outside? && D.Enabled(s.claims, D.Begin(t, max))
    case Consume(t) => ConsumerEnabled(s, t)
    case Elsewhere(b, _, _, _, _) => b !in s.inUse
  }

  function Apply<T>(s: State<T>, a: Action<T>): State<T>
    requires Enabled(s, a)
  {
    match a
    case Enqueue(items) => s.(producer := StartOrWrite(s, items, []), walk := StartWalk(s, items, []))
    case Produce(luck) => Produced(s, luck)
    case Dequeue(t, max) => s.(claims := D.Apply(s.claims, D.Begin(t, max)))
    case Consume(t) => Consumed(s, t)
    case Elsewhere(b, link, count, cell, item) =>
      s.(next := s.next[b := link], emptied := s.emptied[b := count], cells := s.cells[(b, cell) := item])
  }

  // ---------------------------------------------------------------------------
  // The invariant
  // ---------------------------------------------------------------------------

  /** The element indices of block j. */
  function Span(j: nat): set<nat> {
    Interval(j * BLOCK_SIZE, (j + 1) * BLOCK_SIZE)
  }

  /** Blocks the running enqueue has put into the index so far. */
  function Allocated<T>(p: Producer<T>): seq<BlockId> {
    if p.Resting? || p.Returning? then [] else p.blocks
  }

  /** The first of them that it has not yet taken back. */
  function Undone<T>(p: Producer<T>): nat {
    match p
    case Undoing(_, undone) => undone
    case UndoRewinding(_, undone) => undone + 1
    case _ => 0
  }

  /** The count of inserted blocks that goes with the producer's place in the code. */
  predicate InsertedFits<T>(s: State<T>) {
    var n := BlocksFor(Tail(s));
    match s.producer
    case Resting => s.index.inserted == n && s.index.pending.None?
    case Returning(_, _) => s.index.inserted == n && s.index.pending.None?
    case Linking(_, blocks) => s.index.inserted == n + |blocks| && s.index.pending.None?
    case Allocating(_, blocks) => s.index.inserted == n + |blocks| && s.index.pending.None?
    case Writing(_, blocks, _) => s.index.inserted == n + |blocks| && s.index.pending.None?
    case KeyStored(_, blocks, _) => s.index.inserted == n + |blocks| && s.index.pending == Some(s.index.inserted)
    case Rewound(blocks, _) => s.index.inserted == n + |blocks| && s.index.pending == Some(s.index.inserted)
    case TailStored(_, blocks, _) =>
      s.index.inserted == n + |blocks| + 1 && s.index.pending == Some(s.index.inserted - 1)
    case Obtained(_, blocks, _, _) =>
      s.index.inserted == n + |blocks| + 1 && s.index.pending == Some(s.index.inserted - 1)
    case Built(_, blocks, _, _) =>
      s.index.inserted == n + |blocks| + 1 && s.index.pending == Some(s.index.inserted - 1)
    case Undoing(blocks, undone) =>
      undone <= |blocks| && s.index.inserted == n + |blocks| - undone && s.index.pending.None?
    case UndoRewinding(blocks, undone) =>
      undone < |blocks| && s.index.inserted == n + |blocks| - undone && s.index.pending.None?
  }

  /** The entry the producer remembers is that of the pending block. */
  predicate EntryRemembered<T>(s: State<T>)
    requires Shaped(s.index)
  {
    match s.producer
    case KeyStored(_, _, entry) => s.index.pending.Some? && entry == EntryOf(s.index, s.index.pending.value)
    case TailStored(_, _, entry) => s.index.pending.Some? && entry == EntryOf(s.index, s.index.pending.value)
    case Obtained(_, _, entry, _) => s.index.pending.Some? && entry == EntryOf(s.index, s.index.pending.value)
    case Built(_, _, entry, _) => s.index.pending.Some? && entry == EntryOf(s.index, s.index.pending.value)
    case Rewound(_, entry) => s.index.pending.Some? && entry == EntryOf(s.index, s.index.pending.value)
    case _ => true
  }

  /** Exactly the blocks of the running enqueue lie beyond those of the published elements. */
  predicate AllocationsFit<T>(s: State<T>) {
    var n, blocks := BlocksFor(Tail(s)), Allocated(s.producer);
    && s.index.low <= n
    && (forall j :: j in s.index.live ==> j < n + |blocks|)
    && (forall k: nat :: k < |blocks| ==> AllocationAt(s, k))
  }

  /** The k-th allocated block is in the index under its number until it is taken back. */
  predicate AllocationAt<T>(s: State<T>, k: nat)
    requires k < |Allocated(s.producer)|
  {
    var j := BlocksFor(Tail(s)) + k;
    (j in s.index.live <==> Undone(s.producer) <= k) && (j in s.index.live ==> s.index.live[j] == Allocated(s.producer)[k])
  }

  /** A batch allocates one block per block boundary in its range and no more. */
  predicate BatchFits<T>(s: State<T>) {
    var n := BlocksFor(Tail(s));
    match s.producer
    case Allocating(items, blocks) => n + |blocks| < BlocksFor(Tail(s) + |items|)
    case KeyStored(items, blocks, _) => n + |blocks| < BlocksFor(Tail(s) + |items|)
    case TailStored(items, blocks, _) => n + |blocks| < BlocksFor(Tail(s) + |items|)
    case Obtained(items, blocks, _, _) => n + |blocks| < BlocksFor(Tail(s) + |items|)
    case Built(items, blocks, _, _) => blocks == [] && |items| == 1 && n + 1 == BlocksFor(Tail(s) + |items|)
    case Linking(items, blocks) => 0 < |blocks| && n + |blocks| <= BlocksFor(Tail(s) + |items|)
    case Writing(items, blocks, written) => n + |blocks| == BlocksFor(Tail(s) + |items|) && written <= |items|
    case _ => true
  }

  /** The producer may use its tail block only while an element can still go into it. */
  predicate TailBlockFits<T>(s: State<T>) {
    Tail(s) % BLOCK_SIZE != 0 ==>
      BlocksFor(Tail(s)) - 1 in s.index.live && s.tailBlock == Some(s.index.live[BlocksFor(Tail(s)) - 1])
  }

  /** The block a thread or the producer has in hand outside the index. */
  predicate ProducerHolds<T>(p: Producer<T>, b: BlockId) {
    match p
    case Obtained(_, _, _, block) => b == block
    case Built(_, _, _, block) => b == block
    case Undoing(blocks, undone) => undone <= |blocks| && b in blocks[..undone]
    case UndoRewinding(blocks, undone) => undone < |blocks| && b in blocks[..undone + 1]
    case Returning(blocks, returned) => returned <= |blocks| && b in blocks[returned..]
    case _ => false
  }

  predicate ConsumerHolds(c: Consumer, b: BlockId) {
    c.Releasing? && c.block == b
  }

  /** Every block in use is in the index or in exactly one hand. */
  ghost predicate BlocksAccounted<T>(s: State<T>) {
    && (forall i, j :: i in s.index.live && j in s.index.live && i != j ==> s.index.live[i] != s.index.live[j])
    && (forall j :: j in s.index.live ==> s.index.live[j] in s.inUse && !ProducerHolds(s.producer, s.index.live[j]))
    && (forall b: BlockId :: ProducerHolds(s.producer, b) ==> b in s.inUse)
    && (forall t :: t in s.consumers && s.consumers[t].Releasing? ==>
          var b := s.consumers[t].block;
          b in s.inUse && !ProducerHolds(s.producer, b) && forall j :: j in s.index.live ==> s.index.live[j] != b)
    && (forall t, u :: t in s.consumers && u in s.consumers && t != u ==>
          s.consumers[t].Releasing? && s.consumers[u].Releasing? ==> s.consumers[t].block != s.consumers[u].block)
    && (s.producer.Returning? ==> s.producer.returned <= |s.producer.blocks|)
    && DistinctBlocks(s.producer)
  }

  /** Every block in use is somewhere: in the index, with the producer or with a consumer. */
  ghost predicate NothingLeaked<T>(s: State<T>) {
    forall b: BlockId :: b in s.inUse ==> Whereabouts(s, b)
  }

  ghost predicate Whereabouts<T>(s: State<T>, b: BlockId) {
    || (exists j :: j in s.index.live && s.index.live[j] == b)
    || ProducerHolds(s.producer, b)
    || (exists t :: t in s.consumers && ConsumerHolds(s.consumers[t], b))
  }

  predicate DistinctBlocks<T>(p: Producer<T>) {
    p.Resting? || forall i, k :: 0 <= i < k < |p.blocks| ==> p.blocks[i] != p.blocks[k]
  }

  /** Only delivered elements are finished, and a published element that is not finished keeps
      its block in the index. */
  ghost predicate FinishedFit<T>(s: State<T>) {
    && (forall i :: i in s.finished ==> i < Head(s) && i in s.delivered)
    && (forall i: nat :: i < Tail(s) && i !in s.finished ==> BlockOf(i) in s.index.live)
  }

  /** The emptied counter of block j is the number of its finished elements. */
  ghost predicate CounterAt<T>(s: State<T>, j: nat)
    requires j in s.index.live
  {
    s.index.live[j] in s.emptied && s.emptied[s.index.live[j]] == |s.finished * Span(j)|
  }

  ghost predicate CountersFit<T>(s: State<T>) {
    && (forall j :: j in s.index.live ==> CounterAt(s, j))
    && (s.producer.Obtained? || s.producer.Built? ==> s.producer.block in s.emptied && s.emptied[s.producer.block] == 0)
  }

  /** The elements already in cells: the published ones and those the producer has written. */
  function Stored<T>(s: State<T>): seq<T> {
    if s.producer.Writing? && s.producer.written <= |s.producer.items|
    then s.elements + s.producer.items[..s.producer.written] else s.elements
  }

  /** Cells hold what was enqueued until it is taken, and what was taken is what was enqueued. */
  ghost predicate CellsFit<T>(s: State<T>) {
    && |s.elements| == Tail(s)
    && (forall i :: i in s.delivered ==> i < Head(s) && i < Tail(s) && s.delivered[i] == s.elements[i])
    && (forall i: nat :: i < |Stored(s)| && i !in s.delivered ==> CellHolds(s, i, Stored(s)[i]))
  }

  ghost predicate CellHolds<T>(s: State<T>, i: nat, x: T) {
    && BlockOf(i) in s.index.live
    && var c := (s.index.live[BlockOf(i)], CellOf(i)); c in s.cells && s.cells[c] == x
  }

  /** Thread t has won indices lo..hi and has not delivered them. */
  predicate Owes<T>(s: State<T>, t: Tid, lo: nat, hi: nat) {
    lo <= hi <= |s.claims.claims|
    && forall i :: lo <= i < hi ==> s.claims.claims[i] == t && i !in s.delivered
  }

  /** Header h reaches every block that still holds an element before end. */
  predicate HeaderReaches<T>(s: State<T>, h: nat, end: nat)
    requires Shaped(s.index)
  {
    h < |s.index.headers| && end > 0 && BlockOf(end - 1) < Until(s.index, h)
  }

  predicate ConsumerFits<T>(s: State<T>, t: Tid)
    requires Shaped(s.index) && t in s.consumers
  {
    match s.consumers[t]
    case Outside => true
    case Located(next, end) => next < end && Owes(s, t, next, end)
    case HeaderLoaded(next, end, h) => next < end && Owes(s, t, next, end) && HeaderReaches(s, h, end)
    case SlotLoaded(next, end, h, tail, seen) =>
      && next < end && Owes(s, t, next, end) && HeaderReaches(s, h, end)
      && BlockOf(end - 1) < seen <= Until(s.index, h) && tail == SlotOf(s.index, h, seen - 1)
    case AtBlock(next, end, h, slot) =>
      && next < end && Owes(s, t, next, end) && HeaderReaches(s, h, end)
      && slot == SlotOf(s.index, h, BlockOf(next))
    case Taking(start, next, end, h, slot, block) =>
      && start < end && start <= next <= Stop(start, end) && Owes(s, t, next, end) && HeaderReaches(s, h, end)
      && slot == SlotOf(s.index, h, BlockOf(start))
      && BlockOf(start) in s.index.live && s.index.live[BlockOf(start)] == block
      && (forall i :: start <= i < next ==>
            i < |s.claims.claims| && s.claims.claims[i] == t && i in s.delivered && i !in s.finished)
    case Clearing(next, end, h, slot, block, number) =>
      && next <= end && Owes(s, t, next, end) && HeaderReaches(s, h, end)
      && slot == SlotOf(s.index, h, number) && number in s.index.live && s.index.live[number] == block
      && Span(number) <= s.finished && (next < end ==> next == (number + 1) * BLOCK_SIZE)
      && number < Until(s.index, h)
    case Releasing(next, end, h, slot, block) =>
      && next <= end && Owes(s, t, next, end) && HeaderReaches(s, h, end)
      && (next < end ==>
            next % BLOCK_SIZE == 0 && next > 0 && slot == SlotOf(s.index, h, BlockOf(next) - 1))
  }

  predicate ConsumersFit<T>(s: State<T>) {
    && Shaped(s.index)
    && forall t :: t in s.consumers ==> ConsumerFits(s, t)
  }

  /** Index i is still on this consumer's hands. */
  predicate OnHand(c: Consumer, i: nat) {
    match c
    case Outside => false
    case Taking(start, _, end, _, _, _) => start <= i < end
    case _ => c.next <= i < c.end
  }

  /** An index that was won and is not finished is on its winner's hands, and a block all of whose
      elements are finished is being cleared by exactly one thread. */
  ghost predicate NothingDropped<T>(s: State<T>) {
    && s.consumers.Keys == s.claims.threads.Keys
    && (forall t :: t in s.consumers && !s.consumers[t].Outside? ==> s.claims.threads[t].Idle?)
    && (forall i: nat :: i < Head(s) && i !in s.finished ==>
          i < |s.claims.claims| && s.claims.claims[i] in s.consumers
          && OnHand(s.consumers[s.claims.claims[i]], i))
    && (forall j :: j in s.index.live && Span(j) <= s.finished ==>
          exists t :: t in s.consumers && ClearsBlock(s.consumers[t], j))
    && (forall t, u :: t in s.consumers && u in s.consumers && t != u ==>
          s.consumers[t].Clearing? && s.consumers[u].Clearing? ==> s.consumers[t].number != s.consumers[u].number)
  }

  /** From the from-th on, each block's link leads to the next, and the last one's nowhere. */
  predicate Linked(next: map<BlockId, Option<BlockId>>, blocks: seq<BlockId>, from: nat) {
    forall k :: from <= k < |blocks| ==> LinkAt(next, blocks, k)
  }

  predicate LinkAt(next: map<BlockId, Option<BlockId>>, blocks: seq<BlockId>, k: nat)
    requires k < |blocks|
  {
    blocks[k] in next && next[blocks[k]] == At(blocks, k + 1)
  }

  /** A start block that still has room is linked to the first allocated block. */
  predicate StartLinked<T>(s: State<T>, blocks: seq<BlockId>) {
    Tail(s) % BLOCK_SIZE != 0 && blocks != [] ==>
      s.tailBlock.Some? && s.tailBlock.value in s.next && s.next[s.tailBlock.value] == Some(blocks[0])
  }

  /** The writing loop is in the block of the last index before its stop, which is the end of that
      block or of the batch. */
  predicate WalkFits<T>(s: State<T>, items: seq<T>, blocks: seq<BlockId>, written: nat) {
    var end, stop := Tail(s) + |items|, s.walk.stop;
    && Tail(s) + written <= stop <= end
    && if items == [] then s.walk.cursor == EndBlock(s.tailBlock, blocks)
       else
         && stop > Tail(s) && BlockOf(stop - 1) * BLOCK_SIZE <= Tail(s) + written
         && s.walk.cursor == WriteBlock(s, blocks, stop - 1) && (stop < end ==> stop % BLOCK_SIZE == 0)
  }

  /** The links say what the producer believes: its blocks form a chain, and its walk is where it
      should be on it. */
  ghost predicate ChainFits<T>(s: State<T>) {
    match s.producer
    case Resting => true
    case Obtained(_, blocks, _, b) => Linked(s.next, blocks, 0) && StartLinked(s, blocks) && Linked(s.next, [b], 0)
    case Built(items, _, _, b) =>
      && Linked(s.next, [b], 0) && |items| == 1
      && (b, CellOf(Tail(s))) in s.cells && s.cells[(b, CellOf(Tail(s)))] == items[0]
    case Linking(_, blocks) =>
      && |blocks| > 0
      && var prev := blocks[..|blocks| - 1];
         Linked(s.next, prev, 0) && StartLinked(s, prev) && Linked(s.next, [blocks[|blocks| - 1]], 0)
    case Writing(items, blocks, written) =>
      Linked(s.next, blocks, 0) && StartLinked(s, blocks) && WalkFits(s, items, blocks, written)
    case Rewound(blocks, _) => Linked(s.next, blocks, 0)
    case Undoing(blocks, undone) => Linked(s.next, blocks, 0) && s.walk.cursor == At(blocks, undone)
    case UndoRewinding(blocks, undone) => Linked(s.next, blocks, 0) && s.walk.cursor == At(blocks, undone)
    case Returning(blocks, returned) => Linked(s.next, blocks, returned) && s.walk.cursor == At(blocks, returned)
    case p => Linked(s.next, p.blocks, 0) && StartLinked(s, p.blocks)
  }

  predicate ClearsBlock(c: Consumer, j: nat) { c.Clearing? && c.number == j }

  ghost predicate Inv<T>(s: State<T>) {
    && D.Inv(s.claims) && BlockIndex.Inv(s.index)
    && InsertedFits(s) && EntryRemembered(s) && AllocationsFit(s) && BatchFits(s) && TailBlockFits(s)
    && BlocksAccounted(s) && NothingLeaked(s) && FinishedFit(s) && CountersFit(s) && CellsFit(s)
    && ConsumersFit(s) && NothingDropped(s) && ChainFits(s)
  }

  lemma InitInv<T>(threads: set<Tid>, garbage: Option<BlockId>)
    ensures Inv(Init<T>(threads, garbage))
  {
    D.InitInv(threads);
    BlockIndex.InitInv(garbage);
  }

  // ---------------------------------------------------------------------------
  // What one actor leaves alone
  // ---------------------------------------------------------------------------

  /** From s to s' only `actor` (a consumer, or the producer if None) has acted: the others' won
      indices, headers and blocks are as they left them. */
  ghost predicate Undisturbed<T>(s: State<T>, s': State<T>, actor: Option<Tid>) {
    && Shaped(s.index) && Shaped(s'.index) && Extends(s.index, s'.index)
    && s.claims.claims <= s'.claims.claims
    && s'.consumers.Keys == s.consumers.Keys && s.finished <= s'.finished
    && (forall u :: u in s.consumers && actor != Some(u) ==> s'.consumers[u] == s.consumers[u])
    && (forall i: nat :: i < |s.claims.claims| && actor != Some(s.claims.claims[i]) ==>
          (i in s'.delivered <==> i in s.delivered) && (i in s'.finished <==> i in s.finished))
    && (forall u :: u in s.consumers && actor != Some(u) ==> BlockKept(s, s', s.consumers[u]))
  }

  predicate BlockKept<T>(s: State<T>, s': State<T>, c: Consumer) {
    match c
    case Taking(start, _, _, _, _, _) => SameLive(s, s', BlockOf(start))
    case Clearing(_, _, _, _, _, number) => SameLive(s, s', number)
    case _ => true
  }

  predicate SameLive<T>(s: State<T>, s': State<T>, j: nat) {
    j in s.index.live ==> j in s'.index.live && s'.index.live[j] == s.index.live[j]
  }

  lemma SlotsKept(s: BlockIndex.State, s': BlockIndex.State, h: nat, j: int)
    requires Shaped(s) && Shaped(s') && Extends(s, s') && h < |s.headers|
    ensures SlotOf(s', h, j) == SlotOf(s, h, j) && h < |s'.headers| && Until(s, h) <= Until(s', h)
  {
  }

  lemma OtherFits<T>(s: State<T>, s': State<T>, actor: Option<Tid>, u: Tid)
    requires Undisturbed(s, s', actor) && u in s.consumers && actor != Some(u)
    requires ConsumerFits(s, u)
    ensures ConsumerFits(s', u)
  {
    hide Span, BlockOf, Extends, SlotOf, Until;
    var c := s.consumers[u];
    assert BlockKept(s, s', c);
    if !c.Outside? && !c.Located? {
      SlotsKept(s.index, s'.index, c.header, 0);
      forall j: int ensures SlotOf(s'.index, c.header, j) == SlotOf(s.index, c.header, j) {
        SlotsKept(s.index, s'.index, c.header, j);
      }
    }
  }

  lemma OthersFit<T>(s: State<T>, s': State<T>, actor: Option<Tid>)
    requires ConsumersFit(s) && Undisturbed(s, s', actor)
    requires forall t :: actor == Some(t) && t in s'.consumers ==> ConsumerFits(s', t)
    ensures ConsumersFit(s')
  {
    forall u | u in s'.consumers ensures ConsumerFits(s', u) {
      if actor != Some(u) { OtherFits(s, s', actor, u); }
    }
  }

  /** A consumer in the middle of a block has an unfinished element in it. */
  lemma StartUnfinished<T>(s: State<T>, t: Tid)
    requires ConsumersFit(s) && FinishedFit(s) && t in s.consumers && s.consumers[t].Taking?
    ensures s.consumers[t].start !in s.finished && s.consumers[t].start < |s.claims.claims|
  {
    assert ConsumerFits(s, t);
  }

  /** Blocks consumers work on hold published elements. */
  lemma BlocksInUseArePublished<T>(s: State<T>, t: Tid)
    requires Inv(s) && t in s.consumers
    ensures s.consumers[t].Taking? ==> BlockOf(s.consumers[t].start) < BlocksFor(Tail(s))
    ensures s.consumers[t].Clearing? ==> s.consumers[t].number < BlocksFor(Tail(s))
  {
    assert ConsumerFits(s, t);
    D.ClaimFits(s.claims);
    if s.consumers[t].Taking? {
      StartUnfinished(s, t);
    } else if s.consumers[t].Clearing? {
      assert s.consumers[t].number * BLOCK_SIZE in Span(s.consumers[t].number);
    }
  }

  /** An unfinished published element is not yet counted in its block. */
  lemma UnfinishedMeansNotFull(finished: set<nat>, i: nat)
    requires i !in finished
    ensures !(Span(BlockOf(i)) <= finished)
  {
    assert i in Span(BlockOf(i));
  }

  // ---------------------------------------------------------------------------
  // Producer steps
  // ---------------------------------------------------------------------------

  lemma ProducerDisturbsNobody<T>(s: State<T>, s': State<T>)
    requires Shaped(s.index) && Shaped(s'.index) && Extends(s.index, s'.index)
    requires forall j :: j in s.index.live ==> SameLive(s, s', j)
    requires s'.claims.claims == s.claims.claims && s'.consumers == s.consumers
    requires s'.delivered == s.delivered && s'.finished == s.finished
    ensures Undisturbed(s, s', None)
  {
  }

  lemma TailCarriesOver<T>(s: State<T>, s': State<T>)
    requires TailBlockFits(s) && s'.claims == s.claims && s'.tailBlock == s.tailBlock
    requires forall j :: j in s.index.live ==> SameLive(s, s', j)
    ensures TailBlockFits(s')
  {
  }

  lemma AccountsCarryOver<T>(s: State<T>, s': State<T>)
    requires BlocksAccounted(s)
    requires s'.index.live == s.index.live && s'.inUse == s.inUse && s'.consumers == s.consumers
    requires forall b: BlockId :: ProducerHolds(s'.producer, b) <==> ProducerHolds(s.producer, b)
    requires DistinctBlocks(s'.producer)
    requires s'.producer.Returning? ==> s'.producer.returned <= |s'.producer.blocks|
    ensures BlocksAccounted(s')
  {
  }

  lemma FinishedStays<T>(s: State<T>, s': State<T>)
    requires FinishedFit(s) && s'.finished == s.finished && Tail(s') == Tail(s) && Head(s) <= Head(s')
    requires s.delivered.Keys <= s'.delivered.Keys
    requires forall i: nat :: i < Tail(s) && i !in s.finished ==> SameLive(s, s', BlockOf(i))
    ensures FinishedFit(s')
  {
    hide BlockOf;
  }

  lemma WhereaboutsKept<T>(s: State<T>, s': State<T>, b: BlockId)
    requires Whereabouts(s, b)
    requires forall j :: j in s.index.live && s.index.live[j] == b ==> j in s'.index.live && s'.index.live[j] == b
    requires ProducerHolds(s.producer, b) ==> ProducerHolds(s'.producer, b)
    requires forall t :: t in s.consumers && ConsumerHolds(s.consumers[t], b) ==>
               t in s'.consumers && ConsumerHolds(s'.consumers[t], b)
    ensures Whereabouts(s', b)
  {
  }

  lemma LeaksCarryOver<T>(s: State<T>, s': State<T>)
    requires NothingLeaked(s) && s'.inUse == s.inUse
    requires forall j :: j in s.index.live ==> SameLive(s, s', j)
    requires forall b: BlockId :: ProducerHolds(s.producer, b) ==> ProducerHolds(s'.producer, b)
    requires s'.consumers.Keys == s.consumers.Keys
    requires forall t :: t in s.consumers ==> s'.consumers[t] == s.consumers[t] || !s.consumers[t].Releasing?
    ensures NothingLeaked(s')
  {
    forall b: BlockId | b in s'.inUse ensures Whereabouts(s', b) {
      WhereaboutsKept(s, s', b);
    }
  }

  lemma CountersStay<T>(s: State<T>, s': State<T>)
    requires CountersFit(s) && s'.emptied == s.emptied && s'.finished == s.finished
    requires forall j :: j in s'.index.live ==> j in s.index.live && s'.index.live[j] == s.index.live[j]
    requires s'.producer.Obtained? || s'.producer.Built? ==> s'.producer == s.producer
    ensures CountersFit(s')
  {
    hide Span;
    forall j | j in s'.index.live ensures CounterAt(s', j) {
      assert CounterAt(s, j);
    }
  }

  lemma CellsStay<T>(s: State<T>, s': State<T>)
    requires CellsFit(s) && s'.cells == s.cells && s'.delivered == s.delivered && Stored(s') == Stored(s)
    requires s'.elements == s.elements && Tail(s') == Tail(s) && Head(s) <= Head(s')
    requires forall i: nat :: i < |Stored(s)| && i !in s.delivered ==> SameLive(s, s', BlockOf(i))
    ensures CellsFit(s')
  {
    hide BlockOf, CellOf, Stored;
    forall i: nat | i < |Stored(s')| && i !in s'.delivered ensures CellHolds(s', i, Stored(s')[i]) {
      assert CellHolds(s, i, Stored(s)[i]) && SameLive(s, s', BlockOf(i));
    }
  }

  lemma DropsStay<T>(s: State<T>, s': State<T>)
    requires NothingDropped(s) && s'.index.live.Keys <= s.index.live.Keys
    requires s'.claims.threads == s.claims.threads && s'.claims.claims == s.claims.claims && Head(s') == Head(s)
    requires s'.consumers == s.consumers && s'.finished == s.finished
    ensures NothingDropped(s')
  {
    hide Span;
  }

  /** Steps of the producer that change the index but no live block, and hold no new block. */
  lemma IndexStepKeepsInv<T>(s: State<T>, s': State<T>)
    requires Inv(s)
    requires s' == s.(index := s'.index, producer := s'.producer, next := s'.next, walk := s'.walk)
    requires BlockIndex.Inv(s'.index) && Extends(s.index, s'.index) && s'.index.live == s.index.live
    requires InsertedFits(s') && EntryRemembered(s') && AllocationsFit(s') && BatchFits(s') && ChainFits(s')
    requires forall b: BlockId :: ProducerHolds(s'.producer, b) <==> ProducerHolds(s.producer, b)
    requires DistinctBlocks(s'.producer)
    requires s'.producer.Returning? ==> s'.producer.returned <= |s'.producer.blocks|
    requires !s'.producer.Obtained? && !s'.producer.Built? && !s.producer.Writing?
    requires s'.producer.Writing? ==> s'.producer.written == 0
    ensures Inv(s')
  {
    hide D.Inv, BlockIndex.Inv, InsertedFits, EntryRemembered, AllocationsFit, BatchFits, TailBlockFits, BlockOf,
         BlocksAccounted, NothingLeaked, FinishedFit, CountersFit, CellsFit, ConsumersFit, NothingDropped, ChainFits, BlocksFor;
    InvPlacesNext(s.index);
    InvPlacesNext(s'.index);
    ProducerDisturbsNobody(s, s');
    OthersFit(s, s', None);
    AccountsCarryOver(s, s');
    LeaksCarryOver(s, s');
    FinishedStays(s, s');
    CountersStay(s, s');
    CellsStay(s, s');
    DropsStay(s, s');
    TailCarriesOver(s, s');
  }

  lemma BlocksForMonotone(m: nat, n: nat)
    requires m <= n
    ensures BlocksFor(m) <= BlocksFor(n)
    ensures n > m ==> BlockOf(n - 1) < BlocksFor(n)
  {
  }

  // The chain of allocated blocks

  /** The writing loop begins in the right block and stops at the right index. */
  lemma WalkBegins<T>(s: State<T>, items: seq<T>, blocks: seq<BlockId>, written: nat)
    requires TailBlockFits(s) && BlocksFor(Tail(s)) + |blocks| == BlocksFor(Tail(s) + |items|)
    requires s.walk == StartWalk(s, items, blocks) && Tail(s) + written <= s.walk.stop
    ensures WalkFits(s, items, blocks, written)
  {
  }

  /** Mid-allocation states keep the chain while the links stay. */
  lemma AllocationChain<T>(s: State<T>, s': State<T>, blocks: seq<BlockId>)
    requires ChainFits(s) && (s.producer.Allocating? || s.producer.KeyStored? || s.producer.TailStored?)
    requires s.producer.blocks == blocks && !s'.producer.Resting? && s'.producer.blocks == blocks
    requires s'.claims == s.claims && s'.next == s.next && s'.tailBlock == s.tailBlock
    requires
      || s'.producer.Allocating? || s'.producer.KeyStored? || s'.producer.TailStored? || s'.producer.Rewound?
      || (s'.producer.Undoing? && s'.producer.undone == 0 && s'.walk.cursor == At(blocks, 0))
    ensures ChainFits(s')
  {
  }

  /** So do the states that take blocks back, as long as the walk is at the right block. */
  lemma UndoChain<T>(s: State<T>, s': State<T>, blocks: seq<BlockId>)
    requires ChainFits(s) && (s.producer.Rewound? || s.producer.Undoing? || s.producer.UndoRewinding?)
    requires s.producer.blocks == blocks && !s'.producer.Resting? && s'.producer.blocks == blocks && s'.next == s.next
    requires
      || (s'.producer.Undoing? && s'.walk.cursor == At(blocks, s'.producer.undone))
      || (s'.producer.UndoRewinding? && s'.walk.cursor == At(blocks, s'.producer.undone))
      || (s'.producer.Returning? && s'.producer.returned == 0 && s'.walk.cursor == At(blocks, 0))
    ensures ChainFits(s')
  {
  }

  /** Following the link of the block an undo loop is at leads to the next block of the batch, and
      after the last one nowhere: the loop ends exactly when all are done. */
  lemma UndoFollowsChain<T>(s: State<T>)
    requires ChainFits(s) && (s.producer.Undoing? || s.producer.UndoRewinding? || s.producer.Returning?)
    ensures var k := if s.producer.Returning? then s.producer.returned else s.producer.undone;
            && (s.walk.cursor.Some? <==> k < |s.producer.blocks|)
            && (k < |s.producer.blocks| ==>
                  HasNext(s) && s.walk.cursor == Some(s.producer.blocks[k])
                  && s.next[s.walk.cursor.value] == At(s.producer.blocks, k + 1))
  {
    var k := if s.producer.Returning? then s.producer.returned else s.producer.undone;
    assert k < |s.producer.blocks| ==> LinkAt(s.next, s.producer.blocks, k);
  }

  /** The blocks a batch still needs links of are in use. */
  lemma ChainInUse<T>(s: State<T>, b: BlockId)
    requires InsertedFits(s) && AllocationsFit(s) && TailBlockFits(s) && BlocksAccounted(s) && b !in s.inUse
    ensures Tail(s) % BLOCK_SIZE != 0 ==> s.tailBlock != Some(b)
    ensures !s.producer.Resting? ==>
              forall k: nat :: (if s.producer.Returning? then s.producer.returned else 0) <= k < |s.producer.blocks| ==>
                s.producer.blocks[k] != b
    ensures s.producer.Obtained? || s.producer.Built? ==> s.producer.block != b
  {
    hide BlocksFor;
    if s.producer.Obtained? || s.producer.Built? { assert ProducerHolds(s.producer, s.producer.block); }
    if !s.producer.Resting? {
      forall k: nat | (if s.producer.Returning? then s.producer.returned else 0) <= k < |s.producer.blocks|
        ensures s.producer.blocks[k] in s.inUse
      {
        BlockInUse(s, k);
      }
    }
  }

  lemma BlockInUse<T>(s: State<T>, k: nat)
    requires InsertedFits(s) && AllocationsFit(s) && BlocksAccounted(s) && !s.producer.Resting?
    requires (if s.producer.Returning? then s.producer.returned else 0) <= k < |s.producer.blocks|
    ensures s.producer.blocks[k] in s.inUse
  {
    hide BlocksFor;
    var b := s.producer.blocks[k];
    if s.producer.Returning? {
      assert s.producer.blocks[s.producer.returned..][k - s.producer.returned] == b;
      assert ProducerHolds(s.producer, b);
    } else if k < Undone(s.producer) {
      assert s.producer.blocks[..Undone(s.producer)][k] == b;
      assert ProducerHolds(s.producer, b);
    } else {
      assert AllocationAt(s, k);
    }
  }

  /** Changing another block's link keeps a chain. */
  lemma LinkedKept(next: map<BlockId, Option<BlockId>>, blocks: seq<BlockId>, from: nat, b: BlockId, x: Option<BlockId>)
    requires Linked(next, blocks, from) && forall k :: from <= k < |blocks| ==> blocks[k] != b
    ensures Linked(next[b := x], blocks, from)
  {
    forall k {:trigger blocks[k]} | from <= k < |blocks| ensures LinkAt(next[b := x], blocks, k) {
      assert LinkAt(next, blocks, k);
    }
  }

  /** Whatever happens to blocks that are not in use, the chain stays. */
  lemma ChainElsewhere<T>(s: State<T>, s': State<T>, b: BlockId, x: Option<BlockId>)
    requires ChainFits(s) && InsertedFits(s) && AllocationsFit(s) && TailBlockFits(s) && BlocksAccounted(s) && b !in s.inUse
    requires s'.next == s.next[b := x] && s'.producer == s.producer && s'.walk == s.walk && s'.tailBlock == s.tailBlock
    requires s'.claims == s.claims && forall c, i :: (c, i) in s.cells && c != b ==> (c, i) in s'.cells && s'.cells[(c, i)] == s.cells[(c, i)]
    ensures ChainFits(s')
  {
    hide InsertedFits, AllocationsFit, TailBlockFits, BlocksAccounted, Linked, BlocksFor, BlockOf, CellOf;
    ChainInUse(s, b);
    match s.producer
    case Resting =>
    case Returning(blocks, returned) => LinkedKept(s.next, blocks, returned, b, x);
    case Linking(_, blocks) =>
      var n := |blocks| - 1;
      LinkedKept(s.next, blocks[..n], 0, b, x);
      LinkedKept(s.next, [blocks[n]], 0, b, x);
    case Obtained(_, blocks, _, new_) =>
      LinkedKept(s.next, blocks, 0, b, x);
      LinkedKept(s.next, [new_], 0, b, x);
    case Built(_, _, _, new_) => LinkedKept(s.next, [new_], 0, b, x);
    case p => LinkedKept(s.next, p.blocks, 0, b, x);
  }

  /** A step of somebody else leaves the producer's side of the chain alone. */
  lemma ChainUntouched<T>(s: State<T>, s': State<T>)
    requires ChainFits(s) && s'.next == s.next && s'.producer == s.producer && s'.walk == s.walk
    requires s'.tailBlock == s.tailBlock && s'.claims.tail == s.claims.tail && s'.cells == s.cells
    ensures ChainFits(s')
  {
  }

  lemma StopBehind(start: nat, end: nat)
    requires start <= end
    ensures start <= Stop(start, end) <= end
  {
  }

  lemma EnqueueFacts<T>(s: State<T>, s': State<T>, items: seq<T>)
    requires BlockIndex.Inv(s.index) && InsertedFits(s) && AllocationsFit(s) && TailBlockFits(s) && s.producer.Resting?
    requires s' == s.(producer := StartOrWrite(s, items, []), walk := StartWalk(s, items, []))
    ensures InsertedFits(s') && EntryRemembered(s') && AllocationsFit(s') && BatchFits(s') && ChainFits(s')
  {
    hide BlockIndex.Inv, BlocksFor, WalkFits, TailBlockFits;
    BlocksForMonotone(Tail(s), Tail(s) + |items|);
    InvPlacesNext(s.index);
    assert TailBlockFits(s') by { TailCarriesOver(s, s'); }
    StopBehind(Tail(s), Tail(s) + |items|);
    if s'.producer.Writing? { WalkBegins(s', items, [], 0); }
  }

  lemma EnqueueKeepsInv<T>(s: State<T>, items: seq<T>)
    requires Inv(s) && s.producer.Resting?
    ensures Inv(Apply(s, Enqueue(items)))
  {
    hide D.Inv, BlockIndex.Inv, InsertedFits, EntryRemembered, AllocationsFit, BatchFits, TailBlockFits,
         BlocksAccounted, NothingLeaked, FinishedFit, CountersFit, CellsFit, ConsumersFit, NothingDropped, ChainFits, BlocksFor;
    var s' := Apply(s, Enqueue(items));
    InvPlacesNext(s.index);
    EnqueueFacts(s, s', items);
    IndexStepKeepsInv(s, s');
  }

  lemma AllocationsCarryOver<T>(s: State<T>, s': State<T>)
    requires AllocationsFit(s) && s'.claims == s.claims && s'.index.live == s.index.live
    requires Allocated(s'.producer) == Allocated(s.producer) && Undone(s'.producer) == Undone(s.producer)
    requires s'.index.low <= BlocksFor(Tail(s))
    ensures AllocationsFit(s')
  {
    forall k: nat | k < |Allocated(s'.producer)| ensures AllocationAt(s', k) {
      assert AllocationAt(s, k);
    }
  }

  lemma FirstAllocatedIsLive<T>(s: State<T>, blocks: seq<BlockId>)
    requires AllocationsFit(s) && Allocated(s.producer) == blocks && Undone(s.producer) == 0
    ensures |blocks| > 0 ==> BlocksFor(Tail(s)) in s.index.live
  {
    if |blocks| > 0 { assert AllocationAt(s, 0); }
  }

  lemma StoreKeyFacts<T>(s: State<T>, blocks: seq<BlockId>)
    requires BlockIndex.Inv(s.index) && InsertedFits(s) && AllocationsFit(s)
    requires s.producer.Allocating? && s.producer.blocks == blocks && HasRoom(s.index)
    ensures s.index.inserted == BlocksFor(Tail(s)) + |blocks|
    ensures NextEntry(s.index) == EntryOf(s.index, s.index.inserted)
    ensures var x := StoreKey(s.index, s.index.inserted * BLOCK_SIZE);
            BlockIndex.Inv(x) && Extends(s.index, x) && x.low <= BlocksFor(Tail(s))
            && EntryOf(x, s.index.inserted) == EntryOf(s.index, s.index.inserted)
            && x.live == s.index.live && x.inserted == s.index.inserted && x.pending == Some(s.index.inserted)
  {
    hide SlotOf, NextSlot;
    InvPlacesNext(s.index);
    FirstAllocatedIsLive(s, blocks);
    StoreKeyKeepsInv(s.index);
  }

  lemma StoreKeyStep<T>(s: State<T>, s': State<T>, items: seq<T>, blocks: seq<BlockId>)
    requires Inv(s) && s.producer == Allocating(items, blocks) && HasRoom(s.index)
    requires s' == s.(index := StoreKey(s.index, s.index.inserted * BLOCK_SIZE),
                      producer := KeyStored(items, blocks, NextEntry(s.index)))
    ensures Inv(s')
  {
    assert DistinctBlocks(s.producer);
    hide D.Inv, BlockIndex.Inv, BlocksAccounted, NothingLeaked, FinishedFit, CountersFit, CellsFit, ConsumersFit,
         NothingDropped, ChainFits, TailBlockFits, AllocationsFit, BlocksFor;
    hide StoreKey, SlotOf, NextSlot, EntryOf, NextEntry, Extends;
    StoreKeyFacts(s, blocks);
    AllocationsCarryOver(s, s');
    AllocationChain(s, s', blocks);
    IndexStepKeepsInv(s, s');
  }

  lemma GrowFacts<T>(s: State<T>, s': State<T>, garbage: Option<BlockId>)
    requires BlockIndex.Inv(s.index) && InsertedFits(s) && AllocationsFit(s) && BatchFits(s)
    requires s.producer.Allocating? && !HasRoom(s.index) && s' == s.(index := Grow(s.index, garbage))
    ensures BlockIndex.Inv(s'.index) && Extends(s.index, s'.index) && s'.index.low == s.index.low && HasRoom(s'.index)
    ensures s'.index.live == s.index.live && InsertedFits(s') && EntryRemembered(s') && BatchFits(s')
  {
    hide BlocksFor, BlockIndex.Inv, HasRoom, Extends;
    InvPlacesNext(s.index);
    NoRoomMeansFull(s.index);
    GrowKeepsInv(s.index, garbage);
    InvPlacesNext(s'.index);
  }

  lemma GrowStep<T>(s: State<T>, s': State<T>, garbage: Option<BlockId>)
    requires Inv(s) && s.producer.Allocating? && !HasRoom(s.index)
    requires s' == s.(index := Grow(s.index, garbage))
    ensures Inv(s') && HasRoom(s'.index)
  {
    hide D.Inv, BlockIndex.Inv, InsertedFits, EntryRemembered, AllocationsFit, BatchFits, TailBlockFits,
         BlocksAccounted, NothingLeaked, FinishedFit, CountersFit, CellsFit, ConsumersFit, NothingDropped, ChainFits,
         BlocksFor;
    GrowFacts(s, s', garbage);
    LowIsPublished(s);
    LiveBlocksDiffer(s);
    AllocationsCarryOver(s, s');
    AllocationChain(s, s', s.producer.blocks);
    IndexStepKeepsInv(s, s');
  }

  lemma StoreTailFacts<T>(s: State<T>, s': State<T>, items: seq<T>, blocks: seq<BlockId>, entry: EntryId)
    requires BlockIndex.Inv(s.index) && InsertedFits(s) && EntryRemembered(s) && AllocationsFit(s) && BatchFits(s)
    requires s.producer == KeyStored(items, blocks, entry)
    requires s' == s.(index := StoreTail(s.index), producer := TailStored(items, blocks, entry))
    ensures BlockIndex.Inv(s'.index) && Extends(s.index, s'.index) && s'.index.low == s.index.low
    ensures s'.index.live == s.index.live && InsertedFits(s') && EntryRemembered(s') && BatchFits(s')
  {
    hide BlocksFor, SlotOf;
    StoreTailKeepsInv(s.index);
    assert EntryOf(s'.index, s.index.inserted) == EntryOf(s.index, s.index.inserted);
  }

  lemma StoreTailStep<T>(s: State<T>, s': State<T>, items: seq<T>, blocks: seq<BlockId>, entry: EntryId)
    requires Inv(s) && s.producer == KeyStored(items, blocks, entry)
    requires s' == s.(index := StoreTail(s.index), producer := TailStored(items, blocks, entry))
    ensures Inv(s')
  {
    hide D.Inv, BlockIndex.Inv, InsertedFits, EntryRemembered, AllocationsFit, BatchFits, TailBlockFits,
         BlocksAccounted, NothingLeaked, FinishedFit, CountersFit, CellsFit, ConsumersFit, NothingDropped, ChainFits,
         BlocksFor;
    StoreTailFacts(s, s', items, blocks, entry);
    LowIsPublished(s);
    LiveBlocksDiffer(s);
    AllocationsCarryOver(s, s');
    AllocationChain(s, s', blocks);
    IndexStepKeepsInv(s, s');
  }

  lemma RewindFacts<T>(s: State<T>, s': State<T>, items: seq<T>, blocks: seq<BlockId>, entry: EntryId)
    requires BlockIndex.Inv(s.index) && InsertedFits(s) && EntryRemembered(s) && AllocationsFit(s)
    requires s.producer == TailStored(items, blocks, entry) && s.index.inserted > 0
    requires s' == s.(index := Rewind(s.index), producer := Rewound(blocks, entry))
    ensures BlockIndex.Inv(s'.index) && Extends(s.index, s'.index) && s'.index.low == s.index.low
    ensures InsertedFits(s') && EntryRemembered(s') && BatchFits(s')
  {
    hide BlocksFor, SlotOf;
    RewindKeepsInv(s.index);
  }

  lemma RewindStep<T>(s: State<T>, s': State<T>, items: seq<T>, blocks: seq<BlockId>, entry: EntryId)
    requires Inv(s) && s.producer == TailStored(items, blocks, entry)
    requires s' == s.(index := Rewind(s.index), producer := Rewound(blocks, entry))
    ensures Inv(s')
  {
    hide D.Inv, BlockIndex.Inv, InsertedFits, EntryRemembered, AllocationsFit, BatchFits, TailBlockFits,
         BlocksAccounted, NothingLeaked, FinishedFit, CountersFit, CellsFit, ConsumersFit, NothingDropped, ChainFits, BlocksFor;
    RewindFacts(s, s', items, blocks, entry);
    LowIsPublished(s);
    LiveBlocksDiffer(s);
    AllocationsCarryOver(s, s');
    AllocationChain(s, s', blocks);
    IndexStepKeepsInv(s, s');
  }

  lemma ClearPendingFacts<T>(s: State<T>, s': State<T>, blocks: seq<BlockId>, entry: EntryId)
    requires BlockIndex.Inv(s.index) && InsertedFits(s) && EntryRemembered(s) && AllocationsFit(s)
    requires s.producer == Rewound(blocks, entry) && entry < |s.index.entries|
    requires s' == s.(index := ClearPending(s.index, entry), producer := Undoing(blocks, 0),
                      walk := s.walk.(cursor := At(blocks, 0)))
    ensures BlockIndex.Inv(s'.index) && Extends(s.index, s'.index) && s'.index.low == s.index.low
    ensures s'.index.live == s.index.live && InsertedFits(s') && EntryRemembered(s') && BatchFits(s')
  {
    hide BlocksFor, SlotOf;
    ClearPendingKeepsInv(s.index);
  }

  lemma ClearPendingStep<T>(s: State<T>, s': State<T>, blocks: seq<BlockId>, entry: EntryId)
    requires Inv(s) && s.producer == Rewound(blocks, entry) && entry < |s.index.entries|
    requires s' == s.(index := ClearPending(s.index, entry), producer := Undoing(blocks, 0),
                      walk := s.walk.(cursor := At(blocks, 0)))
    ensures Inv(s')
  {
    hide D.Inv, BlockIndex.Inv, InsertedFits, EntryRemembered, AllocationsFit, BatchFits, TailBlockFits,
         BlocksAccounted, NothingLeaked, FinishedFit, CountersFit, CellsFit, ConsumersFit, NothingDropped, ChainFits,
         BlocksFor;
    ClearPendingFacts(s, s', blocks, entry);
    LowIsPublished(s);
    LiveBlocksDiffer(s);
    AllocationsCarryOver(s, s');
    UndoChain(s, s', blocks);
    IndexStepKeepsInv(s, s');
  }

  lemma GiveUpStep<T>(s: State<T>, s': State<T>, items: seq<T>, blocks: seq<BlockId>)
    requires Inv(s) && s.producer == Allocating(items, blocks)
    requires s' == s.(producer := Undoing(blocks, 0), walk := s.walk.(cursor := At(blocks, 0)))
    ensures Inv(s')
  {
    hide ChainFits;
    AllocationsCarryOver(s, s');
    AllocationChain(s, s', blocks);
    IndexStepKeepsInv(s, s');
  }

  lemma UndoingRange<T>(s: State<T>)
    requires InsertedFits(s)
    ensures s.producer.Undoing? ==> s.producer.undone <= |s.producer.blocks|
    ensures s.producer.UndoRewinding? ==> s.producer.undone < |s.producer.blocks|
  {
  }

  lemma UndoRewindFacts<T>(s: State<T>, s': State<T>, blocks: seq<BlockId>, undone: nat)
    requires BlockIndex.Inv(s.index) && InsertedFits(s) && AllocationsFit(s)
    requires s.producer == UndoRewinding(blocks, undone) && s.index.inserted > 0
    requires s' == s.(index := Rewind(s.index), producer := Undoing(blocks, undone + 1),
                      walk := s.walk.(cursor := At(blocks, undone + 1)))
    ensures BlockIndex.Inv(s'.index) && Extends(s.index, s'.index) && s'.index.low == s.index.low
    ensures s'.index.live == s.index.live && InsertedFits(s') && EntryRemembered(s') && BatchFits(s')
  {
    hide BlocksFor, SlotOf;
    RewindKeepsInv(s.index);
  }

  lemma UndoRewindStep<T>(s: State<T>, s': State<T>, blocks: seq<BlockId>, undone: nat)
    requires Inv(s) && s.producer == UndoRewinding(blocks, undone) && s.index.inserted > 0
    requires s' == s.(index := Rewind(s.index), producer := Undoing(blocks, undone + 1),
                      walk := s.walk.(cursor := At(blocks, undone + 1)))
    ensures Inv(s')
  {
    hide D.Inv, BlockIndex.Inv, InsertedFits, EntryRemembered, AllocationsFit, BatchFits, TailBlockFits,
         BlocksAccounted, NothingLeaked, FinishedFit, CountersFit, CellsFit, ConsumersFit, NothingDropped, ChainFits,
         BlocksFor;
    UndoRewindFacts(s, s', blocks, undone);
    UndoingRange(s);
    LowIsPublished(s);
    LiveBlocksDiffer(s);
    AllocationsCarryOver(s, s');
    UndoChain(s, s', blocks);
    IndexStepKeepsInv(s, s');
  }

  lemma TakenBack<T>(s: State<T>, blocks: seq<BlockId>, k: nat)
    requires AllocationsFit(s) && s.producer == Undoing(blocks, |blocks|) && k < |blocks|
    ensures BlocksFor(Tail(s)) + k !in s.index.live
  {
    assert AllocationAt(s, k);
  }

  lemma AllUndone<T>(s: State<T>, blocks: seq<BlockId>)
    requires AllocationsFit(s) && s.producer == Undoing(blocks, |blocks|)
    ensures forall j :: j in s.index.live ==> j < BlocksFor(Tail(s))
  {
    var n := BlocksFor(Tail(s));
    forall j | j in s.index.live ensures j < n {
      if j >= n { TakenBack(s, blocks, j - n); }
    }
  }

  lemma UndoneStep<T>(s: State<T>, s': State<T>, blocks: seq<BlockId>)
    requires Inv(s) && s.producer == Undoing(blocks, |blocks|)
    requires s' == s.(producer := Returning(blocks, 0), walk := s.walk.(cursor := At(blocks, 0)))
    ensures Inv(s')
  {
    AllUndone(s, blocks);
    assert blocks[..|blocks|] == blocks[0..];
    hide D.Inv, BlockIndex.Inv, BlocksAccounted, NothingLeaked, FinishedFit, CountersFit, CellsFit, ConsumersFit,
         NothingDropped, ChainFits, TailBlockFits, AllocationsFit, BlocksFor;
    UndoChain(s, s', blocks);
    IndexStepKeepsInv(s, s');
  }

  lemma ReturnedStep<T>(s: State<T>, s': State<T>, blocks: seq<BlockId>)
    requires Inv(s) && s.producer == Returning(blocks, |blocks|)
    requires s' == s.(producer := Resting)
    ensures Inv(s')
  {
    IndexStepKeepsInv(s, s');
  }

  lemma ObtainAccounts<T>(s: State<T>, s': State<T>, items: seq<T>, blocks: seq<BlockId>, entry: EntryId, b: BlockId)
    requires BlocksAccounted(s) && s.producer == TailStored(items, blocks, entry) && b !in s.inUse
    requires s'.producer == Obtained(items, blocks, entry, b) && s'.inUse == s.inUse + {b}
    requires s'.index == s.index && s'.consumers == s.consumers
    ensures BlocksAccounted(s')
  {
  }

  lemma ObtainLeaks<T>(s: State<T>, s': State<T>, items: seq<T>, blocks: seq<BlockId>, entry: EntryId, b: BlockId)
    requires NothingLeaked(s) && s.producer == TailStored(items, blocks, entry)
    requires s'.producer == Obtained(items, blocks, entry, b) && s'.inUse == s.inUse + {b}
    requires s'.index == s.index && s'.consumers == s.consumers
    ensures NothingLeaked(s')
  {
    forall c: BlockId | c in s'.inUse ensures Whereabouts(s', c) {
      if c != b { WhereaboutsKept(s, s', c); }
    }
  }

  lemma ObtainCounts<T>(s: State<T>, s': State<T>, b: BlockId)
    requires BlocksAccounted(s) && CountersFit(s) && b !in s.inUse
    requires s'.emptied == s.emptied[b := 0] && s'.producer.Obtained? && s'.producer.block == b
    requires s'.index == s.index && s'.finished == s.finished
    ensures CountersFit(s')
  {
    hide Span;
    forall j | j in s'.index.live ensures CounterAt(s', j) {
      assert CounterAt(s, j) && s.index.live[j] != b;
    }
  }

  lemma ObtainFacts<T>(s: State<T>, s': State<T>, items: seq<T>, blocks: seq<BlockId>, entry: EntryId, b: BlockId)
    requires Shaped(s.index) && InsertedFits(s) && EntryRemembered(s) && BatchFits(s)
    requires s.producer == TailStored(items, blocks, entry)
    requires s'.index == s.index && s'.claims == s.claims && s'.producer == Obtained(items, blocks, entry, b)
    ensures InsertedFits(s') && EntryRemembered(s') && BatchFits(s')
  {
    hide BlocksFor, EntryOf;
  }

  lemma ObtainChain<T>(s: State<T>, s': State<T>, items: seq<T>, blocks: seq<BlockId>, entry: EntryId, b: BlockId)
    requires ChainFits(s) && InsertedFits(s) && AllocationsFit(s) && TailBlockFits(s) && BlocksAccounted(s) && b !in s.inUse
    requires s.producer == TailStored(items, blocks, entry) && s'.producer == Obtained(items, blocks, entry, b)
    requires s'.next == s.next[b := None] && s'.tailBlock == s.tailBlock && s'.claims == s.claims
    ensures ChainFits(s')
  {
    hide InsertedFits, AllocationsFit, TailBlockFits, BlocksAccounted;
    ChainInUse(s, b);
    LinkedKept(s.next, blocks, 0, b, None);
  }

  lemma ObtainStep<T>(s: State<T>, s': State<T>, items: seq<T>, blocks: seq<BlockId>, entry: EntryId, b: BlockId)
    requires Inv(s) && s.producer == TailStored(items, blocks, entry) && b !in s.inUse
    requires s' == s.(emptied := s.emptied[b := 0], next := s.next[b := None], inUse := s.inUse + {b},
                      producer := Obtained(items, blocks, entry, b))
    ensures Inv(s')
  {
    hide D.Inv, BlockIndex.Inv, InsertedFits, EntryRemembered, AllocationsFit, BatchFits, TailBlockFits,
         BlocksAccounted, NothingLeaked, FinishedFit, CountersFit, CellsFit, ConsumersFit, NothingDropped, ChainFits, BlocksFor;
    InvPlacesNext(s.index);
    ObtainFacts(s, s', items, blocks, entry, b);
    ObtainChain(s, s', items, blocks, entry, b);
    ProducerDisturbsNobody(s, s');
    OthersFit(s, s', None);
    ObtainAccounts(s, s', items, blocks, entry, b);
    ObtainLeaks(s, s', items, blocks, entry, b);
    FinishedStays(s, s');
    ObtainCounts(s, s', b);
    CellsStay(s, s');
    DropsStay(s, s');
    TailCarriesOver(s, s');
    LowIsPublished(s);
    AllocationsCarryOver(s, s');
  }

  /** The producer has a new block that is not in the index yet. */
  ghost predicate HasBlock<T>(p: Producer<T>, items: seq<T>, blocks: seq<BlockId>, entry: EntryId, b: BlockId) {
    p == Obtained(items, blocks, entry, b) || p == Built(items, blocks, entry, b)
  }

  /** The new block is put into the index under the next number. */
  lemma StoreValueAllocates<T>(s: State<T>, s': State<T>, blocks: seq<BlockId>, b: BlockId)
    requires AllocationsFit(s) && Allocated(s.producer) == blocks && Undone(s.producer) == 0
    requires s'.claims == s.claims && s'.index.low == s.index.low
    requires s'.index.live == s.index.live[BlocksFor(Tail(s)) + |blocks| := b]
    requires Allocated(s'.producer) == blocks + [b] && Undone(s'.producer) == 0
    ensures AllocationsFit(s')
    ensures BlocksFor(Tail(s)) + |blocks| !in s.index.live
  {
    forall k: nat | k < |blocks| + 1 ensures AllocationAt(s', k) {
      if k < |blocks| { assert AllocationAt(s, k); }
    }
  }

  lemma StoreValueAccounts<T>(s: State<T>, s': State<T>, j: nat, items: seq<T>, blocks: seq<BlockId>, entry: EntryId,
                              b: BlockId)
    requires BlocksAccounted(s) && HasBlock(s.producer, items, blocks, entry, b) && j !in s.index.live
    requires AllocationsFit(s) && s'.index.live == s.index.live[j := b]
    requires s'.inUse == s.inUse && s'.consumers == s.consumers
    requires (s'.producer.Linking? || s'.producer.Writing?) && s'.producer.blocks == blocks + [b]
    ensures BlocksAccounted(s')
  {
    forall k: nat | k < |blocks| ensures blocks[k] != b {
      assert AllocationAt(s, k);
    }
  }

  lemma StoreValueLeaks<T>(s: State<T>, s': State<T>, j: nat, b: BlockId)
    requires NothingLeaked(s) && (s.producer.Obtained? || s.producer.Built?) && s.producer.block == b && j !in s.index.live
    requires s'.index.live == s.index.live[j := b] && s'.inUse == s.inUse && s'.consumers == s.consumers
    ensures NothingLeaked(s')
  {
    forall c: BlockId | c in s'.inUse ensures Whereabouts(s', c) {
      if c == b {
        assert j in s'.index.live && s'.index.live[j] == c;
      } else {
        WhereaboutsKept(s, s', c);
      }
    }
  }

  lemma BeyondTailUnfinished<T>(s: State<T>, j: nat)
    requires FinishedFit(s) && j >= BlocksFor(Tail(s)) && Head(s) <= Tail(s)
    ensures s.finished * Span(j) == {}
  {
  }

  lemma StoreValueCounts<T>(s: State<T>, s': State<T>, j: nat, b: BlockId)
    requires CountersFit(s) && (s.producer.Obtained? || s.producer.Built?) && s.producer.block == b && j !in s.index.live
    requires s.finished * Span(j) == {}
    requires s'.index.live == s.index.live[j := b] && !s'.producer.Obtained? && !s'.producer.Built?
    requires s'.finished == s.finished && s'.emptied == s.emptied
    ensures CountersFit(s')
  {
    hide Span;
    forall k | k in s'.index.live ensures CounterAt(s', k) {
      if k != j { assert CounterAt(s, k); }
    }
  }

  lemma StoreValueDrops<T>(s: State<T>, s': State<T>, j: nat, b: BlockId)
    requires NothingDropped(s) && j !in s.index.live && s.finished * Span(j) == {}
    requires s'.index.live == s.index.live[j := b]
    requires s'.claims == s.claims && s'.finished == s.finished && s'.consumers == s.consumers
    ensures NothingDropped(s')
  {
    assert j * BLOCK_SIZE in Span(j);
    assert j * BLOCK_SIZE !in s.finished * Span(j);
  }

  lemma StartFits<T>(s: State<T>, s': State<T>, items: seq<T>, blocks: seq<BlockId>)
    requires s'.claims == s.claims && s'.producer == StartOrWrite(s, items, blocks)
    requires BlocksFor(Tail(s)) + |blocks| <= BlocksFor(Tail(s) + |items|)
    requires s'.index.inserted == BlocksFor(Tail(s)) + |blocks| && s'.index.pending.None? && Shaped(s'.index)
    ensures InsertedFits(s') && BatchFits(s') && EntryRemembered(s')
  {
    hide BlocksFor, Shaped;
  }

  lemma StoreValueFacts<T>(s: State<T>, s': State<T>, items: seq<T>, blocks: seq<BlockId>, entry: EntryId, b: BlockId)
    requires BlockIndex.Inv(s.index) && InsertedFits(s) && EntryRemembered(s) && BatchFits(s)
    requires HasBlock(s.producer, items, blocks, entry, b) && entry < |s.index.entries|
    requires s'.index == StoreValue(s.index, entry, b) && s'.claims == s.claims
    requires if s.producer.Built? then s'.producer == Writing(items, blocks + [b], 1)
             else s'.producer == Linking(items, blocks + [b])
    ensures s'.index.live == s.index.live[BlocksFor(Tail(s)) + |blocks| := b] && s'.index.low == s.index.low
    ensures BlockIndex.Inv(s'.index) && Extends(s.index, s'.index)
    ensures InsertedFits(s') && BatchFits(s') && EntryRemembered(s')
  {
    hide SlotOf, Extends, BlocksFor, BlockIndex.Inv;
    InvPlacesNext(s.index);
    StoreValueKeepsInv(s.index, b);
    InvPlacesNext(s'.index);
  }

  /** What both ways of putting the new block into the index have in common. */
  lemma StoreValueRest<T>(s: State<T>, s': State<T>, items: seq<T>, blocks: seq<BlockId>, entry: EntryId, b: BlockId)
    requires Inv(s) && HasBlock(s.producer, items, blocks, entry, b) && entry < |s.index.entries|
    requires s' == s.(index := StoreValue(s.index, entry, b), producer := s'.producer, walk := s'.walk)
    requires if s.producer.Built? then s'.producer == Writing(items, blocks + [b], 1)
             else s'.producer == Linking(items, blocks + [b])
    requires CellsFit(s') && ChainFits(s')
    ensures Inv(s')
  {
    hide D.Inv, BlockIndex.Inv, InsertedFits, EntryRemembered, AllocationsFit, BatchFits, TailBlockFits,
         BlocksAccounted, NothingLeaked, FinishedFit, CountersFit, CellsFit, ConsumersFit, NothingDropped, ChainFits,
         StoreValue, BlocksFor;
    D.ClaimFits(s.claims);
    InvPlacesNext(s.index);
    var j := BlocksFor(Tail(s)) + |blocks|;
    StoreValueFacts(s, s', items, blocks, entry, b);
    assert Shaped(s'.index) by { InvPlacesNext(s'.index); }
    StoreValueAllocates(s, s', blocks, b);
    ProducerDisturbsNobody(s, s');
    OthersFit(s, s', None);
    StoreValueAccounts(s, s', j, items, blocks, entry, b);
    StoreValueLeaks(s, s', j, b);
    BeyondTailUnfinished(s, j);
    FinishedStays(s, s');
    StoreValueCounts(s, s', j, b);
    StoreValueDrops(s, s', j, b);
    TailCarriesOver(s, s');
  }

  lemma ObtainedChain<T>(s: State<T>, s': State<T>, items: seq<T>, blocks: seq<BlockId>, entry: EntryId, b: BlockId)
    requires ChainFits(s) && s.producer == Obtained(items, blocks, entry, b) && s'.producer == Linking(items, blocks + [b])
    requires s'.next == s.next && s'.tailBlock == s.tailBlock && s'.claims == s.claims
    ensures ChainFits(s')
  {
    assert (blocks + [b])[..|blocks|] == blocks;
  }

  lemma StoreValueStep<T>(s: State<T>, s': State<T>, items: seq<T>, blocks: seq<BlockId>, entry: EntryId, b: BlockId)
    requires Inv(s) && s.producer == Obtained(items, blocks, entry, b) && entry < |s.index.entries|
    requires s' == s.(index := StoreValue(s.index, entry, b), producer := Linking(items, blocks + [b]))
    ensures Inv(s')
  {
    hide D.Inv, BlockIndex.Inv, InsertedFits, EntryRemembered, AllocationsFit, BatchFits, TailBlockFits,
         BlocksAccounted, NothingLeaked, FinishedFit, CountersFit, CellsFit, ConsumersFit, NothingDropped, ChainFits,
         StoreValue, BlocksFor;
    StoreValueFacts(s, s', items, blocks, entry, b);
    StoreValueAllocates(s, s', blocks, b);
    CellsStay(s, s');
    ObtainedChain(s, s', items, blocks, entry, b);
    StoreValueRest(s, s', items, blocks, entry, b);
  }

  // A single enqueue that builds its element early

  /** Cells of blocks that are not in the index say nothing. */
  lemma CellsOutside<T>(s: State<T>, s': State<T>, b: BlockId, cell: nat, x: T)
    requires CellsFit(s) && forall j :: j in s.index.live ==> s.index.live[j] != b
    requires s'.cells == s.cells[(b, cell) := x] && s'.elements == s.elements && s'.delivered == s.delivered
    requires s'.claims == s.claims && s'.index == s.index && Stored(s') == Stored(s)
    ensures CellsFit(s')
  {
    hide BlockOf, CellOf, Stored;
    forall i: nat | i < |Stored(s')| && i !in s'.delivered ensures CellHolds(s', i, Stored(s')[i]) {
      assert CellHolds(s, i, Stored(s)[i]);
    }
  }

  lemma BuildFacts<T>(s: State<T>, s': State<T>, items: seq<T>, entry: EntryId, b: BlockId)
    requires Shaped(s.index) && InsertedFits(s) && EntryRemembered(s) && BatchFits(s) && ChainFits(s)
    requires s.producer == Obtained(items, [], entry, b) && |items| == 1
    requires s' == s.(cells := s.cells[(b, CellOf(Tail(s))) := items[0]], producer := Built(items, [], entry, b))
    ensures InsertedFits(s') && EntryRemembered(s') && BatchFits(s') && ChainFits(s')
  {
    hide EntryOf;
  }

  lemma HoldsNewBlock<T>(s: State<T>, b: BlockId)
    requires BlocksAccounted(s) && ProducerHolds(s.producer, b)
    ensures b in s.inUse && forall j :: j in s.index.live ==> s.index.live[j] != b
  {
  }

  lemma BuildStep<T>(s: State<T>, s': State<T>, items: seq<T>, entry: EntryId, b: BlockId)
    requires Inv(s) && s.producer == Obtained(items, [], entry, b) && |items| == 1
    requires s' == s.(cells := s.cells[(b, CellOf(Tail(s))) := items[0]], producer := Built(items, [], entry, b))
    ensures Inv(s')
  {
    hide D.Inv, BlockIndex.Inv, InsertedFits, EntryRemembered, AllocationsFit, BatchFits, TailBlockFits,
         BlocksAccounted, NothingLeaked, FinishedFit, CountersFit, CellsFit, ConsumersFit, NothingDropped, ChainFits,
         BlocksFor, CellOf, BlockOf;
    InvPlacesNext(s.index);
    assert DistinctBlocks(s'.producer);
    BuildFacts(s, s', items, entry, b);
    HoldsNewBlock(s, b);
    CellsOutside(s, s', b, CellOf(Tail(s)), items[0]);
    ProducerDisturbsNobody(s, s');
    OthersFit(s, s', None);
    AccountsCarryOver(s, s');
    LeaksCarryOver(s, s');
    FinishedStays(s, s');
    BuildCounts(s, s', b);
    DropsStay(s, s');
    TailCarriesOver(s, s');
    LowIsPublished(s);
    AllocationsCarryOver(s, s');
  }

  lemma BuildCounts<T>(s: State<T>, s': State<T>, b: BlockId)
    requires CountersFit(s) && s.producer.Obtained? && s.producer.block == b && s'.producer.Built? && s'.producer.block == b
    requires s'.emptied == s.emptied && s'.finished == s.finished && s'.index == s.index
    ensures CountersFit(s')
  {
    hide Span;
    forall j | j in s'.index.live ensures CounterAt(s', j) {
      assert CounterAt(s, j);
    }
  }

  /** The element that was built early is in the right cell once its block is in the index. */
  lemma BuiltCells<T>(s: State<T>, s': State<T>, items: seq<T>, blocks: seq<BlockId>, entry: EntryId, b: BlockId)
    requires CellsFit(s) && ChainFits(s) && BatchFits(s) && s.producer == Built(items, blocks, entry, b)
    requires s'.producer == Writing(items, blocks + [b], 1) && s'.cells == s.cells && s'.delivered == s.delivered
    requires s'.elements == s.elements && s'.claims == s.claims && Head(s) <= Tail(s)
    requires s'.index.live == s.index.live[BlocksFor(Tail(s)) := b] && BlocksFor(Tail(s)) !in s.index.live
    ensures CellsFit(s')
  {
    BlockOfTail(Tail(s));
    hide BlockOf, CellOf, BlocksFor;
    assert Stored(s') == Stored(s) + [items[0]];
    forall i: nat | i < |Stored(s')| && i !in s'.delivered ensures CellHolds(s', i, Stored(s')[i]) {
      if i < Tail(s) { assert CellHolds(s, i, Stored(s)[i]); }
    }
  }

  lemma BlockOfTail(tail: nat)
    ensures BlocksFor(tail) + 1 == BlocksFor(tail + 1) ==> BlockOf(tail) == BlocksFor(tail) && tail % BLOCK_SIZE == 0
  {
  }

  lemma BuiltChain<T>(s: State<T>, s': State<T>, items: seq<T>, blocks: seq<BlockId>, entry: EntryId, b: BlockId)
    requires ChainFits(s) && BatchFits(s) && TailBlockFits(s') && s.producer == Built(items, blocks, entry, b)
    requires s'.producer == Writing(items, blocks + [b], 1) && s'.walk == StartWalk(s', items, blocks + [b])
    requires s'.next == s.next && s'.tailBlock == s.tailBlock && s'.claims == s.claims
    ensures ChainFits(s')
  {
    assert blocks + [b] == [b];
    BlockOfTail(Tail(s));
    hide WalkFits, BlocksFor;
    WalkBegins(s', items, [b], 1);
  }

  lemma BuiltStep<T>(s: State<T>, s': State<T>, items: seq<T>, blocks: seq<BlockId>, entry: EntryId, b: BlockId)
    requires Inv(s) && s.producer == Built(items, blocks, entry, b) && entry < |s.index.entries|
    requires s' == s.(index := StoreValue(s.index, entry, b), producer := Writing(items, blocks + [b], 1),
                      walk := StartWalk(s, items, blocks + [b]))
    ensures Inv(s')
  {
    hide D.Inv, BlockIndex.Inv, InsertedFits, EntryRemembered, AllocationsFit, BatchFits, TailBlockFits,
         BlocksAccounted, NothingLeaked, FinishedFit, CountersFit, CellsFit, ConsumersFit, NothingDropped, ChainFits,
         StoreValue, BlocksFor;
    NoneBefore(s);
    D.ClaimFits(s.claims);
    StoreValueFacts(s, s', items, blocks, entry, b);
    StoreValueAllocates(s, s', blocks, b);
    BuiltCells(s, s', items, blocks, entry, b);
    TailCarriesOver(s, s');
    BuiltChain(s, s', items, blocks, entry, b);
    StoreValueRest(s, s', items, blocks, entry, b);
  }

  lemma NoneBefore<T>(s: State<T>)
    requires BatchFits(s) && s.producer.Built?
    ensures s.producer.blocks == [] && |s.producer.items| == 1
  {
  }

  // Linking

  /** The block whose link is set is the live block numbered just before the new one: a start block
      that may already belong to somebody else is not touched. */
  lemma LinkTargetIsLive<T>(s: State<T>)
    requires AllocationsFit(s) && BatchFits(s) && TailBlockFits(s) && s.producer.Linking? && MustLink(s, s.producer.blocks)
    ensures var blocks, j := s.producer.blocks, BlocksFor(Tail(s)) + |s.producer.blocks| - 2;
            j in s.index.live && EndBlock(s.tailBlock, blocks[..|blocks| - 1]) == Some(s.index.live[j])
  {
    var n := |s.producer.blocks|;
    if n > 1 { assert AllocationAt(s, n - 2); }
  }

  /** Setting that link makes the new block the end of the chain. */
  lemma LinksJoin(next: map<BlockId, Option<BlockId>>, blocks: seq<BlockId>, x: BlockId)
    requires |blocks| > 0 && forall i, k :: 0 <= i < k < |blocks| ==> blocks[i] != blocks[k]
    requires var n := |blocks| - 1; Linked(next, blocks[..n], 0) && Linked(next, [blocks[n]], 0)
    requires if |blocks| > 1 then x == blocks[|blocks| - 2] else x != blocks[0]
    ensures Linked(next[x := Some(blocks[|blocks| - 1])], blocks, 0)
    ensures |blocks| == 1 ==> Linked(next, blocks, 0)
  {
    var n := |blocks| - 1;
    assert LinkAt(next, [blocks[n]], 0);
    if n == 0 { assert blocks == [blocks[0]]; }
    var next' := next[x := Some(blocks[n])];
    forall k | 0 <= k < |blocks| ensures LinkAt(next', blocks, k) {
      if k < n { assert LinkAt(next, blocks[..n], k); }
    }
  }

  lemma LinkChain<T>(s: State<T>, s': State<T>, items: seq<T>, blocks: seq<BlockId>)
    requires ChainFits(s) && AllocationsFit(s) && BatchFits(s) && TailBlockFits(s) && BlocksAccounted(s)
    requires s.producer == Linking(items, blocks) && |blocks| > 0
    requires var prev := EndBlock(s.tailBlock, blocks[..|blocks| - 1]);
             && (MustLink(s, blocks) ==> prev.Some?)
             && s'.next == if MustLink(s, blocks) then s.next[prev.value := Some(blocks[|blocks| - 1])] else s.next
    requires s'.tailBlock == s.tailBlock && s'.claims == s.claims
    ensures Linked(s'.next, blocks, 0) && StartLinked(s', blocks)
  {
    var n, N := |blocks| - 1, BlocksFor(Tail(s));
    LiveBlocksDiffer(s);
    assert AllocationAt(s, n) && AllocationAt(s, 0);
    if n > 0 { assert AllocationAt(s, n - 1); }
    hide AllocationsFit, BatchFits, BlocksAccounted, Linked, BlocksFor;
    assert Tail(s) % BLOCK_SIZE != 0 ==> s.tailBlock.Some? && s.tailBlock.value != blocks[n] && s.tailBlock.value != blocks[0]
                                         && (n > 0 ==> s.tailBlock.value != blocks[n - 1]);
    if MustLink(s, blocks) {
      LinksJoin(s.next, blocks, EndBlock(s.tailBlock, blocks[..n]).value);
    } else {
      LinksJoin(s.next, blocks, blocks[n] + 1);
    }
  }

  lemma LinkFacts<T>(s: State<T>, s': State<T>, items: seq<T>, blocks: seq<BlockId>)
    requires Shaped(s.index) && InsertedFits(s) && BatchFits(s) && TailBlockFits(s) && s.producer == Linking(items, blocks)
    requires s'.index == s.index && s'.claims == s.claims && s'.tailBlock == s.tailBlock
    requires s'.producer == StartOrWrite(s, items, blocks) && s'.walk == StartWalk(s, items, blocks)
    ensures InsertedFits(s') && EntryRemembered(s') && BatchFits(s')
    ensures s'.producer.Writing? ==> WalkFits(s', items, blocks, 0)
  {
    StartFits(s, s', items, blocks);
    StopBehind(Tail(s), Tail(s) + |items|);
    hide BlocksFor, WalkFits;
    if s'.producer.Writing? { WalkBegins(s', items, blocks, 0); }
  }

  lemma LinkStep<T>(s: State<T>, s': State<T>, items: seq<T>, blocks: seq<BlockId>)
    requires Inv(s) && s.producer == Linking(items, blocks) && |blocks| > 0
    requires var prev := EndBlock(s.tailBlock, blocks[..|blocks| - 1]);
             && (MustLink(s, blocks) ==> prev.Some?)
             && s' == s.(next := if MustLink(s, blocks) then s.next[prev.value := Some(blocks[|blocks| - 1])] else s.next,
                         producer := StartOrWrite(s, items, blocks), walk := StartWalk(s, items, blocks))
    ensures Inv(s')
  {
    hide D.Inv, BlockIndex.Inv, InsertedFits, EntryRemembered, AllocationsFit, BatchFits, TailBlockFits,
         BlocksAccounted, NothingLeaked, FinishedFit, CountersFit, CellsFit, ConsumersFit, NothingDropped, ChainFits,
         BlocksFor, WalkFits, StartWalk, MustLink;
    InvPlacesNext(s.index);
    LinkChain(s, s', items, blocks);
    LinkFacts(s, s', items, blocks);
    LinkedFits(s', items, blocks);
    LiveBlocksDiffer(s);
    LowIsPublished(s);
    AllocationsCarryOver(s, s');
    IndexStepKeepsInv(s, s');
  }

  lemma LinkedFits<T>(s: State<T>, items: seq<T>, blocks: seq<BlockId>)
    requires Linked(s.next, blocks, 0) && StartLinked(s, blocks)
    requires s.producer == Allocating(items, blocks) || (s.producer == Writing(items, blocks, 0) && WalkFits(s, items, blocks, 0))
    ensures ChainFits(s)
  {
  }

  // Writing and publishing

  /** The block the producer writes into is live, and it is the block of the index it writes:
      in particular a tail block that may already belong to somebody else is never used. */
  lemma WriteBlockIsLive<T>(s: State<T>)
    requires AllocationsFit(s) && BatchFits(s) && TailBlockFits(s)
    requires s.producer.Writing? && s.producer.written < |s.producer.items|
    ensures var i := Tail(s) + s.producer.written;
            BlockOf(i) in s.index.live && WriteBlock(s, s.producer.blocks, i) == Some(s.index.live[BlockOf(i)])
  {
    var n, i := BlocksFor(Tail(s)), Tail(s) + s.producer.written;
    BlocksForMonotone(i + 1, Tail(s) + |s.producer.items|);
    var k := BlockOf(i) - n;
    if k >= 0 {
      assert AllocationAt(s, k);
    } else {
      assert BlockOf(i) == n - 1 && Tail(s) % BLOCK_SIZE != 0;
    }
  }

  /** Different indices have different blocks or different cells. */
  lemma CellsDiffer(i: nat, k: nat)
    requires BlockOf(i) == BlockOf(k) && CellOf(i) == CellOf(k)
    ensures i == k
  {
  }

  lemma WriteKeepsCell<T>(s: State<T>, s': State<T>, w: nat, i: nat, x: T, y: T)
    requires forall i, j :: i in s.index.live && j in s.index.live && i != j ==> s.index.live[i] != s.index.live[j]
    requires BlockOf(w) in s.index.live && i != w && CellHolds(s, i, x)
    requires s' == s.(cells := s.cells[(s.index.live[BlockOf(w)], CellOf(w)) := y], producer := s'.producer)
    ensures CellHolds(s', i, x)
  {
    hide BlockOf, CellOf;
    if BlockOf(i) == BlockOf(w) && CellOf(i) == CellOf(w) { CellsDiffer(i, w); }
  }

  lemma WriteCells<T>(s: State<T>, s': State<T>, items: seq<T>, blocks: seq<BlockId>, written: nat)
    requires CellsFit(s) && s.producer == Writing(items, blocks, written) && written < |items|
    requires forall i, j :: i in s.index.live && j in s.index.live && i != j ==> s.index.live[i] != s.index.live[j]
    requires BlockOf(Tail(s) + written) in s.index.live
    requires s' == s.(cells := s.cells[(s.index.live[BlockOf(Tail(s) + written)], CellOf(Tail(s) + written)) := items[written]],
                      producer := Writing(items, blocks, written + 1))
    ensures CellsFit(s')
  {
    hide BlockOf, CellOf;
    var w := Tail(s) + written;
    assert Stored(s') == Stored(s) + [items[written]];
    forall i: nat | i < |Stored(s')| && i !in s'.delivered ensures CellHolds(s', i, Stored(s')[i]) {
      if i != w {
        assert CellHolds(s, i, Stored(s)[i]);
        WriteKeepsCell(s, s', w, i, Stored(s)[i], items[written]);
      }
    }
  }

  lemma LiveBlocksDiffer<T>(s: State<T>)
    requires BlocksAccounted(s)
    ensures forall i, j :: i in s.index.live && j in s.index.live && i != j ==> s.index.live[i] != s.index.live[j]
    ensures DistinctBlocks(s.producer)
  {
  }

  lemma LowIsPublished<T>(s: State<T>)
    requires AllocationsFit(s)
    ensures s.index.low <= BlocksFor(Tail(s))
  {
  }

  lemma WriteFacts<T>(s: State<T>, s': State<T>, items: seq<T>, blocks: seq<BlockId>, written: nat)
    requires Shaped(s.index) && InsertedFits(s) && EntryRemembered(s) && BatchFits(s) && ChainFits(s)
    requires s.producer == Writing(items, blocks, written) && written < |items| && Tail(s) + written != s.walk.stop
    requires s' == s.(cells := s'.cells, producer := Writing(items, blocks, written + 1))
    ensures InsertedFits(s') && EntryRemembered(s') && BatchFits(s') && ChainFits(s')
  {
  }

  lemma WrittenBlock(tail: nat, i: nat, stop: nat)
    requires tail <= i < stop && BlockOf(stop - 1) * BLOCK_SIZE <= i
    ensures BlockOf(i) == BlockOf(stop - 1)
  {
  }

  /** Wherever the writing loop has come by following the links, it writes into the live block of the
      index it writes: a start block that may already belong to somebody else is never used. */
  lemma CursorIsLive<T>(s: State<T>)
    requires AllocationsFit(s) && BatchFits(s) && TailBlockFits(s) && ChainFits(s)
    requires s.producer.Writing? && Tail(s) + s.producer.written != s.walk.stop
    ensures var i := Tail(s) + s.producer.written;
            s.producer.written < |s.producer.items| && BlockOf(i) in s.index.live
            && s.walk.cursor == Some(s.index.live[BlockOf(i)])
  {
    hide AllocationsFit, TailBlockFits, BlockOf, BlocksFor;
    var i := Tail(s) + s.producer.written;
    WrittenBlock(Tail(s), i, s.walk.stop);
    WriteBlockIsLive(s);
  }

  lemma WriteStep<T>(s: State<T>, s': State<T>, items: seq<T>, blocks: seq<BlockId>, written: nat)
    requires Inv(s) && s.producer == Writing(items, blocks, written) && Tail(s) + written != s.walk.stop
    requires written < |items| && s.walk.cursor.Some?
    requires s' == s.(cells := s.cells[(s.walk.cursor.value, CellOf(Tail(s) + written)) := items[written]],
                      producer := Writing(items, blocks, written + 1))
    ensures Inv(s')
  {
    hide D.Inv, BlockIndex.Inv, InsertedFits, EntryRemembered, AllocationsFit, BatchFits, TailBlockFits,
         BlocksAccounted, NothingLeaked, FinishedFit, CountersFit, CellsFit, ConsumersFit, NothingDropped, ChainFits, BlocksFor, BlockOf,
         CellOf, WriteBlock;
    InvPlacesNext(s.index);
    CursorIsLive(s);
    LiveBlocksDiffer(s);
    WriteCells(s, s', items, blocks, written);
    WriteFacts(s, s', items, blocks, written);
    ProducerDisturbsNobody(s, s');
    OthersFit(s, s', None);
    LowIsPublished(s);
    AllocationsCarryOver(s, s');
    AccountsCarryOver(s, s');
    LeaksCarryOver(s, s');
    FinishedStays(s, s');
    CountersStay(s, s');
    DropsStay(s, s');
    TailCarriesOver(s, s');
  }

  /** The block numbers on both sides of a stop. */
  lemma StopBlocks(tail: nat, end: nat, stop: nat)
    requires tail < stop <= end && (stop < end ==> stop % BLOCK_SIZE == 0)
    ensures stop == end ==> BlockOf(stop - 1) == BlocksFor(end) - 1
    ensures stop < end ==>
              && BlocksFor(tail) - 1 <= BlockOf(stop - 1) < BlocksFor(end) - 1
              && (BlockOf(stop - 1) == BlocksFor(tail) - 1 ==> tail % BLOCK_SIZE != 0)
              && BlockOf(Stop(stop, end) - 1) == BlockOf(stop - 1) + 1
              && BlockOf(Stop(stop, end) - 1) * BLOCK_SIZE == stop < Stop(stop, end) <= end
              && (Stop(stop, end) < end ==> Stop(stop, end) % BLOCK_SIZE == 0)
  {
  }

  /** At a stop the writing loop is in the last allocated block exactly when all elements have been
      written, and otherwise its block's link leads to the block of the next index. */
  lemma WalkFollowsChain<T>(s: State<T>)
    requires AllocationsFit(s) && BatchFits(s) && TailBlockFits(s) && BlocksAccounted(s) && ChainFits(s)
    requires s.producer.Writing? && Tail(s) + s.producer.written == s.walk.stop
    ensures s.walk.cursor == EndBlock(s.tailBlock, s.producer.blocks) <==> s.producer.written == |s.producer.items|
    ensures s.producer.written < |s.producer.items| ==>
              HasNext(s) && s.next[s.walk.cursor.value] == WriteBlock(s, s.producer.blocks, s.walk.stop)
  {
    var blocks, items, stop := s.producer.blocks, s.producer.items, s.walk.stop;
    var end, n, m := Tail(s) + |items|, BlocksFor(Tail(s)), |blocks|;
    if items != [] {
      StopBlocks(Tail(s), end, stop);
      var k := BlockOf(stop - 1) - n;
      assert stop < end ==> BlockOf(stop) == BlockOf(stop - 1) + 1;
      if stop < end {
        LiveBlocksDiffer(s);
        assert AllocationAt(s, m - 1);
        hide AllocationsFit, BatchFits, BlocksAccounted, BlockOf, BlocksFor;
        if k >= 0 { assert LinkAt(s.next, blocks, k); }
      }
    }
  }

  lemma WalkMoves<T>(s: State<T>, s': State<T>, items: seq<T>, blocks: seq<BlockId>, written: nat)
    requires BatchFits(s) && ChainFits(s) && s.producer == Writing(items, blocks, written)
    requires Tail(s) + written == s.walk.stop && written < |items|
    requires s'.claims == s.claims && s'.producer == s.producer && s'.next == s.next && s'.tailBlock == s.tailBlock
    requires s'.walk == Walk(WriteBlock(s, blocks, s.walk.stop), Stop(s.walk.stop, Tail(s) + |items|))
    ensures ChainFits(s')
  {
    StopBlocks(Tail(s), Tail(s) + |items|, s.walk.stop);
    assert BlockOf(s.walk.stop) == BlockOf(s'.walk.stop - 1);
  }

  lemma WalkStep<T>(s: State<T>, s': State<T>, items: seq<T>, blocks: seq<BlockId>, written: nat)
    requires Inv(s) && s.producer == Writing(items, blocks, written) && Tail(s) + written == s.walk.stop
    requires s.walk.cursor != EndBlock(s.tailBlock, blocks) && HasNext(s)
    requires s' == s.(walk := Walk(s.next[s.walk.cursor.value], Stop(s.walk.stop, Tail(s) + |items|)))
    ensures Inv(s')
  {
    hide D.Inv, BlockIndex.Inv, InsertedFits, EntryRemembered, AllocationsFit, BatchFits, TailBlockFits,
         BlocksAccounted, NothingLeaked, FinishedFit, CountersFit, CellsFit, ConsumersFit, NothingDropped, ChainFits,
         BlocksFor, Stop, WriteBlock;
    InvPlacesNext(s.index);
    WritingRange(s);
    WalkFollowsChain(s);
    WalkMoves(s, s', items, blocks, written);
    ProducerSideStays(s, s');
    ProducerDisturbsNobody(s, s');
    OthersFit(s, s', None);
    SameAccounts(s, s');
    LeaksCarryOver(s, s');
    FinishedStays(s, s');
    CountersStay(s, s');
    CellsStay(s, s');
    DropsStay(s, s');
  }

  lemma PublishCells<T>(s: State<T>, s': State<T>, items: seq<T>, blocks: seq<BlockId>)
    requires CellsFit(s) && s.producer == Writing(items, blocks, |items|)
    requires s'.claims.tail == Tail(s) + |items| && s'.claims.head == Head(s) && s'.elements == s.elements + items
    requires s'.index == s.index && s'.cells == s.cells && s'.delivered == s.delivered && s'.producer.Resting?
    ensures CellsFit(s')
  {
    hide BlockOf, CellOf;
    assert Stored(s') == Stored(s);
    forall i: nat | i < |Stored(s')| && i !in s'.delivered ensures CellHolds(s', i, Stored(s')[i]) {
      assert CellHolds(s, i, Stored(s)[i]);
    }
  }

  lemma PublishFinished<T>(s: State<T>, s': State<T>, items: seq<T>, blocks: seq<BlockId>)
    requires FinishedFit(s) && CellsFit(s) && s.producer == Writing(items, blocks, |items|)
    requires s'.claims.tail == Tail(s) + |items| && s'.claims.head == Head(s)
    requires s'.index == s.index && s'.delivered == s.delivered && s'.finished == s.finished
    ensures FinishedFit(s')
  {
    hide BlockOf, CellOf;
    forall i: nat | i < Tail(s') && i !in s.finished ensures BlockOf(i) in s.index.live {
      if i >= Tail(s) { assert CellHolds(s, i, Stored(s)[i]); }
    }
  }

  lemma PublishFacts<T>(s: State<T>, s': State<T>, items: seq<T>, blocks: seq<BlockId>)
    requires InsertedFits(s) && AllocationsFit(s) && BatchFits(s) && TailBlockFits(s) && Shaped(s.index)
    requires s.producer == Writing(items, blocks, |items|)
    requires s'.claims.tail == Tail(s) + |items| && s'.index == s.index && s'.producer.Resting?
    requires s'.tailBlock == EndBlock(s.tailBlock, blocks)
    ensures InsertedFits(s') && EntryRemembered(s') && AllocationsFit(s') && BatchFits(s') && TailBlockFits(s')
  {
    if |blocks| > 0 { assert AllocationAt(s, |blocks| - 1); }
  }

  lemma RestingChain<T>(s: State<T>)
    requires s.producer.Resting?
    ensures ChainFits(s)
  {
  }

  lemma PublishStep<T>(s: State<T>, s': State<T>, items: seq<T>, blocks: seq<BlockId>)
    requires Inv(s) && s.producer == Writing(items, blocks, |items|)
    requires s' == s.(claims := D.Apply(s.claims, D.Publish(|items|)), elements := s.elements + items,
                      tailBlock := EndBlock(s.tailBlock, blocks), producer := Resting)
    ensures Inv(s')
  {
    hide D.Inv, BlockIndex.Inv, InsertedFits, EntryRemembered, AllocationsFit, BatchFits, TailBlockFits,
         BlocksAccounted, NothingLeaked, FinishedFit, CountersFit, CellsFit, ConsumersFit, NothingDropped, ChainFits, BlocksFor;
    InvPlacesNext(s.index);
    D.StepKeepsInv(s.claims, D.Publish(|items|));
    PublishFacts(s, s', items, blocks);
    assert ChainFits(s') by { RestingChain(s'); }
    PublishCells(s, s', items, blocks);
    PublishFinished(s, s', items, blocks);
    ProducerDisturbsNobody(s, s');
    OthersFit(s, s', None);
    AccountsCarryOver(s, s');
    LeaksCarryOver(s, s');
    CountersStay(s, s');
    DropsStay(s, s');
  }

  // Taking blocks back

  /** The producer's own lookup finds the entry of every block it has just inserted, also after
      it has already rewound the tail past that block. */
  lemma OwnLookupFinds<T>(s: State<T>, j: nat)
    requires BlockIndex.Inv(s.index) && j in s.index.live && s.index.low < s.index.inserted
    ensures s.index.entries[TailEntry(s.index)].key.Some?
    ensures OwnLookup(s.index, j * BLOCK_SIZE) == EntryOf(s.index, j)
  {
    hide BlockIndex.Inv, SlotOf, EntryOf, SlotFromTail, Until;
    InvPlacesNext(s.index);
    TailAndLive(s.index, j);
    LookupFinds(s.index, s.index.Current(), j, s.index.inserted, s.index.headers[s.index.Current()].tail);
  }

  lemma UndoAllocates<T>(s: State<T>, s': State<T>, blocks: seq<BlockId>, undone: nat)
    requires AllocationsFit(s) && s.producer == Undoing(blocks, undone) && undone < |blocks|
    requires s'.producer == UndoRewinding(blocks, undone) && s'.claims == s.claims && s'.index.low == s.index.low
    requires s'.index.live == s.index.live - {BlocksFor(Tail(s)) + undone}
    ensures AllocationsFit(s')
    ensures BlocksFor(Tail(s)) + undone in s.index.live
    ensures s.index.live[BlocksFor(Tail(s)) + undone] == blocks[undone]
  {
    assert AllocationAt(s, undone);
    forall k: nat | k < |blocks| ensures AllocationAt(s', k) {
      assert AllocationAt(s, k);
    }
  }

  lemma UndoAccounts<T>(s: State<T>, s': State<T>, j: nat, blocks: seq<BlockId>, undone: nat)
    requires BlocksAccounted(s) && s.producer == Undoing(blocks, undone) && undone < |blocks|
    requires j in s.index.live && s.index.live[j] == blocks[undone] && s'.index.live == s.index.live - {j}
    requires s'.producer == UndoRewinding(blocks, undone)
    requires s'.inUse == s.inUse && s'.consumers == s.consumers
    ensures BlocksAccounted(s')
  {
    forall b: BlockId ensures ProducerHolds(s'.producer, b) <==> ProducerHolds(s.producer, b) || b == blocks[undone] {
      assert blocks[..undone + 1] == blocks[..undone] + [blocks[undone]];
    }
  }

  lemma UndoLeaks<T>(s: State<T>, s': State<T>, j: nat, blocks: seq<BlockId>, undone: nat)
    requires NothingLeaked(s) && s.producer == Undoing(blocks, undone) && undone < |blocks|
    requires j in s.index.live && s.index.live[j] == blocks[undone] && s'.index.live == s.index.live - {j}
    requires s'.producer == UndoRewinding(blocks, undone)
    requires s'.inUse == s.inUse && s'.consumers == s.consumers
    ensures NothingLeaked(s')
  {
    assert blocks[..undone + 1] == blocks[..undone] + [blocks[undone]];
    forall c: BlockId | c in s'.inUse ensures Whereabouts(s', c) {
      if c == blocks[undone] {
        assert ProducerHolds(s'.producer, c);
      } else {
        WhereaboutsKept(s, s', c);
      }
    }
  }

  lemma UndoDisturbsNobody<T>(s: State<T>, s': State<T>, j: nat)
    requires Inv(s) && j >= BlocksFor(Tail(s)) && s'.index.live == s.index.live - {j}
    requires Shaped(s'.index) && Extends(s.index, s'.index)
    requires s'.claims.claims == s.claims.claims && s'.consumers == s.consumers
    requires s'.delivered == s.delivered && s'.finished == s.finished
    ensures Undisturbed(s, s', None)
  {
    hide D.Inv, BlockIndex.Inv, InsertedFits, EntryRemembered, AllocationsFit, BatchFits, TailBlockFits,
         BlocksAccounted, NothingLeaked, FinishedFit, CountersFit, CellsFit, ConsumersFit, NothingDropped, ChainFits, BlocksFor, BlockOf;
    InvPlacesNext(s.index);
    forall u | u in s.consumers ensures BlockKept(s, s', s.consumers[u]) {
      BlocksInUseArePublished(s, u);
    }
  }

  lemma UndoFacts<T>(s: State<T>, s': State<T>, blocks: seq<BlockId>, undone: nat)
    requires BlockIndex.Inv(s.index) && InsertedFits(s) && AllocationsFit(s)
    requires s.producer == Undoing(blocks, undone) && undone < |blocks|
    requires s.index.entries[TailEntry(s.index)].key.Some?
    requires var j := BlocksFor(Tail(s)) + undone;
             s' == s.(index := ClearValue(s.index, OwnLookup(s.index, j * BLOCK_SIZE), j),
                      producer := UndoRewinding(blocks, undone))
    ensures BlockIndex.Inv(s'.index) && Extends(s.index, s'.index) && s'.index.low == s.index.low
    ensures s'.index.live == s.index.live - {BlocksFor(Tail(s)) + undone}
    ensures Shaped(s'.index) && InsertedFits(s') && EntryRemembered(s') && BatchFits(s')
  {
    hide BlocksFor, SlotOf, Extends, BlockIndex.Inv, TailEntry, OwnLookup, EntryOf, AllocationsFit;
    var j := BlocksFor(Tail(s)) + undone;
    InvPlacesNext(s.index);
    UndoneIsLive(s);
    OwnLookupFinds(s, j);
    ClearValueKeepsInv(s.index, j);
    InvPlacesNext(s'.index);
  }

  lemma CursorAt<T>(s: State<T>, blocks: seq<BlockId>, undone: nat)
    requires ChainFits(s) && s.producer == Undoing(blocks, undone)
    ensures s.walk.cursor == At(blocks, undone)
  {
  }

  lemma UndoClearStep<T>(s: State<T>, s': State<T>, blocks: seq<BlockId>, undone: nat)
    requires Inv(s) && s.producer == Undoing(blocks, undone) && undone < |blocks|
    requires s.index.entries[TailEntry(s.index)].key.Some?
    requires var j := BlocksFor(Tail(s)) + undone;
             s' == s.(index := ClearValue(s.index, OwnLookup(s.index, j * BLOCK_SIZE), j),
                      producer := UndoRewinding(blocks, undone))
    ensures Inv(s')
  {
    hide D.Inv, BlockIndex.Inv, InsertedFits, EntryRemembered, AllocationsFit, BatchFits, TailBlockFits,
         BlocksAccounted, NothingLeaked, FinishedFit, CountersFit, CellsFit, ConsumersFit, NothingDropped, ChainFits, BlocksFor, BlockOf,
         ClearValue, OwnLookup;
    var j := BlocksFor(Tail(s)) + undone;
    UndoFacts(s, s', blocks, undone);
    UndoAllocates(s, s', blocks, undone);
    assert ChainFits(s') by { CursorAt(s, blocks, undone); UndoChain(s, s', blocks); }
    UndoDisturbsNobody(s, s', j);
    OthersFit(s, s', None);
    UndoAccounts(s, s', j, blocks, undone);
    UndoLeaks(s, s', j, blocks, undone);
    PublishedBelow(s, j);
    FinishedStays(s, s');
    CountersStay(s, s');
    CellsStay(s, s');
    DropsStay(s, s');
    UndoTail(s, s', j);
  }

  lemma PublishedBelow<T>(s: State<T>, j: nat)
    requires j >= BlocksFor(Tail(s)) && CellsFit(s) && !s.producer.Writing?
    ensures |Stored(s)| == Tail(s) && forall i: nat :: i < Tail(s) ==> BlockOf(i) != j
  {
  }

  lemma UndoTail<T>(s: State<T>, s': State<T>, j: nat)
    requires TailBlockFits(s) && j >= BlocksFor(Tail(s)) && s'.index.live == s.index.live - {j}
    requires s'.claims == s.claims && s'.tailBlock == s.tailBlock
    ensures TailBlockFits(s')
  {
  }

  lemma ReturnAccounts<T>(s: State<T>, s': State<T>, blocks: seq<BlockId>, returned: nat)
    requires BlocksAccounted(s) && s.producer == Returning(blocks, returned) && returned < |blocks|
    requires s'.producer == Returning(blocks, returned + 1) && s'.inUse == s.inUse - {blocks[returned]}
    requires s'.index == s.index && s'.consumers == s.consumers
    ensures BlocksAccounted(s') && blocks[returned] in s.inUse
  {
    assert blocks[returned..] == [blocks[returned]] + blocks[returned + 1..];
    assert ProducerHolds(s.producer, blocks[returned]);
    forall b: BlockId ensures ProducerHolds(s.producer, b) <==> ProducerHolds(s'.producer, b) || b == blocks[returned] {
    }
  }

  lemma ReturnLeaks<T>(s: State<T>, s': State<T>, blocks: seq<BlockId>, returned: nat)
    requires NothingLeaked(s) && s.producer == Returning(blocks, returned) && returned < |blocks|
    requires s'.producer == Returning(blocks, returned + 1) && s'.inUse == s.inUse - {blocks[returned]}
    requires s'.index == s.index && s'.consumers == s.consumers
    ensures NothingLeaked(s')
  {
    assert blocks[returned..] == [blocks[returned]] + blocks[returned + 1..];
    forall c: BlockId | c in s'.inUse ensures Whereabouts(s', c) {
      WhereaboutsKept(s, s', c);
    }
  }

  lemma ReturnChain<T>(s: State<T>, s': State<T>, blocks: seq<BlockId>, returned: nat)
    requires ChainFits(s) && s.producer == Returning(blocks, returned) && s'.producer == Returning(blocks, returned + 1)
    requires s'.next == s.next && s'.walk.cursor == At(blocks, returned + 1)
    ensures ChainFits(s')
  {
  }

  lemma ReturnStep<T>(s: State<T>, s': State<T>, blocks: seq<BlockId>, returned: nat)
    requires Inv(s) && s.producer == Returning(blocks, returned) && returned < |blocks|
    requires s' == s.(inUse := s.inUse - {blocks[returned]}, producer := Returning(blocks, returned + 1),
                      walk := s.walk.(cursor := At(blocks, returned + 1)))
    ensures Inv(s')
  {
    hide D.Inv, BlockIndex.Inv, AllocationsFit, TailBlockFits,
         BlocksAccounted, NothingLeaked, FinishedFit, CountersFit, CellsFit, ConsumersFit, NothingDropped, ChainFits, BlocksFor;
    InvPlacesNext(s.index);
    ProducerDisturbsNobody(s, s');
    OthersFit(s, s', None);
    ReturnAccounts(s, s', blocks, returned);
    ReturnLeaks(s, s', blocks, returned);
    FinishedStays(s, s');
    CountersStay(s, s');
    CellsStay(s, s');
    DropsStay(s, s');
    TailCarriesOver(s, s');
    ReturnAllocates(s, s');
    ReturnChain(s, s', blocks, returned);
  }

  lemma ReturnAllocates<T>(s: State<T>, s': State<T>)
    requires AllocationsFit(s) && s.producer.Returning? && s'.producer.Returning?
    requires s'.claims == s.claims && s'.index == s.index
    ensures AllocationsFit(s')
  {
  }

  // ---------------------------------------------------------------------------
  // Consumer steps
  // ---------------------------------------------------------------------------

  lemma ProducerSideStays<T>(s: State<T>, s': State<T>)
    requires Shaped(s.index)
    requires InsertedFits(s) && EntryRemembered(s) && AllocationsFit(s) && BatchFits(s) && TailBlockFits(s)
    requires s'.index == s.index && s'.producer == s.producer && s'.tailBlock == s.tailBlock
    requires s'.claims.tail == s.claims.tail
    ensures InsertedFits(s') && EntryRemembered(s') && AllocationsFit(s') && BatchFits(s') && TailBlockFits(s')
  {
    forall k: nat | k < |Allocated(s'.producer)| ensures AllocationAt(s', k) {
      assert AllocationAt(s, k);
    }
  }

  /** What depends on the producer, the index and the blocks is untouched. */
  lemma ProducerSideCarriesOver<T>(s: State<T>, s': State<T>)
    requires Shaped(s.index)
    requires InsertedFits(s) && EntryRemembered(s) && AllocationsFit(s) && BatchFits(s) && TailBlockFits(s)
    requires s'.index == s.index && s'.producer == s.producer && s'.tailBlock == s.tailBlock && ChainFits(s)
    requires s'.next == s.next && s'.walk == s.walk && s'.cells == s.cells
    requires s'.claims.tail == s.claims.tail
    ensures InsertedFits(s') && EntryRemembered(s') && AllocationsFit(s') && BatchFits(s') && TailBlockFits(s') && ChainFits(s')
  {
    hide ChainFits;
    ChainUntouched(s, s');
    ProducerSideStays(s, s');
  }

  // Winning indices

  lemma ClaimWorkDrops<T>(s: State<T>, s': State<T>, t: Tid)
    requires NothingDropped(s) && t in s.consumers && s.consumers[t].Outside?
    requires s' == s.(claims := s'.claims)
    requires s'.claims.claims == s.claims.claims && s'.claims.head == s.claims.head
    requires s'.claims.threads.Keys == s.claims.threads.Keys
    requires forall u :: u in s.claims.threads && u != t ==> s'.claims.threads[u] == s.claims.threads[u]
    ensures NothingDropped(s')
  {
  }

  /** A step inside the claim protocol that does not yet win anything. */
  lemma ClaimWorkStep<T>(s: State<T>, s': State<T>, t: Tid)
    requires Inv(s) && t in s.consumers && s.consumers[t].Outside?
    requires s' == s.(claims := s'.claims) && D.Inv(s'.claims)
    requires s'.claims.claims == s.claims.claims
    requires s'.claims.head == s.claims.head && s'.claims.tail == s.claims.tail
    requires s'.claims.threads.Keys == s.claims.threads.Keys
    requires forall u :: u in s.claims.threads && u != t ==> s'.claims.threads[u] == s.claims.threads[u]
    ensures Inv(s')
  {
    hide D.Inv, BlockIndex.Inv, InsertedFits, EntryRemembered, AllocationsFit, BatchFits, TailBlockFits,
         BlocksAccounted, NothingLeaked, FinishedFit, CountersFit, CellsFit, ConsumersFit, NothingDropped, ChainFits, BlocksFor;
    InvPlacesNext(s.index);
    ProducerDisturbsNobody(s, s');
    OthersFit(s, s', None);
    ProducerSideCarriesOver(s, s');
    CountersStay(s, s');
    CellsStay(s, s');
    FinishedStays(s, s');
    ClaimWorkDrops(s, s', t);
    SameAccounts(s, s');
    LeaksCarryOver(s, s');
  }

  lemma SameAccounts<T>(s: State<T>, s': State<T>)
    requires BlocksAccounted(s)
    requires s'.index.live == s.index.live && s'.inUse == s.inUse && s'.producer == s.producer
    requires s'.consumers.Keys == s.consumers.Keys
    requires forall u :: u in s.consumers ==>
               s'.consumers[u] == s.consumers[u] || (!s.consumers[u].Releasing? && !s'.consumers[u].Releasing?)
    ensures BlocksAccounted(s')
  {
  }

  lemma WinDrops<T>(s: State<T>, s': State<T>, t: Tid, actual: nat)
    requires NothingDropped(s) && t in s.consumers && s.consumers[t].Outside?
    requires |s.claims.claims| == s.claims.head
    requires s'.claims.head == s.claims.head + actual
    requires s'.claims.claims == s.claims.claims + seq(actual, _ => t)
    requires s'.claims.threads == s.claims.threads[t := D.Idle] && t in s.claims.threads
    requires s'.index == s.index && s'.finished == s.finished
    requires s'.consumers == s.consumers[t := Located(s.claims.head, s'.claims.head)]
    ensures NothingDropped(s')
  {
    forall j | j in s'.index.live && Span(j) <= s'.finished
      ensures exists u :: u in s'.consumers && ClearsBlock(s'.consumers[u], j)
    {
      var u :| u in s.consumers && ClearsBlock(s.consumers[u], j);
      assert ClearsBlock(s'.consumers[u], j);
    }
  }

  lemma WinFits<T>(s: State<T>, s': State<T>, t: Tid, actual: nat)
    requires CellsFit(s) && |s.claims.claims| == s.claims.head && actual >= 1
    requires s'.claims.head == s.claims.head + actual && t in s.consumers
    requires s'.claims.claims == s.claims.claims + seq(actual, _ => t)
    requires s'.delivered == s.delivered && Shaped(s'.index)
    requires s'.consumers == s.consumers[t := Located(s.claims.head, s'.claims.head)]
    ensures ConsumerFits(s', t)
  {
  }

  lemma WinDisturbsNobody<T>(s: State<T>, s': State<T>, t: Tid)
    requires Shaped(s.index) && s'.index == s.index && s'.finished == s.finished && s'.delivered == s.delivered
    requires s.claims.claims <= s'.claims.claims && t in s.consumers
    requires s'.consumers.Keys == s.consumers.Keys
    requires forall u :: u in s.consumers && u != t ==> s'.consumers[u] == s.consumers[u]
    ensures Undisturbed(s, s', Some(t))
  {
  }

  lemma WinStep<T>(s: State<T>, s': State<T>, t: Tid, mine: nat, actual: nat)
    requires Inv(s) && t in s.consumers && s.consumers[t].Outside?
    requires t in s.claims.threads && s.claims.threads[t] == D.Claiming(mine, actual)
    requires s' == s.(claims := D.Advanced(s.claims, t),
                      consumers := s.consumers[t := Located(s.claims.head, D.Advanced(s.claims, t).head)])
    ensures Inv(s')
  {
    hide BlockIndex.Inv, InsertedFits, EntryRemembered, AllocationsFit, BatchFits, TailBlockFits,
         BlocksAccounted, NothingLeaked, FinishedFit, CountersFit, CellsFit, ConsumersFit, NothingDropped, ChainFits, BlocksFor,
         D.ThreadsSound, D.NoneForgotten, D.WinsJustified;
    InvPlacesNext(s.index);
    D.ClaimFits(s.claims);
    assert D.Enabled(s.claims, D.Advance(t));
    D.StepKeepsInv(s.claims, D.Advance(t));
    ClaimIsPositive(s.claims, t, mine, actual);
    WinDisturbsNobody(s, s', t);
    WinFits(s, s', t, actual);
    OthersFit(s, s', Some(t));
    ProducerSideCarriesOver(s, s');
    CountersStay(s, s');
    CellsStay(s, s');
    FinishedStays(s, s');
    WinDrops(s, s', t, actual);
    SameAccounts(s, s');
    LeaksCarryOver(s, s');
  }

  lemma ClaimIsPositive(c: D.State, t: Tid, mine: nat, actual: nat)
    requires D.Inv(c) && t in c.threads && c.threads[t] == D.Claiming(mine, actual)
    ensures actual >= 1
  {
    assert D.OwnsInterval(c, t);
  }

  // Looking up the block

  /** The blocks of indices a consumer still owes are live. */
  lemma OwedIsLive<T>(s: State<T>, t: Tid, lo: nat, hi: nat, i: nat)
    requires FinishedFit(s) && Owes(s, t, lo, hi) && lo <= i < hi
    requires |s.claims.claims| == Head(s) <= Tail(s)
    ensures BlockOf(i) in s.index.live && i !in s.finished
  {
  }

  /** Consumer t moves on, keeping what is on its hands. */
  lemma MoveDrops<T>(s: State<T>, s': State<T>, t: Tid)
    requires NothingDropped(s) && t in s.consumers && !s.consumers[t].Outside?
    requires t in s'.consumers && s'.consumers == s.consumers[t := s'.consumers[t]] && !s'.consumers[t].Clearing?
    requires s'.claims == s.claims && s'.finished == s.finished && s'.index.live.Keys <= s.index.live.Keys
    requires s.consumers[t].Clearing? ==> s.consumers[t].number !in s'.index.live
    requires forall i: nat :: OnHand(s.consumers[t], i) ==> OnHand(s'.consumers[t], i)
    ensures NothingDropped(s')
  {
    hide Span, OnHand;
    forall j | j in s'.index.live && Span(j) <= s'.finished
      ensures exists u :: u in s'.consumers && ClearsBlock(s'.consumers[u], j)
    {
      var u :| u in s.consumers && ClearsBlock(s.consumers[u], j);
      assert ClearsBlock(s'.consumers[u], j);
    }
  }

  /** A consumer that only loads something moves alone. */
  lemma MoveStep<T>(s: State<T>, s': State<T>, t: Tid)
    requires Inv(s) && t in s.consumers && t in s'.consumers && !s.consumers[t].Outside?
    requires s' == s.(consumers := s.consumers[t := s'.consumers[t]])
    requires !s.consumers[t].Clearing? && !s'.consumers[t].Clearing?
    requires !s.consumers[t].Releasing? && !s'.consumers[t].Releasing?
    requires forall i :: OnHand(s.consumers[t], i) ==> OnHand(s'.consumers[t], i)
    requires Shaped(s'.index) && ConsumerFits(s', t)
    ensures Inv(s')
  {
    hide D.Inv, BlockIndex.Inv, InsertedFits, EntryRemembered, AllocationsFit, BatchFits, TailBlockFits,
         BlocksAccounted, NothingLeaked, FinishedFit, CountersFit, CellsFit, ConsumersFit, NothingDropped, ChainFits, BlocksFor,
         ConsumerFits, OnHand;
    D.ClaimFits(s.claims);
    WinDisturbsNobody(s, s', t);
    OthersFit(s, s', Some(t));
    ProducerSideCarriesOver(s, s');
    CountersStay(s, s');
    HeadInsideTail(s);
    CellsStay(s, s');
    FinishedStays(s, s');
    MoveDrops(s, s', t);
    SameAccounts(s, s');
    LeaksCarryOver(s, s');
  }

  lemma HeadInsideTail<T>(s: State<T>)
    requires D.Inv(s.claims)
    ensures |s.claims.claims| == Head(s) <= Tail(s)
  {
    D.ClaimFits(s.claims);
  }

  lemma InsertedCoversTail<T>(s: State<T>)
    requires InsertedFits(s)
    ensures BlocksFor(Tail(s)) <= s.index.inserted
  {
  }

  lemma LocatedFits<T>(s: State<T>, t: Tid, next: nat, end: nat)
    requires BlockIndex.Inv(s.index) && FinishedFit(s) && |s.claims.claims| == Head(s) <= Tail(s)
    requires next < end && Owes(s, t, next, end)
    ensures HeaderReaches(s, s.index.Current(), end)
  {
    OwedIsLive(s, t, next, end, end - 1);
  }

  lemma TailLoadFits<T>(s: State<T>, t: Tid, next: nat, end: nat, h: nat)
    requires BlockIndex.Inv(s.index) && InsertedFits(s) && |s.claims.claims| == Head(s) <= Tail(s)
    requires next < end && Owes(s, t, next, end) && HeaderReaches(s, h, end)
    ensures BlockOf(end - 1) < Reach(s.index, h) <= Until(s.index, h)
    ensures s.index.headers[h].tail == SlotOf(s.index, h, Reach(s.index, h) - 1)
  {
    InsertedCoversTail(s);
    BlocksForMonotone(end, Tail(s));
    BlocksForMonotone(end - 1, end);
  }

  /** Through any header the consumer may hold, the lookup leads to its block's slot. */
  lemma KeyLoadFits<T>(s: State<T>, t: Tid, next: nat, end: nat, h: nat, tail: nat, seen: nat)
    requires BlockIndex.Inv(s.index) && FinishedFit(s) && |s.claims.claims| == Head(s) <= Tail(s)
    requires next < end && Owes(s, t, next, end) && HeaderReaches(s, h, end)
    requires BlockOf(end - 1) < seen <= Until(s.index, h) && tail == SlotOf(s.index, h, seen - 1)
    ensures s.index.entries[s.index.headers[h].index[tail]].key.Some?
    ensures var key := s.index.entries[s.index.headers[h].index[tail]].key.value;
            SlotFromTail(s.index.headers[h], tail, key, BlockOf(next) * BLOCK_SIZE) == SlotOf(s.index, h, BlockOf(next))
  {
    OwedIsLive(s, t, next, end, next);
    assert BlockOf(next) <= BlockOf(end - 1);
    LookupFinds(s.index, h, BlockOf(next), seen, tail);
  }

  /** At that slot there is a block, never null, and it is the block of the index. */
  lemma ValueLoadFits<T>(s: State<T>, t: Tid, next: nat, end: nat, h: nat, slot: nat)
    requires BlockIndex.Inv(s.index) && FinishedFit(s) && |s.claims.claims| == Head(s) <= Tail(s)
    requires next < end && Owes(s, t, next, end) && HeaderReaches(s, h, end)
    requires slot == SlotOf(s.index, h, BlockOf(next))
    ensures BlockOf(next) in s.index.live
    ensures s.index.entries[s.index.headers[h].index[slot]].value == Some(s.index.live[BlockOf(next)])
  {
    OwedIsLive(s, t, next, end, next);
    assert BlockOf(next) <= BlockOf(end - 1);
    assert EntryIn(s.index, h, BlockOf(next)) == EntryOf(s.index, BlockOf(next));
    LiveBlockFound(s.index, BlockOf(next));
  }

  // Taking elements out

  lemma SameBlock(start: nat, next: nat, end: nat)
    requires start <= next < Stop(start, end)
    ensures BlockOf(next) == BlockOf(start) && next < end
  {
  }

  /** The cell a consumer reads holds the element that was enqueued at its index. */
  lemma TakenIsEnqueued<T>(s: State<T>, t: Tid, start: nat, next: nat, end: nat, h: nat, slot: nat, block: BlockId)
    requires Shaped(s.index) && CellsFit(s) && |s.claims.claims| == Head(s) <= Tail(s)
    requires t in s.consumers && s.consumers[t] == Taking(start, next, end, h, slot, block) && ConsumerFits(s, t)
    requires next < Stop(start, end)
    ensures (block, CellOf(next)) in s.cells && s.cells[(block, CellOf(next))] == s.elements[next]
    ensures next !in s.delivered && next < |s.claims.claims| && s.claims.claims[next] == t
  {
    hide BlockOf, Stop;
    SameBlock(start, next, end);
    assert CellHolds(s, next, s.elements[next]);
  }

  lemma TakeCells<T>(s: State<T>, s': State<T>, next: nat)
    requires CellsFit(s) && next < Head(s) <= Tail(s)
    requires s' == s.(delivered := s.delivered[next := s.elements[next]], consumers := s'.consumers)
    ensures CellsFit(s')
  {
    hide BlockOf, CellOf;
    forall i: nat | i < |Stored(s')| && i !in s'.delivered ensures CellHolds(s', i, Stored(s')[i]) {
      assert CellHolds(s, i, Stored(s)[i]);
    }
  }

  lemma TakeFits<T>(s: State<T>, s': State<T>, t: Tid, start: nat, next: nat, end: nat, h: nat, slot: nat, block: BlockId)
    requires Shaped(s.index) && FinishedFit(s)
    requires t in s.consumers && s.consumers[t] == Taking(start, next, end, h, slot, block) && ConsumerFits(s, t)
    requires next < Stop(start, end)
    requires s' == s.(delivered := s'.delivered, consumers := s.consumers[t := Taking(start, next + 1, end, h, slot, block)])
    requires s'.delivered.Keys == s.delivered.Keys + {next} && next !in s.delivered
    ensures ConsumerFits(s', t)
  {
  }

  lemma TakeDisturbsNobody<T>(s: State<T>, s': State<T>, t: Tid, next: nat)
    requires Shaped(s.index) && s'.index == s.index && s'.finished == s.finished && s'.claims == s.claims
    requires next < |s.claims.claims| && s.claims.claims[next] == t && t in s.consumers
    requires s'.delivered.Keys == s.delivered.Keys + {next} && s'.consumers.Keys == s.consumers.Keys
    requires forall u :: u in s.consumers && u != t ==> s'.consumers[u] == s.consumers[u]
    ensures Undisturbed(s, s', Some(t))
  {
  }

  lemma ConsumerFit<T>(s: State<T>, t: Tid)
    requires ConsumersFit(s) && t in s.consumers
    ensures ConsumerFits(s, t)
  {
  }

  lemma TakeStep<T>(s: State<T>, s': State<T>, t: Tid, start: nat, next: nat, end: nat, h: nat, slot: nat, block: BlockId)
    requires Inv(s) && t in s.consumers && s.consumers[t] == Taking(start, next, end, h, slot, block)
    requires next < Stop(start, end) && (block, CellOf(next)) in s.cells
    requires s' == s.(delivered := s.delivered[next := s.cells[(block, CellOf(next))]],
                      consumers := s.consumers[t := Taking(start, next + 1, end, h, slot, block)])
    ensures Inv(s')
  {
    hide D.Inv, BlockIndex.Inv, InsertedFits, EntryRemembered, AllocationsFit, BatchFits, TailBlockFits,
         BlocksAccounted, NothingLeaked, FinishedFit, CountersFit, CellsFit, ConsumersFit, NothingDropped, ChainFits, BlocksFor,
         ConsumerFits, Stop, CellOf, BlockOf;
    InvPlacesNext(s.index);
    HeadInsideTail(s);
    ConsumerFit(s, t);
    TakenIsEnqueued(s, t, start, next, end, h, slot, block);
    TakeDisturbsNobody(s, s', t, next);
    TakeFits(s, s', t, start, next, end, h, slot, block);
    OthersFit(s, s', Some(t));
    ProducerSideCarriesOver(s, s');
    CountersStay(s, s');
    TakeCells(s, s', next);
    FinishedStays(s, s');
    MoveDrops(s, s', t);
    SameAccounts(s, s');
    LeaksCarryOver(s, s');
  }

  // Counting a block's elements as emptied

  lemma SpanSize(j: nat)
    ensures |Span(j)| == BLOCK_SIZE
  {
  }

  lemma SubsetSize(a: set<nat>, b: set<nat>)
    requires a <= b
    ensures |a| <= |b| && (|a| == |b| ==> a == b)
  {
    var rest := b - a;
    assert b == a + rest && a !! rest;
  }

  /** A block's count is at most its size, and full exactly when all of the block is finished. */
  lemma CountFull(finished: set<nat>, k: nat)
    ensures |finished * Span(k)| <= BLOCK_SIZE
    ensures |finished * Span(k)| == BLOCK_SIZE <==> Span(k) <= finished
  {
    SpanSize(k);
    SubsetSize(finished * Span(k), Span(k));
    if Span(k) <= finished { assert finished * Span(k) == Span(k); }
  }

  lemma CountInside(finished: set<nat>, j: nat, lo: nat, hi: nat)
    requires j * BLOCK_SIZE <= lo <= hi <= (j + 1) * BLOCK_SIZE
    requires forall i :: lo <= i < hi ==> i !in finished
    ensures |(finished + Interval(lo, hi)) * Span(j)| == |finished * Span(j)| + hi - lo
  {
    hide Interval;
    assert (finished + Interval(lo, hi)) * Span(j) == finished * Span(j) + Interval(lo, hi);
    assert finished * Span(j) !! Interval(lo, hi);
  }

  lemma CountOutside(finished: set<nat>, j: nat, lo: nat, hi: nat, k: nat)
    requires j * BLOCK_SIZE <= lo <= hi <= (j + 1) * BLOCK_SIZE && k != j
    ensures (finished + Interval(lo, hi)) * Span(k) == finished * Span(k)
    ensures Span(k) <= finished + Interval(lo, hi) <==> Span(k) <= finished
  {
    hide Interval;
    assert Interval(lo, hi) !! Span(k);
  }

  /** Finishing an interval inside block j raises its count by the interval's length and no other
      block's; a count is full exactly when all of its block is finished. */
  lemma FinishInterval(finished: set<nat>, j: nat, lo: nat, hi: nat, k: nat)
    requires j * BLOCK_SIZE <= lo <= hi <= (j + 1) * BLOCK_SIZE
    requires forall i :: lo <= i < hi ==> i !in finished
    ensures |(finished + Interval(lo, hi)) * Span(k)| == |finished * Span(k)| + if k == j then hi - lo else 0
    ensures |finished * Span(k)| <= BLOCK_SIZE
    ensures |finished * Span(k)| == BLOCK_SIZE <==> Span(k) <= finished
    ensures k != j ==> (Span(k) <= finished + Interval(lo, hi) <==> Span(k) <= finished)
  {
    hide Interval, Span;
    CountFull(finished, k);
    if k == j { CountInside(finished, j, lo, hi); } else { CountOutside(finished, j, lo, hi, k); }
  }

  lemma CountCounts<T>(s: State<T>, s': State<T>, j: nat, lo: nat, hi: nat)
    requires CountersFit(s) && BlocksAccounted(s) && j in s.index.live && s.index.live[j] in s.emptied
    requires j * BLOCK_SIZE <= lo <= hi <= (j + 1) * BLOCK_SIZE
    requires forall i :: lo <= i < hi ==> i !in s.finished
    requires s' == s.(emptied := s.emptied[s.index.live[j] := s.emptied[s.index.live[j]] + (hi - lo)],
                      finished := s.finished + Interval(lo, hi), consumers := s'.consumers)
    ensures CountersFit(s')
    ensures s'.emptied[s.index.live[j]] == BLOCK_SIZE <==> Span(j) <= s'.finished
  {
    hide Span, Interval;
    forall k | k in s'.index.live ensures CounterAt(s', k) {
      assert CounterAt(s, k);
      FinishInterval(s.finished, j, lo, hi, k);
    }
    assert CounterAt(s', j);
    CountFull(s'.finished, j);
    assert s.producer.Obtained? || s.producer.Built? ==> ProducerHolds(s.producer, s.producer.block);
  }

  lemma CountFinished<T>(s: State<T>, s': State<T>, lo: nat, hi: nat)
    requires FinishedFit(s) && hi <= Head(s)
    requires forall i :: lo <= i < hi ==> i in s.delivered
    requires s' == s.(emptied := s'.emptied, finished := s.finished + Interval(lo, hi), consumers := s'.consumers)
    ensures FinishedFit(s')
  {
    hide Interval, BlockOf;
  }

  lemma CountDisturbsNobody<T>(s: State<T>, s': State<T>, t: Tid, lo: nat, hi: nat)
    requires Shaped(s.index) && s'.index == s.index && s'.delivered == s.delivered && s'.claims == s.claims
    requires s'.finished == s.finished + Interval(lo, hi) && hi <= |s.claims.claims|
    requires forall i :: lo <= i < hi ==> s.claims.claims[i] == t
    requires t in s.consumers && s'.consumers.Keys == s.consumers.Keys
    requires forall u :: u in s.consumers && u != t ==> s'.consumers[u] == s.consumers[u]
    ensures Undisturbed(s, s', Some(t))
  {
    hide Interval;
  }

  /** What a consumer does after it has counted a stretch of block j. */
  function Counted(s: BlockIndex.State, full: bool, j: nat, next: nat, end: nat, h: nat, slot: nat, block: BlockId): Consumer
    requires Shaped(s) && h < |s.headers|
  {
    if full then Clearing(next, end, h, slot, block, j) else AfterBlock(s.headers[h], next, end, h, slot)
  }

  lemma CountFits<T>(s: State<T>, s': State<T>, t: Tid, start: nat, next: nat, end: nat, h: nat, slot: nat, block: BlockId,
                     full: bool)
    requires BlockIndex.Inv(s.index)
    requires t in s.consumers && s.consumers[t] == Taking(start, next, end, h, slot, block) && ConsumerFits(s, t)
    requires next == Stop(start, end) && (full <==> Span(BlockOf(start)) <= s'.finished)
    requires s'.index == s.index && s'.claims == s.claims && s'.delivered == s.delivered
    requires s'.consumers == s.consumers[t := Counted(s.index, full, BlockOf(start), next, end, h, slot, block)]
    ensures ConsumerFits(s', t)
  {
    hide Span, Interval, SlotOf;
    var j := BlockOf(start);
    NextSlotIsNextBlock(s.index, h, j);
    assert j < Until(s.index, h) by { assert j <= BlockOf(end - 1); }
    if next < end { assert next == (j + 1) * BLOCK_SIZE && BlockOf(next) == j + 1; }
  }

  lemma ClearersElsewhere<T>(s: State<T>, j: nat)
    requires ConsumersFit(s) && !(Span(j) <= s.finished)
    ensures forall u :: u in s.consumers && s.consumers[u].Clearing? ==> s.consumers[u].number != j
  {
    hide Span;
    forall u | u in s.consumers && s.consumers[u].Clearing? ensures s.consumers[u].number != j {
      ConsumerFit(s, u);
    }
  }

  lemma CountedOnHand<T>(s: State<T>, s': State<T>, t: Tid, start: nat, next: nat, end: nat, h: nat, slot: nat, block: BlockId)
    requires NothingDropped(s)
    requires t in s.consumers && s.consumers[t] == Taking(start, next, end, h, slot, block) && next <= end
    requires s'.finished == s.finished + Interval(start, next) && s'.claims == s.claims
    requires t in s'.consumers && s'.consumers == s.consumers[t := s'.consumers[t]]
    requires forall i: nat :: next <= i < end ==> OnHand(s'.consumers[t], i)
    ensures forall i: nat :: i < Head(s') && i !in s'.finished ==>
              i < |s'.claims.claims| && s'.claims.claims[i] in s'.consumers
              && OnHand(s'.consumers[s'.claims.claims[i]], i)
  {
    hide Interval;
  }

  lemma CountedClearers<T>(s: State<T>, s': State<T>, t: Tid, j: nat, lo: nat, hi: nat, k: nat)
    requires NothingDropped(s) && t in s.consumers && !s.consumers[t].Clearing?
    requires j * BLOCK_SIZE <= lo <= hi <= (j + 1) * BLOCK_SIZE && forall i :: lo <= i < hi ==> i !in s.finished
    requires t in s'.consumers && s'.consumers == s.consumers[t := s'.consumers[t]]
    requires s'.finished == s.finished + Interval(lo, hi) && s'.index == s.index
    requires k in s.index.live && Span(k) <= s'.finished && (k == j ==> ClearsBlock(s'.consumers[t], k))
    ensures exists u :: u in s'.consumers && ClearsBlock(s'.consumers[u], k)
  {
    hide Interval, Span, NothingDropped, ChainFits;
    if k != j {
      FinishInterval(s.finished, j, lo, hi, k);
      SameClearer(s, s', t, k);
    }
  }

  /** Where the consumer is after the count. */
  lemma CountedPlace(s: BlockIndex.State, full: bool, j: nat, next: nat, end: nat, h: nat, slot: nat, block: BlockId)
    requires Shaped(s) && h < |s.headers| && next <= end
    ensures var c := Counted(s, full, j, next, end, h, slot, block);
            && (c.Clearing? <==> full) && (full ==> ClearsBlock(c, j))
            && forall i: nat :: next <= i < end ==> OnHand(c, i)
  {
  }

  lemma ConsumersShaped<T>(s: State<T>)
    requires ConsumersFit(s)
    ensures Shaped(s.index)
  {
  }

  lemma CountDrops<T>(s: State<T>, s': State<T>, t: Tid, start: nat, next: nat, end: nat, h: nat, slot: nat, block: BlockId,
                      full: bool)
    requires NothingDropped(s) && ConsumersFit(s)
    requires t in s.consumers && s.consumers[t] == Taking(start, next, end, h, slot, block)
    requires h < |s.index.headers| && start !in s.finished && BlockOf(start) in s.index.live
    requires BlockOf(start) * BLOCK_SIZE <= start <= next <= (BlockOf(start) + 1) * BLOCK_SIZE && next <= end
    requires forall i :: start <= i < next ==> i !in s.finished
    requires full <==> Span(BlockOf(start)) <= s'.finished
    requires s'.finished == s.finished + Interval(start, next) && s'.claims == s.claims && s'.index == s.index
    requires s'.consumers == s.consumers[t := Counted(s.index, full, BlockOf(start), next, end, h, slot, block)]
    ensures NothingDropped(s')
  {
    hide Interval, BlockOf, Span, ConsumersFit, Shaped, Counted, OnHand;
    var j := BlockOf(start);
    assert Shaped(s.index) by { ConsumersShaped(s); }
    CountedPlace(s.index, full, j, next, end, h, slot, block);
    UnfinishedMeansNotFull(s.finished, start);
    CountedOnHand(s, s', t, start, next, end, h, slot, block);
    ClearersElsewhere(s, j);
    forall k | k in s'.index.live && Span(k) <= s'.finished
      ensures exists u :: u in s'.consumers && ClearsBlock(s'.consumers[u], k)
    {
      CountedClearers(s, s', t, j, start, next, k);
    }
  }

  lemma SameClearer<T>(s: State<T>, s': State<T>, t: Tid, k: nat)
    requires t in s.consumers && !s.consumers[t].Clearing? && k in s.index.live && Span(k) <= s.finished
    requires NothingDropped(s) && t in s'.consumers && s'.consumers == s.consumers[t := s'.consumers[t]]
    ensures exists u :: u in s'.consumers && ClearsBlock(s'.consumers[u], k)
  {
    var u :| u in s.consumers && ClearsBlock(s.consumers[u], k);
    assert ClearsBlock(s'.consumers[u], k);
  }

  lemma TakingFacts<T>(s: State<T>, t: Tid, start: nat, next: nat, end: nat, h: nat, slot: nat, block: BlockId)
    requires Shaped(s.index) && FinishedFit(s) && CountersFit(s)
    requires t in s.consumers && s.consumers[t] == Taking(start, next, end, h, slot, block) && ConsumerFits(s, t)
    requires next >= Stop(start, end)
    ensures next == Stop(start, end) && h < |s.index.headers| && next <= end && next <= |s.claims.claims|
    ensures BlockOf(start) in s.index.live && s.index.live[BlockOf(start)] == block && block in s.emptied
    ensures BlockOf(start) * BLOCK_SIZE <= start <= next <= (BlockOf(start) + 1) * BLOCK_SIZE
    ensures forall i :: start <= i < next ==> i !in s.finished && i in s.delivered && s.claims.claims[i] == t
    ensures start !in s.finished
  {
    hide Span;
    assert CounterAt(s, BlockOf(start));
  }

  lemma CountStep<T>(s: State<T>, s': State<T>, t: Tid, start: nat, next: nat, end: nat, h: nat, slot: nat, block: BlockId)
    requires Inv(s) && t in s.consumers && s.consumers[t] == Taking(start, next, end, h, slot, block)
    requires next >= Stop(start, end) && h < |s.index.headers| && block in s.emptied && start <= next
    requires var count := s.emptied[block] + (next - start);
             s' == s.(emptied := s.emptied[block := count], finished := s.finished + Interval(start, next),
                      consumers := s.consumers[t :=
                        Counted(s.index, count == BLOCK_SIZE, BlockOf(start), next, end, h, slot, block)])
    ensures Inv(s')
  {
    hide D.Inv, BlockIndex.Inv, InsertedFits, EntryRemembered, AllocationsFit, BatchFits, TailBlockFits,
         BlocksAccounted, NothingLeaked, FinishedFit, CountersFit, CellsFit, ConsumersFit, NothingDropped, ChainFits, BlocksFor,
         ConsumerFits, Stop, BlockOf, Interval, Span;
    InvPlacesNext(s.index);
    HeadInsideTail(s);
    ConsumerFit(s, t);
    TakingFacts(s, t, start, next, end, h, slot, block);
    CountCounts(s, s', BlockOf(start), start, next);
    CountFinished(s, s', start, next);
    CellsStay(s, s');
    CountDisturbsNobody(s, s', t, start, next);
    var full := s'.emptied[block] == BLOCK_SIZE;
    CountFits(s, s', t, start, next, end, h, slot, block, full);
    OthersFit(s, s', Some(t));
    ProducerSideCarriesOver(s, s');
    CountDrops(s, s', t, start, next, end, h, slot, block, full);
    SameAccounts(s, s');
    LeaksCarryOver(s, s');
  }

  // Giving a block back

  lemma ClearingFacts<T>(s: State<T>, t: Tid, next: nat, end: nat, h: nat, slot: nat, block: BlockId, number: nat)
    requires BlockIndex.Inv(s.index) && ConsumersFit(s) && FinishedFit(s) && Head(s) <= Tail(s)
    requires t in s.consumers && s.consumers[t] == Clearing(next, end, h, slot, block, number)
    ensures h < |s.index.headers| && slot < |s.index.headers[h].index|
    ensures s.index.headers[h].index[slot] == EntryOf(s.index, number)
    ensures number in s.index.live && s.index.live[number] == block && number < BlocksFor(Tail(s))
    ensures Span(number) <= s.finished
  {
    ConsumerFit(s, t);
    assert EntryIn(s.index, h, number) == EntryOf(s.index, number);
    assert number * BLOCK_SIZE in Span(number);
  }

  lemma ClearFits<T>(s: State<T>, s': State<T>, t: Tid, next: nat, end: nat, h: nat, slot: nat, block: BlockId, number: nat)
    requires Shaped(s.index) && Shaped(s'.index) && Extends(s.index, s'.index)
    requires t in s.consumers && s.consumers[t] == Clearing(next, end, h, slot, block, number) && ConsumerFits(s, t)
    requires s'.claims == s.claims && s'.delivered == s.delivered
    requires s'.consumers == s.consumers[t := Releasing(next, end, h, slot, block)]
    ensures ConsumerFits(s', t)
  {
    hide Span, SlotOf, Extends, Until;
    SlotsKept(s.index, s'.index, h, number);
    if next < end { assert BlockOf(next) == number + 1; }
  }

  lemma ClearKeepsBlock<T>(s: State<T>, s': State<T>, t: Tid, number: nat, u: Tid)
    requires ConsumersFit(s) && FinishedFit(s) && NothingDropped(s)
    requires t in s.consumers && s.consumers[t].Clearing? && s.consumers[t].number == number
    requires Span(number) <= s.finished && s'.index.live == s.index.live - {number}
    requires u in s.consumers && u != t
    ensures BlockKept(s, s', s.consumers[u])
  {
    hide Span, ConsumersFit, BlockOf;
    if s.consumers[u].Taking? {
      StartUnfinished(s, u);
      UnfinishedMeansNotFull(s.finished, s.consumers[u].start);
    }
  }

  /** Consumers inside a block keep it: a block being cleared has nobody left in it. */
  lemma ClearDisturbsNobody<T>(s: State<T>, s': State<T>, t: Tid, number: nat)
    requires ConsumersFit(s) && FinishedFit(s) && NothingDropped(s)
    requires t in s.consumers && s.consumers[t].Clearing? && s.consumers[t].number == number
    requires Span(number) <= s.finished && s'.index.live == s.index.live - {number}
    requires Shaped(s.index) && Shaped(s'.index) && Extends(s.index, s'.index)
    requires s'.claims == s.claims && s'.delivered == s.delivered && s'.finished == s.finished
    requires s'.consumers.Keys == s.consumers.Keys
    requires forall u :: u in s.consumers && u != t ==> s'.consumers[u] == s.consumers[u]
    ensures Undisturbed(s, s', Some(t))
  {
    hide Extends, Span, ConsumersFit, FinishedFit, NothingDropped, ChainFits, BlockKept;
    forall u | u in s.consumers && u != t ensures BlockKept(s, s', s.consumers[u]) {
      ClearKeepsBlock(s, s', t, number, u);
    }
  }

  lemma ClearAllocates<T>(s: State<T>, s': State<T>, number: nat)
    requires AllocationsFit(s) && number < BlocksFor(Tail(s)) && s'.index.live == s.index.live - {number}
    requires s'.index.low == s.index.low && s'.claims == s.claims && s'.producer == s.producer
    ensures AllocationsFit(s')
  {
    forall k: nat | k < |Allocated(s'.producer)| ensures AllocationAt(s', k) {
      assert AllocationAt(s, k);
    }
  }

  lemma ClearAccounts<T>(s: State<T>, s': State<T>, t: Tid, next: nat, end: nat, h: nat, slot: nat, block: BlockId,
                         number: nat)
    requires BlocksAccounted(s) && number in s.index.live && s.index.live[number] == block
    requires t in s.consumers && s.consumers[t].Clearing?
    requires s'.index.live == s.index.live - {number} && s'.inUse == s.inUse && s'.producer == s.producer
    requires s'.consumers == s.consumers[t := Releasing(next, end, h, slot, block)]
    ensures BlocksAccounted(s')
  {
  }

  lemma ClearLeaks<T>(s: State<T>, s': State<T>, t: Tid, number: nat)
    requires NothingLeaked(s) && number in s.index.live && s'.index.live == s.index.live - {number}
    requires t in s.consumers && s.consumers[t].Clearing? && s'.inUse == s.inUse && s'.producer == s.producer
    requires t in s'.consumers && ConsumerHolds(s'.consumers[t], s.index.live[number])
    requires s'.consumers == s.consumers[t := s'.consumers[t]]
    ensures NothingLeaked(s')
  {
    forall c: BlockId | c in s'.inUse ensures Whereabouts(s', c) {
      if c != s.index.live[number] { WhereaboutsKept(s, s', c); }
    }
  }

  /** Unfinished and unpublished elements are in other blocks than one that is all finished. */
  lemma ClearedElsewhere<T>(s: State<T>, number: nat)
    requires FinishedFit(s) && Span(number) <= s.finished && Head(s) <= Tail(s)
    ensures forall i: nat :: i !in s.finished || i !in s.delivered ==> BlockOf(i) != number
    ensures Tail(s) % BLOCK_SIZE != 0 ==> number != BlocksFor(Tail(s)) - 1
  {
    forall i: nat | i !in s.finished || i !in s.delivered ensures BlockOf(i) != number {
      UnfinishedMeansNotFull(s.finished, i);
    }
    assert Tail(s) !in s.finished;
  }

  lemma ClearProducer<T>(s: State<T>, s': State<T>, number: nat)
    requires BlockIndex.Inv(s.index) && InsertedFits(s) && EntryRemembered(s) && BatchFits(s)
    requires Shaped(s'.index) && Extends(s.index, s'.index) && s'.index.low == s.index.low
    requires s'.index.inserted == s.index.inserted && s'.index.pending == s.index.pending
    requires s'.claims == s.claims && s'.producer == s.producer
    ensures InsertedFits(s') && EntryRemembered(s') && BatchFits(s')
  {
    hide BlocksFor, SlotOf, EntryOf;
  }

  lemma ClearTail<T>(s: State<T>, s': State<T>, number: nat)
    requires TailBlockFits(s) && s'.index.live == s.index.live - {number}
    requires Tail(s) % BLOCK_SIZE != 0 ==> number != BlocksFor(Tail(s)) - 1
    requires s'.claims == s.claims && s'.tailBlock == s.tailBlock
    ensures TailBlockFits(s')
  {
    hide BlocksFor;
  }

  lemma ClearStep<T>(s: State<T>, s': State<T>, t: Tid, next: nat, end: nat, h: nat, slot: nat, block: BlockId,
                     number: nat)
    requires Inv(s) && t in s.consumers && s.consumers[t] == Clearing(next, end, h, slot, block, number)
    requires h < |s.index.headers| && slot < |s.index.headers[h].index|
    requires s' == s.(index := ClearValue(s.index, s.index.headers[h].index[slot], number),
                      consumers := s.consumers[t := Releasing(next, end, h, slot, block)])
    ensures Inv(s')
  {
    hide D.Inv, BlockIndex.Inv, InsertedFits, EntryRemembered, AllocationsFit, BatchFits, TailBlockFits,
         BlocksAccounted, NothingLeaked, FinishedFit, CountersFit, CellsFit, ConsumersFit, NothingDropped, ChainFits, BlocksFor,
         ConsumerFits, BlockOf, Span, EntryOf;
    HeadInsideTail(s);
    ClearingFacts(s, t, next, end, h, slot, block, number);
    ClearValueKeepsInv(s.index, number);
    InvPlacesNext(s'.index);
    ClearedElsewhere(s, number);
    InvPlacesNext(s.index);
    ConsumerFit(s, t);
    ClearFits(s, s', t, next, end, h, slot, block, number);
    ClearDisturbsNobody(s, s', t, number);
    OthersFit(s, s', Some(t));
    ClearProducer(s, s', number);
    ChainUntouched(s, s');
    ClearAllocates(s, s', number);
    ClearTail(s, s', number);
    ClearAccounts(s, s', t, next, end, h, slot, block, number);
    ClearLeaks(s, s', t, number);
    CountersStay(s, s');
    CellsStay(s, s');
    FinishedStays(s, s');
    MoveDrops(s, s', t);
  }

  lemma ReleaseFits<T>(s: State<T>, s': State<T>, t: Tid, next: nat, end: nat, h: nat, slot: nat, block: BlockId)
    requires BlockIndex.Inv(s.index) && ConsumersFit(s)
    requires t in s.consumers && s.consumers[t] == Releasing(next, end, h, slot, block)
    requires h < |s.index.headers| && s'.index == s.index && s'.claims == s.claims && s'.delivered == s.delivered
    requires s'.consumers == s.consumers[t := AfterBlock(s.index.headers[h], next, end, h, slot)]
    ensures ConsumerFits(s', t)
  {
    hide SlotOf;
    ConsumerFit(s, t);
    if next < end {
      NextSlotIsNextBlock(s.index, h, BlockOf(next) - 1);
    }
  }

  /** A block is given back exactly once: it is in use, out of the index and in no other hand. */
  lemma ReleaseAccounts<T>(s: State<T>, s': State<T>, t: Tid, c: Consumer, block: BlockId)
    requires BlocksAccounted(s) && t in s.consumers && s.consumers[t].Releasing? && s.consumers[t].block == block
    requires s'.inUse == s.inUse - {block} && s'.index.live == s.index.live && s'.producer == s.producer
    requires s'.consumers == s.consumers[t := c] && !c.Releasing?
    ensures BlocksAccounted(s')
    ensures block in s.inUse && forall u :: u in s.consumers && u != t ==> !ConsumerHolds(s.consumers[u], block)
  {
  }

  lemma ReleaseLeaks<T>(s: State<T>, s': State<T>, t: Tid, c: Consumer, block: BlockId)
    requires NothingLeaked(s) && t in s.consumers && s.consumers[t].Releasing? && s.consumers[t].block == block
    requires s'.inUse == s.inUse - {block} && s'.index.live == s.index.live && s'.producer == s.producer
    requires s'.consumers == s.consumers[t := c]
    ensures NothingLeaked(s')
  {
    forall b: BlockId | b in s'.inUse ensures Whereabouts(s', b) {
      WhereaboutsKept(s, s', b);
    }
  }

  lemma ReleaseStep<T>(s: State<T>, s': State<T>, t: Tid, next: nat, end: nat, h: nat, slot: nat, block: BlockId)
    requires Inv(s) && t in s.consumers && s.consumers[t] == Releasing(next, end, h, slot, block)
    requires h < |s.index.headers|
    requires s' == s.(inUse := s.inUse - {block},
                      consumers := s.consumers[t := AfterBlock(s.index.headers[h], next, end, h, slot)])
    ensures Inv(s')
  {
    hide D.Inv, BlockIndex.Inv, InsertedFits, EntryRemembered, AllocationsFit, BatchFits, TailBlockFits,
         BlocksAccounted, NothingLeaked, FinishedFit, CountersFit, CellsFit, ConsumersFit, NothingDropped, ChainFits, BlocksFor,
         ConsumerFits, BlockOf, Span;
    InvPlacesNext(s.index);
    var c := AfterBlock(s.index.headers[h], next, end, h, slot);
    ReleaseFits(s, s', t, next, end, h, slot, block);
    WinDisturbsNobody(s, s', t);
    OthersFit(s, s', Some(t));
    ProducerSideCarriesOver(s, s');
    ReleaseAccounts(s, s', t, c, block);
    ReleaseLeaks(s, s', t, c, block);
    CountersStay(s, s');
    CellsStay(s, s');
    ReleaseRange(s, t);
    MoveDrops(s, s', t);
    FinishedStays(s, s');
  }

  lemma ReleaseRange<T>(s: State<T>, t: Tid)
    requires ConsumersFit(s) && t in s.consumers && s.consumers[t].Releasing?
    ensures s.consumers[t].next <= s.consumers[t].end
  {
    ConsumerFit(s, t);
  }

  // ---------------------------------------------------------------------------
  // Every step keeps the invariant, and nobody ever gets stuck
  // ---------------------------------------------------------------------------

  lemma ElsewhereCounts<T>(s: State<T>, s': State<T>, b: BlockId, count: nat)
    requires CountersFit(s) && BlocksAccounted(s) && b !in s.inUse
    requires s'.emptied == s.emptied[b := count] && s'.finished == s.finished && s'.index == s.index && s'.producer == s.producer
    ensures CountersFit(s')
  {
    hide Span;
    forall j | j in s'.index.live ensures CounterAt(s', j) {
      assert CounterAt(s, j);
    }
    assert s.producer.Obtained? || s.producer.Built? ==> ProducerHolds(s.producer, s.producer.block);
  }

  lemma LiveInUse<T>(s: State<T>)
    requires BlocksAccounted(s)
    ensures forall j :: j in s.index.live ==> s.index.live[j] in s.inUse
  {
  }

  /** Blocks that are not in use here may change in any way. */
  lemma ElsewhereStep<T>(s: State<T>, s': State<T>, b: BlockId, link: Option<BlockId>, count: nat, cell: nat, item: T)
    requires Inv(s) && b !in s.inUse
    requires s' == s.(next := s.next[b := link], emptied := s.emptied[b := count], cells := s.cells[(b, cell) := item])
    ensures Inv(s')
  {
    hide D.Inv, BlockIndex.Inv, InsertedFits, EntryRemembered, AllocationsFit, BatchFits, TailBlockFits,
         BlocksAccounted, NothingLeaked, FinishedFit, CountersFit, CellsFit, ConsumersFit, NothingDropped, ChainFits,
         BlocksFor;
    InvPlacesNext(s.index);
    LiveInUse(s);
    ElsewhereCounts(s, s', b, count);
    CellsOutside(s, s', b, cell, item);
    ChainElsewhere(s, s', b, link);
    ProducerSideStays(s, s');
    ProducerDisturbsNobody(s, s');
    OthersFit(s, s', None);
    SameAccounts(s, s');
    LeaksCarryOver(s, s');
    FinishedStays(s, s');
    DropsStay(s, s');
  }

  lemma InsertedWhileAllocating<T>(s: State<T>)
    requires InsertedFits(s) && s.producer.Allocating?
    ensures s.index.inserted == BlocksFor(Tail(s)) + |s.producer.blocks|
  {
  }

  lemma AllocationStepKeepsInv<T>(s: State<T>, luck: Luck)
    requires Inv(s) && ProducerEnabled(s, luck)
    requires var p := s.producer;
             p.Allocating? || p.KeyStored? || p.TailStored? || p.Obtained? || p.Built? || p.Linking?
    ensures Inv(Produced(s, luck))
  {
    hide D.Inv, BlockIndex.Inv, InsertedFits, EntryRemembered, AllocationsFit, BatchFits, TailBlockFits,
         BlocksAccounted, NothingLeaked, FinishedFit, CountersFit, CellsFit, ConsumersFit, NothingDropped, ChainFits, BlocksFor,
         StoreKey, StoreTail, StoreValue, Grow, Rewind, NextEntry, NextSlot, Shaped, HasRoom, StartOrWrite, StartWalk, MustLink, EndBlock, CellOf;
    var s' := Produced(s, luck);
    match s.producer
    case Allocating(items, blocks) =>
      InsertedWhileAllocating(s);
      if HasRoom(s.index) {
        StoreKeyStep(s, s', items, blocks);
      } else if luck.indexMemory {
        GrowStep(s, s', luck.garbage);
      } else {
        GiveUpStep(s, s', items, blocks);
      }
    case KeyStored(items, blocks, entry) => StoreTailStep(s, s', items, blocks, entry);
    case TailStored(items, blocks, entry) =>
      if luck.block.Some? {
        ObtainStep(s, s', items, blocks, entry, luck.block.value);
      } else {
        RewindStep(s, s', items, blocks, entry);
      }
    case Obtained(items, blocks, entry, b) =>
      if luck.early && |items| == 1 && blocks == [] {
        BuildStep(s, s', items, entry, b);
      } else {
        StoreValueStep(s, s', items, blocks, entry, b);
      }
    case Built(items, blocks, entry, b) => BuiltStep(s, s', items, blocks, entry, b);
    case Linking(items, blocks) => LinkStep(s, s', items, blocks);
  }

  lemma WritingRange<T>(s: State<T>)
    requires BatchFits(s)
    ensures s.producer.Writing? ==> s.producer.written <= |s.producer.items|
  {
  }

  lemma ReturningRange<T>(s: State<T>)
    requires BlocksAccounted(s)
    ensures s.producer.Returning? ==> s.producer.returned <= |s.producer.blocks|
  {
  }

  lemma WritingStepKeepsInv<T>(s: State<T>, luck: Luck)
    requires Inv(s) && ProducerEnabled(s, luck) && s.producer.Writing?
    ensures Inv(Produced(s, luck))
  {
    hide D.Inv, BlockIndex.Inv, InsertedFits, EntryRemembered, AllocationsFit, BatchFits, TailBlockFits,
         BlocksAccounted, NothingLeaked, FinishedFit, CountersFit, CellsFit, ConsumersFit, NothingDropped, ChainFits, BlocksFor,
         Shaped, WriteBlock, BlockOf, CellOf, EndBlock, Stop;
    var s' := Produced(s, luck);
    var items, blocks, written := s.producer.items, s.producer.blocks, s.producer.written;
    WritingRange(s);
    if Tail(s) + written != s.walk.stop {
      WriteStep(s, s', items, blocks, written);
    } else {
      WalkFollowsChain(s);
      if s.walk.cursor != EndBlock(s.tailBlock, blocks) {
        WalkStep(s, s', items, blocks, written);
      } else {
        PublishStep(s, s', items, blocks);
      }
    }
  }

  lemma UndoStepKeepsInv<T>(s: State<T>, luck: Luck)
    requires Inv(s) && ProducerEnabled(s, luck)
    requires var p := s.producer; p.Resting? || p.Rewound? || p.Undoing? || p.UndoRewinding? || p.Returning?
    ensures Inv(Produced(s, luck))
  {
    hide D.Inv, BlockIndex.Inv, InsertedFits, EntryRemembered, AllocationsFit, BatchFits, TailBlockFits,
         BlocksAccounted, NothingLeaked, FinishedFit, CountersFit, CellsFit, ConsumersFit, NothingDropped, ChainFits, BlocksFor,
         ClearPending, ClearValue, Rewind, Shaped, OwnLookup, TailEntry;
    var s' := Produced(s, luck);
    UndoingRange(s);
    ReturningRange(s);
    if s.producer.Undoing? || s.producer.UndoRewinding? || s.producer.Returning? { UndoFollowsChain(s); }
    match s.producer
    case Resting =>
    case Rewound(blocks, entry) => ClearPendingStep(s, s', blocks, entry);
    case Undoing(blocks, undone) =>
      if undone < |blocks| { UndoClearStep(s, s', blocks, undone); } else { UndoneStep(s, s', blocks); }
    case UndoRewinding(blocks, undone) => UndoRewindStep(s, s', blocks, undone);
    case Returning(blocks, returned) =>
      if returned < |blocks| { ReturnStep(s, s', blocks, returned); } else { ReturnedStep(s, s', blocks); }
  }

  lemma StopRange(start: nat, end: nat)
    requires start < end
    ensures start < Stop(start, end) <= end
  {
  }

  lemma LookupStepKeepsInv<T>(s: State<T>, t: Tid)
    requires Inv(s) && ConsumerEnabled(s, t)
    requires var c := s.consumers[t]; c.Located? || c.HeaderLoaded? || c.SlotLoaded? || c.AtBlock?
    ensures Inv(Consumed(s, t))
  {
    hide D.Inv, BlockIndex.Inv, InsertedFits, EntryRemembered, AllocationsFit, BatchFits, TailBlockFits,
         BlocksAccounted, NothingLeaked, FinishedFit, CountersFit, CellsFit, ConsumersFit, NothingDropped, ChainFits, BlocksFor,
         BlockOf, SlotOf, SlotFromTail;
    InvPlacesNext(s.index);
    HeadInsideTail(s);
    ConsumerFit(s, t);
    var s' := Consumed(s, t);
    match s.consumers[t] {
      case Located(next, end) => LocatedFits(s, t, next, end);
      case HeaderLoaded(next, end, h) => TailLoadFits(s, t, next, end, h);
      case SlotLoaded(next, end, h, tail, seen) => KeyLoadFits(s, t, next, end, h, tail, seen);
      case AtBlock(next, end, h, slot) =>
        ValueLoadFits(s, t, next, end, h, slot);
        StopRange(next, end);
    }
    MoveStep(s, s', t);
  }

  lemma BlockStepKeepsInv<T>(s: State<T>, t: Tid)
    requires Inv(s) && ConsumerEnabled(s, t)
    requires var c := s.consumers[t]; c.Taking? || c.Clearing? || c.Releasing?
    ensures Inv(Consumed(s, t))
  {
    hide D.Inv, BlockIndex.Inv, InsertedFits, EntryRemembered, AllocationsFit, BatchFits, TailBlockFits,
         BlocksAccounted, NothingLeaked, FinishedFit, CountersFit, CellsFit, ConsumersFit, NothingDropped, ChainFits, BlocksFor,
         BlockOf, CellOf, Stop, ClearValue, Interval, ConsumerFits, Shaped;
    var s' := Consumed(s, t);
    match s.consumers[t]
    case Taking(start, next, end, h, slot, block) =>
      if next < Stop(start, end) {
        TakeStep(s, s', t, start, next, end, h, slot, block);
      } else {
        CountStep(s, s', t, start, next, end, h, slot, block);
      }
    case Clearing(next, end, h, slot, block, number) => ClearStep(s, s', t, next, end, h, slot, block, number);
    case Releasing(next, end, h, slot, block) => ReleaseStep(s, s', t, next, end, h, slot, block);
  }

  /** The claim protocol touches only its own thread, and wins only in its last step. */
  lemma ClaimStepFrame(c: D.State, t: Tid)
    requires t in c.threads && !c.threads[t].Idle?
    ensures var c' := D.Advanced(c, t);
            && c'.threads.Keys == c.threads.Keys && c'.tail == c.tail
            && (forall u :: u in c.threads && u != t ==> c'.threads[u] == c.threads[u])
            && (!c.threads[t].Claiming? ==> c'.claims == c.claims && c'.head == c.head)
  {
    hide D.Resolve;
  }

  lemma ClaimStepKeepsInv<T>(s: State<T>, t: Tid)
    requires Inv(s) && ConsumerEnabled(s, t) && s.consumers[t].Outside?
    ensures Inv(Consumed(s, t))
  {
    hide D.Inv, BlockIndex.Inv, InsertedFits, EntryRemembered, AllocationsFit, BatchFits, TailBlockFits,
         BlocksAccounted, NothingLeaked, FinishedFit, CountersFit, CellsFit, ConsumersFit, NothingDropped, ChainFits, BlocksFor, Shaped,
         D.Advanced;
    var s' := Consumed(s, t);
    ClaimStepFrame(s.claims, t);
    if s.claims.threads[t].Claiming? {
      WinStep(s, s', t, s.claims.threads[t].mine, s.claims.threads[t].actual);
    } else {
      assert D.Apply(s.claims, D.Advance(t)) == D.Advanced(s.claims, t);
      D.StepKeepsInv(s.claims, D.Advance(t));
      ClaimWorkStep(s, s', t);
    }
  }

  lemma StepKeepsInv<T>(s: State<T>, a: Action<T>)
    requires Inv(s) && Enabled(s, a)
    ensures Inv(Apply(s, a))
  {
    hide D.Inv, BlockIndex.Inv, InsertedFits, EntryRemembered, AllocationsFit, BatchFits, TailBlockFits,
         BlocksAccounted, NothingLeaked, FinishedFit, CountersFit, CellsFit, ConsumersFit, NothingDropped, ChainFits, BlocksFor, Shaped,
         Produced, Consumed;
    match a
    case Enqueue(items) => EnqueueKeepsInv(s, items);
    case Produce(luck) =>
      var p := s.producer;
      if p.Allocating? || p.KeyStored? || p.TailStored? || p.Obtained? || p.Built? || p.Linking? {
        AllocationStepKeepsInv(s, luck);
      } else if p.Writing? {
        WritingStepKeepsInv(s, luck);
      } else {
        UndoStepKeepsInv(s, luck);
      }
    case Dequeue(t, max) =>
      D.StepKeepsInv(s.claims, D.Begin(t, max));
      ClaimWorkStep(s, Apply(s, a), t);
    case Elsewhere(b, link, count, cell, item) => ElsewhereStep(s, Apply(s, a), b, link, count, cell, item);
    case Consume(t) =>
      var c := s.consumers[t];
      if c.Outside? {
        ClaimStepKeepsInv(s, t);
      } else if c.Taking? || c.Clearing? || c.Releasing? {
        BlockStepKeepsInv(s, t);
      } else {
        LookupStepKeepsInv(s, t);
      }
  }

  /** The producer is never stuck and never uses a dangling block, an invalid entry or a missing link:
      whatever the allocator answers, its next step is possible. */
  lemma ProducerNeverStuck<T>(s: State<T>, luck: Luck)
    requires Inv(s) && !s.producer.Resting?
    requires luck.block.Some? ==> luck.block.value !in s.inUse
    ensures ProducerEnabled(s, luck)
  {
    hide D.Inv, BlockIndex.Inv, AllocationsFit, BatchFits, TailBlockFits, WriteBlock, BlocksFor, BlockOf, ChainFits,
         BlocksAccounted, NothingLeaked, FinishedFit, CountersFit, CellsFit, ConsumersFit, NothingDropped, TailEntry;
    InvPlacesNext(s.index);
    match s.producer
    case Writing(_, _, _) =>
      WritingRange(s);
      if Tail(s) + s.producer.written != s.walk.stop { CursorIsLive(s); } else { WalkFollowsChain(s); }
    case Linking(_, blocks) =>
      LinkingRange(s);
      if MustLink(s, blocks) { LinkTargetIsLive(s); }
    case Undoing(blocks, undone) =>
      UndoFollowsChain(s);
      if undone < |blocks| {
        UndoneIsLive(s);
        OwnLookupFinds(s, BlocksFor(Tail(s)) + undone);
      }
    case UndoRewinding(_, _) => UndoFollowsChain(s);
    case Returning(_, _) => UndoFollowsChain(s);
    case Obtained(_, _, _, _) => PendingEntryExists(s);
    case Built(_, _, _, _) => PendingEntryExists(s);
    case Rewound(_, _) => PendingEntryExists(s);
    case _ =>
  }

  lemma LinkingRange<T>(s: State<T>)
    requires BatchFits(s)
    ensures s.producer.Linking? ==> |s.producer.blocks| > 0
  {
  }

  /** What following links from a block on leads to. */
  ghost predicate IsChain(next: map<BlockId, Option<BlockId>>, first: Option<BlockId>, blocks: seq<BlockId>)
    decreases |blocks|
  {
    match first
    case None => blocks == []
    case Some(b) => blocks != [] && blocks[0] == b && b in next && IsChain(next, next[b], blocks[1..])
  }

  lemma {:induction false} LinkedIsChain(next: map<BlockId, Option<BlockId>>, blocks: seq<BlockId>, k: nat)
    requires Linked(next, blocks, k) && k <= |blocks|
    ensures IsChain(next, At(blocks, k), blocks[k..])
    decreases |blocks| - k
  {
    if k < |blocks| {
      assert LinkAt(next, blocks, k);
      LinkedIsChain(next, blocks, k + 1);
      assert blocks[k..][1..] == blocks[k + 1..];
    }
  }

  /** While a batch is under way, following the links from its first block leads through exactly the
      blocks it has allocated, in order, and then nowhere; a start block with room leads to the first
      of them. */
  lemma ChainIsExactlyBlocks<T>(s: State<T>)
    requires Inv(s) && !s.producer.Resting? && !s.producer.Returning?
    ensures var blocks := if s.producer.Linking? then s.producer.blocks[..|s.producer.blocks| - 1]
                          else if s.producer.Built? then [] else s.producer.blocks;
            && IsChain(s.next, At(blocks, 0), blocks)
            && (Tail(s) % BLOCK_SIZE != 0 && blocks != [] && !s.producer.Rewound? && !s.producer.Undoing?
                && !s.producer.UndoRewinding? ==>
                  s.tailBlock.Some? && IsChain(s.next, s.tailBlock, [s.tailBlock.value] + blocks))
  {
    hide D.Inv, BlockIndex.Inv, InsertedFits, EntryRemembered, AllocationsFit, TailBlockFits, BlocksFor,
         BlocksAccounted, NothingLeaked, FinishedFit, CountersFit, CellsFit, ConsumersFit, NothingDropped;
    LinkingRange(s);
    var blocks := if s.producer.Linking? then s.producer.blocks[..|s.producer.blocks| - 1]
                  else if s.producer.Built? then [] else s.producer.blocks;
    LinkedIsChain(s.next, blocks, 0);
    assert blocks[0..] == blocks;
    if s.tailBlock.Some? { assert ([s.tailBlock.value] + blocks)[1..] == blocks; }
  }

  lemma UndoneIsLive<T>(s: State<T>)
    requires InsertedFits(s) && AllocationsFit(s) && s.producer.Undoing? && s.producer.undone < |s.producer.blocks|
    ensures BlocksFor(Tail(s)) + s.producer.undone in s.index.live && s.index.low < s.index.inserted
  {
    assert AllocationAt(s, s.producer.undone);
  }

  lemma PendingEntryExists<T>(s: State<T>)
    requires Shaped(s.index) && EntryRemembered(s) && (s.producer.Obtained? || s.producer.Built? || s.producer.Rewound?)
    ensures s.index.pending.Some? && s.producer.entry < |s.index.entries|
  {
  }

  /** A consumer inside a dequeue is never stuck: its header, slot, key, block and cell exist. */
  lemma ConsumerNeverStuck<T>(s: State<T>, t: Tid)
    requires Inv(s) && t in s.consumers && (s.consumers[t].Outside? ==> !s.claims.threads[t].Idle?)
    requires t in s.claims.threads
    ensures ConsumerEnabled(s, t)
  {
    hide D.Inv, BlockIndex.Inv, InsertedFits, EntryRemembered, AllocationsFit, BatchFits, TailBlockFits,
         BlocksAccounted, NothingLeaked, FinishedFit, CountersFit, CellsFit, ConsumersFit, NothingDropped, ChainFits, BlocksFor,
         BlockOf, CellOf, Stop, Span;
    InvPlacesNext(s.index);
    HeadInsideTail(s);
    ConsumerFit(s, t);
    match s.consumers[t]
    case SlotLoaded(next, end, h, tail, seen) => KeyLoadFits(s, t, next, end, h, tail, seen);
    case AtBlock(next, end, h, slot) => ValueLoadFits(s, t, next, end, h, slot);
    case Taking(start, next, end, h, slot, block) =>
      TakingCounter(s, t, start, next, end, h, slot, block);
      if next < Stop(start, end) { TakenIsEnqueued(s, t, start, next, end, h, slot, block); }
    case _ =>
  }

  lemma TakingCounter<T>(s: State<T>, t: Tid, start: nat, next: nat, end: nat, h: nat, slot: nat, block: BlockId)
    requires Shaped(s.index) && CountersFit(s)
    requires t in s.consumers && s.consumers[t] == Taking(start, next, end, h, slot, block) && ConsumerFits(s, t)
    ensures block in s.emptied && start <= next && h < |s.index.headers|
  {
    hide Span;
    assert CounterAt(s, BlockOf(start));
  }

  // ---------------------------------------------------------------------------
  // Runs
  // ---------------------------------------------------------------------------

  ghost predicate Next<T(!new)>(s: State<T>, s': State<T>) {
    exists a: Action<T> :: Enabled(s, a) && s' == Apply(s, a)
  }

  ghost predicate IsRun<T(!new)>(run: seq<State<T>>, threads: set<Tid>, garbage: Option<BlockId>) {
    && |run| > 0 && run[0] == Init(threads, garbage)
    && forall i :: 0 <= i < |run| - 1 ==> Next(run[i], run[i + 1])
  }

  lemma {:induction false} RunInv<T(!new)>(run: seq<State<T>>, threads: set<Tid>, garbage: Option<BlockId>, i: nat)
    requires IsRun(run, threads, garbage) && i < |run|
    ensures Inv(run[i])
  {
    hide Inv, Enabled, Apply;
    if i == 0 {
      InitInv<T>(threads, garbage);
    } else {
      RunInv(run, threads, garbage, i - 1);
      assert Next(run[i - 1], run[i - 1 + 1]);
      var a: Action<T> :| Enabled(run[i - 1], a) && run[i] == Apply(run[i - 1], a);
      StepKeepsInv(run[i - 1], a);
    }
  }

  /** In every state of every run, whatever has been delivered from index i is the i-th element
      ever enqueued, and only published elements are delivered. */
  lemma DeliversWhatWasEnqueued<T(!new)>(run: seq<State<T>>, threads: set<Tid>, garbage: Option<BlockId>, i: nat, k: nat)
    requires IsRun(run, threads, garbage) && i < |run| && k in run[i].delivered
    ensures k < |run[i].elements| && run[i].delivered[k] == run[i].elements[k]
  {
    RunInv(run, threads, garbage, i);
    DeliveredFits(run[i], k);
  }

  lemma RestingFinished<T>(s: State<T>)
    requires NothingDropped(s) && FinishedFit(s) && CellsFit(s)
    requires forall t :: t in s.consumers ==> s.consumers[t].Outside?
    ensures forall k: nat :: k in s.finished <==> k < Head(s)
    ensures forall k: nat :: k in s.delivered <==> k < Head(s)
    ensures forall j :: j in s.index.live ==> !(Span(j) <= s.finished)
  {
    hide BlockOf;
  }

  /** A block that still holds an element, or has room for the next one, is in the index. */
  lemma NeededIsLive<T>(s: State<T>, j: nat)
    requires FinishedFit(s) && TailBlockFits(s) && Head(s) <= Tail(s)
    requires forall k: nat :: k in s.finished <==> k < Head(s)
    requires Head(s) / BLOCK_SIZE <= j < BlocksFor(Tail(s))
    ensures j in s.index.live
  {
    if Head(s) <= j * BLOCK_SIZE {
      assert BlockOf(j * BLOCK_SIZE) == j;
    } else if Head(s) < Tail(s) {
      assert BlockOf(Head(s)) == j;
    }
  }

  lemma RestingBlocks<T>(s: State<T>, j: nat)
    requires FinishedFit(s) && AllocationsFit(s) && TailBlockFits(s) && s.producer.Resting? && Head(s) <= Tail(s)
    requires forall k: nat :: k in s.finished <==> k < Head(s)
    requires j in s.index.live ==> !(Span(j) <= s.finished)
    ensures j in s.index.live <==> Head(s) / BLOCK_SIZE <= j < BlocksFor(Tail(s))
  {
    if Head(s) / BLOCK_SIZE <= j < BlocksFor(Tail(s)) { NeededIsLive(s, j); }
    if j in s.index.live {
      var i :| i in Span(j) && i !in s.finished;
    }
  }

  /** When producer and consumers rest, exactly the first Head elements have been delivered, and
      the blocks in use are exactly those that still hold an element or have room for one: every
      other block has been given back. */
  lemma RestingState<T>(s: State<T>)
    requires Inv(s) && s.producer.Resting?
    requires forall t :: t in s.consumers ==> s.consumers[t].Outside?
    ensures forall k: nat :: k in s.delivered <==> k < Head(s)
    ensures forall j: nat :: j in s.index.live <==> Head(s) / BLOCK_SIZE <= j < BlocksFor(Tail(s))
    ensures s.inUse == s.index.live.Values
  {
    hide D.Inv, BlockIndex.Inv, InsertedFits, EntryRemembered, BatchFits, TailBlockFits, AllocationsFit, FinishedFit,
         CountersFit, CellsFit, ConsumersFit, NothingDropped, ChainFits, BlocksFor, Span, NothingLeaked, BlocksAccounted;
    HeadInsideTail(s);
    RestingFinished(s);
    forall j: nat ensures j in s.index.live <==> Head(s) / BLOCK_SIZE <= j < BlocksFor(Tail(s)) {
      RestingBlocks(s, j);
    }
    RestingInUse(s);
  }

  lemma IndexFrame<T>(s: State<T>, luck: Luck)
    requires ProducerEnabled(s, luck) && (s.producer.Allocating? || s.producer.KeyStored? || s.producer.TailStored?)
    ensures var s' := Produced(s, luck);
            && s'.claims == s.claims && s'.consumers == s.consumers
            && (luck.block.None? || !s.producer.TailStored? ==> s'.inUse == s.inUse)
  {
    hide StoreKey, StoreTail, Grow, Rewind, NextEntry, NextSlot, Shaped, HasRoom, BlocksFor;
  }

  lemma NewBlockFrame<T>(s: State<T>, luck: Luck)
    requires ProducerEnabled(s, luck) && (s.producer.Obtained? || s.producer.Built? || s.producer.Linking?)
    ensures var s' := Produced(s, luck);
            s'.claims == s.claims && s'.consumers == s.consumers && s'.inUse == s.inUse
  {
    hide StoreValue, Shaped, StartOrWrite, StartWalk, MustLink, EndBlock, CellOf;
  }

  /** The producer's next step publishes its batch. */
  predicate Publishes<T>(s: State<T>) {
    s.producer.Writing? && Tail(s) + s.producer.written == s.walk.stop && s.walk.cursor == EndBlock(s.tailBlock, s.producer.blocks)
  }

  lemma WritingFrame<T>(s: State<T>, luck: Luck)
    requires ProducerEnabled(s, luck) && s.producer.Writing?
    ensures var s' := Produced(s, luck);
            && s'.consumers == s.consumers && s'.inUse == s.inUse && (Publishes(s) ==> s'.producer.Resting?)
            && s'.claims == if Publishes(s) then D.Apply(s.claims, D.Publish(|s.producer.items|)) else s.claims
  {
    hide Shaped, EndBlock, CellOf, Stop, D.Apply;
    var s', items, i := Produced(s, luck), s.producer.items, Tail(s) + s.producer.written;
    if i != s.walk.stop {
      assert s' == s.(cells := s'.cells, producer := s'.producer);
    } else if s.walk.cursor != EndBlock(s.tailBlock, s.producer.blocks) {
      assert s' == s.(walk := s'.walk);
    } else {
      assert s' == s.(claims := D.Apply(s.claims, D.Publish(|items|)), elements := s'.elements, tailBlock := s'.tailBlock,
                      producer := Resting);
    }
  }

  lemma TakeBackFrame<T>(s: State<T>, luck: Luck)
    requires ProducerEnabled(s, luck) && (s.producer.Rewound? || s.producer.Undoing?)
    ensures var s' := Produced(s, luck);
            s'.consumers == s.consumers && s'.claims == s.claims && s'.inUse == s.inUse
  {
    hide ClearPending, ClearValue, Shaped, OwnLookup, TailEntry, BlocksFor;
    var s' := Produced(s, luck);
    if s.producer.Undoing? && s.walk.cursor.None? {
      assert s' == s.(producer := s'.producer, walk := s'.walk);
    } else {
      assert s' == s.(index := s'.index, producer := s'.producer, walk := s'.walk);
    }
  }

  lemma FollowFrame<T>(s: State<T>, luck: Luck)
    requires ProducerEnabled(s, luck) && (s.producer.UndoRewinding? || s.producer.Returning?)
    ensures var s' := Produced(s, luck);
            && s'.consumers == s.consumers && s'.claims == s.claims
            && (!(s.producer.Returning? && s.walk.cursor.Some?) ==> s'.inUse == s.inUse)
  {
    hide Rewind, Shaped;
    var s' := Produced(s, luck);
    if s.producer.UndoRewinding? {
      assert s' == s.(index := s'.index, producer := s'.producer, walk := s'.walk);
    } else if s.walk.cursor.Some? {
      assert s' == s.(inUse := s'.inUse, producer := s'.producer, walk := s'.walk);
    } else {
      assert s' == s.(producer := Resting);
    }
  }

  /** What a producer step does to the claims, the consumers and the blocks in use. */
  lemma ProducerFrame<T>(s: State<T>, luck: Luck)
    requires ProducerEnabled(s, luck)
    ensures var s' := Produced(s, luck);
            && s'.consumers == s.consumers && !s.producer.Resting? && (Publishes(s) ==> s'.producer.Resting?)
            && s'.claims == (if Publishes(s) then D.Apply(s.claims, D.Publish(|s.producer.items|)) else s.claims)
            && (luck.block.None? && !(s.producer.Returning? && s.walk.cursor.Some?) ==> s'.inUse == s.inUse)
  {
    hide Produced, D.Apply;
    var p := s.producer;
    if p.Allocating? || p.KeyStored? || p.TailStored? {
      IndexFrame(s, luck);
    } else if p.Obtained? || p.Built? || p.Linking? {
      NewBlockFrame(s, luck);
    } else if p.Writing? {
      WritingFrame(s, luck);
    } else if p.Rewound? || p.Undoing? {
      TakeBackFrame(s, luck);
    } else {
      FollowFrame(s, luck);
    }
  }

  lemma ClaimFrame<T>(s: State<T>, t: Tid)
    requires ConsumerEnabled(s, t) && s.consumers[t].Outside?
    ensures var s' := Consumed(s, t);
            && s'.producer == s.producer && s'.inUse == s.inUse && s'.claims == D.Advanced(s.claims, t)
            && t in s'.consumers && s'.consumers == s.consumers[t := s'.consumers[t]]
            && (!s.claims.threads[t].Claiming? ==> s'.consumers[t].Outside?)
  {
    hide D.Advanced;
    if !s.claims.threads[t].Claiming? { assert s.consumers == s.consumers[t := s.consumers[t]]; }
  }

  lemma LookupFrame<T>(s: State<T>, t: Tid)
    requires ConsumerEnabled(s, t)
    requires var c := s.consumers[t]; c.Located? || c.HeaderLoaded? || c.SlotLoaded? || c.AtBlock?
    ensures var s' := Consumed(s, t);
            && s'.producer == s.producer && s'.inUse == s.inUse && s'.claims == s.claims
            && t in s'.consumers && s'.consumers == s.consumers[t := s'.consumers[t]]
  {
    hide Shaped, BlockOf, SlotFromTail, Reach;
  }

  lemma BlockFrame<T>(s: State<T>, t: Tid)
    requires ConsumerEnabled(s, t)
    requires var c := s.consumers[t]; c.Taking? || c.Clearing? || c.Releasing?
    ensures var s' := Consumed(s, t);
            && s'.producer == s.producer && s'.claims == s.claims && (!s.consumers[t].Releasing? ==> s'.inUse == s.inUse)
            && t in s'.consumers && s'.consumers == s.consumers[t := s'.consumers[t]]
  {
    hide ClearValue, Shaped, BlockOf, CellOf, Stop, AfterBlock, Interval;
  }

  /** What a consumer step does to the claims, the consumers, the producer and the blocks in use. */
  lemma ConsumerFrame<T>(s: State<T>, t: Tid)
    requires ConsumerEnabled(s, t)
    ensures var s' := Consumed(s, t);
            && s'.producer == s.producer && t in s'.consumers && s'.consumers == s.consumers[t := s'.consumers[t]]
            && s'.claims == (if s.consumers[t].Outside? then D.Advanced(s.claims, t) else s.claims)
            && (s.consumers[t].Outside? && !s.claims.threads[t].Claiming? ==> s'.consumers[t].Outside?)
            && (!s.consumers[t].Releasing? ==> s'.inUse == s.inUse)
  {
    hide Consumed, D.Advanced;
    var c := s.consumers[t];
    if c.Outside? {
      ClaimFrame(s, t);
    } else if c.Taking? || c.Clearing? || c.Releasing? {
      BlockFrame(s, t);
    } else {
      LookupFrame(s, t);
    }
  }

  lemma ReleasedInUse<T>(s: State<T>, t: Tid)
    requires Inv(s) && t in s.consumers && s.consumers[t].Releasing?
    ensures s.consumers[t].block in s.inUse
  {
    hide D.Inv, BlockIndex.Inv, InsertedFits, EntryRemembered, AllocationsFit, BatchFits, TailBlockFits, NothingLeaked,
         FinishedFit, CountersFit, CellsFit, ConsumersFit, NothingDropped, ChainFits, BlocksFor;
  }

  /** Following the links gives back only blocks that are in use. */
  lemma ReturnedInUse<T>(s: State<T>)
    requires Inv(s) && s.producer.Returning? && s.walk.cursor.Some?
    ensures s.walk.cursor.value in s.inUse
  {
    hide D.Inv, BlockIndex.Inv, InsertedFits, EntryRemembered, AllocationsFit, BatchFits, TailBlockFits, NothingLeaked,
         BlocksAccounted, FinishedFit, CountersFit, CellsFit, ConsumersFit, NothingDropped, ChainFits, BlocksFor;
    UndoFollowsChain(s);
    BlockInUse(s, s.producer.returned);
  }

  lemma DeliveredFits<T>(s: State<T>, k: nat)
    requires Inv(s) && k in s.delivered
    ensures k < |s.elements| && s.delivered[k] == s.elements[k]
  {
  }

  /** A block that is about to be given back, and one all of whose elements are finished, belongs to
      that consumer alone: nobody else reads from it, clears it or gives it back, the producer does
      not write to it, and it is no longer found through the index. */
  lemma ReleasedBlockIsFree<T>(s: State<T>, t: Tid, u: Tid)
    requires Inv(s) && t in s.consumers && s.consumers[t].Releasing? && u in s.consumers && u != t
    ensures var b := s.consumers[t].block;
            && b in s.inUse && b !in s.index.live.Values
            && (s.consumers[u].Taking? || s.consumers[u].Clearing? || s.consumers[u].Releasing? ==> s.consumers[u].block != b)
            && (s.producer.Writing? && Tail(s) + s.producer.written != s.walk.stop ==> s.walk.cursor != Some(b))
  {
    hide D.Inv, BlockIndex.Inv, InsertedFits, EntryRemembered, AllocationsFit, BatchFits, TailBlockFits, NothingLeaked,
         FinishedFit, CountersFit, CellsFit, ConsumersFit, NothingDropped, ChainFits, BlocksFor, BlockOf, Span, WriteBlock;
    InvPlacesNext(s.index);
    ConsumerFit(s, u);
    if s.producer.Writing? && Tail(s) + s.producer.written != s.walk.stop { CursorIsLive(s); }
  }

  /** While it writes, a batch has allocated exactly one block for every block boundary in its range,
      and the k-th of them is in the index under its number. */
  lemma OneBlockPerBoundary<T>(s: State<T>, k: nat)
    requires Inv(s) && s.producer.Writing?
    ensures |s.producer.blocks| == BlocksFor(Tail(s) + |s.producer.items|) - BlocksFor(Tail(s))
    ensures DistinctBlocks(s.producer)
    ensures k < |s.producer.blocks| ==>
              BlocksFor(Tail(s)) + k in s.index.live && s.index.live[BlocksFor(Tail(s)) + k] == s.producer.blocks[k]
  {
    hide D.Inv, BlockIndex.Inv, InsertedFits, EntryRemembered, TailBlockFits, NothingLeaked, FinishedFit,
         CountersFit, CellsFit, ConsumersFit, NothingDropped, ChainFits, BlocksFor;
    if k < |s.producer.blocks| { assert AllocationAt(s, k); }
  }

  lemma RestingInUse<T>(s: State<T>)
    requires BlocksAccounted(s) && NothingLeaked(s) && s.producer.Resting?
    requires forall t :: t in s.consumers ==> s.consumers[t].Outside?
    ensures s.inUse == s.index.live.Values
  {
    forall b: BlockId ensures b in s.inUse <==> b in s.index.live.Values {
      if b in s.inUse { assert Whereabouts(s, b); }
    }
  }
}
