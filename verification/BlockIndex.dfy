/** The growable circular block index of an implicit producer: `insert_block_index_entry`,
    `rewind_block_index_tail`, `new_block_index` and the lookup by signed offset from the
    tail slot.

    The producer inserts block numbers 0, 1, 2, ... in order; block j starts at element index
    j * BLOCK_SIZE.  A header is never modified after a bigger one replaces it, but the entries
    it points to are shared with the newer header, so a consumer that still holds an old header
    sees keys change under it.

    History fields: `inserted` counts the blocks up to the tail slot, `keyed` is the highest value
    `inserted` + 1 ever announced by a key, every block below `low` may have had its slot reused,
    `live` maps the blocks whose value is set to the block itself, and `pending` is the block
    whose key is stored and whose value is not.  A span records for each header which slot block 0
    would have and, once the header is replaced, up to which block it was filled. */
module BlockIndex {
  import opened Options
  import opened Blocks
  import opened ModArithmetic

  const INITIAL_CAPACITY: nat := 32

  type BlockId = nat
  type EntryId = nat

  /** A key is the index of the block's first element; `None` is the invalid block base. */
  datatype Entry = Entry(key: Option<int>, value: Option<BlockId>)

  datatype Header = Header(tail: nat, index: seq<EntryId>)
  {
    function Capacity(): nat { |index| }
  }

  datatype Span = Span(shift: int, until: nat)

  datatype State = State(
    entries: seq<Entry>, headers: seq<Header>,
    spans: seq<Span>, low: nat, inserted: nat, keyed: nat,
    live: map<nat, BlockId>, pending: Option<nat>)
  {
    function Current(): nat
      requires |headers| > 0
    {
      |headers| - 1
    }
  }

  /** The index after the constructor: one header of fresh entries, the tail on its last slot. */
  function Init(garbage: Option<BlockId>): State {
    State(seq(INITIAL_CAPACITY, _ => Entry(None, garbage)),
          [Header(INITIAL_CAPACITY - 1, seq(INITIAL_CAPACITY, i => i))],
          [Span(0, 0)], 0, 0, 0, map[], None)
  }

  // ---------------------------------------------------------------------------
  // The producer's and the consumers' accesses, one shared store each
  // ---------------------------------------------------------------------------

  /** The slot an insertion looks at. */
  function NextSlot(s: State): nat
    requires Shaped(s)
  {
    (s.headers[s.Current()].tail + 1) % s.headers[s.Current()].Capacity()
  }

  function NextEntry(s: State): EntryId
    requires Shaped(s)
  {
    s.headers[s.Current()].index[NextSlot(s)]
  }

  /** The test an insertion makes: invalid key, or no block. */
  predicate HasRoom(s: State)
    requires Shaped(s)
  {
    s.entries[NextEntry(s)].key.None? || s.entries[NextEntry(s)].value.None?
  }

  function StoreKey(s: State, base: int): State
    requires Shaped(s)
  {
    var e := NextEntry(s);
    var keyed := if s.inserted == s.keyed then s.keyed + 1 else s.keyed;
    s.(entries := s.entries[e := s.entries[e].(key := Some(base))],
       keyed := keyed,
       low := if keyed - s.low > s.headers[s.Current()].Capacity() then s.low + 1 else s.low,
       pending := Some(s.inserted))
  }

  function StoreTail(s: State): State
    requires Shaped(s)
  {
    var c := s.Current();
    s.(headers := s.headers[c := s.headers[c].(tail := NextSlot(s))], inserted := s.inserted + 1)
  }

  /** `(tail - 1) & (capacity - 1)`. */
  function Rewind(s: State): State
    requires Shaped(s) && s.inserted > 0
  {
    var c := s.Current();
    s.(headers := s.headers[c := s.headers[c].(tail := (s.headers[c].tail - 1) % s.headers[c].Capacity())],
       inserted := s.inserted - 1)
  }

  /** The producer fills in the value of the entry it has just inserted. */
  function StoreValue(s: State, e: EntryId, b: BlockId): State
    requires Shaped(s) && e < |s.entries| && s.pending.Some?
  {
    s.(entries := s.entries[e := s.entries[e].(value := Some(b))],
       live := s.live[s.pending.value := b], pending := None)
  }

  /** The producer clears the value of the entry whose insertion it takes back. */
  function ClearPending(s: State, e: EntryId): State
    requires Shaped(s) && e < |s.entries|
  {
    s.(entries := s.entries[e := s.entries[e].(value := None)], pending := None)
  }

  /** Whoever empties block j clears its entry. */
  function ClearValue(s: State, e: EntryId, j: nat): State
    requires Shaped(s) && e < |s.entries|
  {
    s.(entries := s.entries[e := s.entries[e].(value := None)], live := s.live - {j})
  }

  /** The old pointers rotated so that the tail comes last, followed by as many fresh entries. */
  function GrownIndex(hd: Header, entryCount: nat): (index: seq<EntryId>)
    requires hd.Capacity() > 0
    ensures |index| == 2 * hd.Capacity()
  {
    var cap := hd.Capacity();
    seq(cap, i requires 0 <= i < cap => hd.index[(hd.tail + 1 + i) % cap]) + seq(cap, i => entryCount + i)
  }

  function Grow(s: State, garbage: Option<BlockId>): State
    requires Shaped(s)
  {
    var c := s.Current();
    var hd := s.headers[c];
    var cap := hd.Capacity();
    s.(entries := s.entries + seq(cap, _ => Entry(None, garbage)),
       headers := s.headers + [Header(cap - 1, GrownIndex(hd, |s.entries|))],
       spans := s.spans[c := s.spans[c].(until := s.keyed)] + [Span(cap - s.inserted, 0)])
  }

  /** The last part of a lookup in header hd, from the tail slot and the key read there. */
  function SlotFromTail(hd: Header, tail: nat, tailBase: int, base: int): nat
    requires hd.Capacity() > 0
  {
    (tail + (base - tailBase) / BLOCK_SIZE) % hd.Capacity()
  }

  // ---------------------------------------------------------------------------
  // Where a block's entry is
  // ---------------------------------------------------------------------------

  predicate Shaped(s: State) {
    && |s.headers| > 0 && |s.spans| == |s.headers|
    && (forall h :: 0 <= h < |s.headers| ==> HeaderShaped(s, s.headers[h]))
  }

  predicate HeaderShaped(s: State, hd: Header) {
    && hd.Capacity() > 1 && hd.tail < hd.Capacity()
    && (forall i :: 0 <= i < |hd.index| ==> hd.index[i] < |s.entries|)
  }

  /** The slot block j has in header h. */
  function SlotOf(s: State, h: nat, j: int): (slot: nat)
    requires Shaped(s) && h < |s.headers|
    ensures slot < s.headers[h].Capacity()
  {
    (j + s.spans[h].shift) % s.headers[h].Capacity()
  }

  /** The entry header h has for block j. */
  function EntryIn(s: State, h: nat, j: int): (e: EntryId)
    requires Shaped(s) && h < |s.headers|
    ensures e < |s.entries|
  {
    s.headers[h].index[SlotOf(s, h, j)]
  }

  function EntryOf(s: State, j: int): (e: EntryId)
    requires Shaped(s)
    ensures e < |s.entries|
  {
    EntryIn(s, s.Current(), j)
  }

  /** Up to which block header h has ever announced keys. */
  function Until(s: State, h: nat): nat
    requires Shaped(s) && h < |s.headers|
  {
    if h == s.Current() then s.keyed else s.spans[h].until
  }

  /** Up to which block header h reaches with its tail slot. */
  function Reach(s: State, h: nat): nat
    requires Shaped(s) && h < |s.headers|
  {
    if h == s.Current() then s.inserted else s.spans[h].until
  }

  predicate Injective(ids: seq<EntryId>) {
    forall i, k :: 0 <= i < k < |ids| ==> ids[i] != ids[k]
  }

  predicate TailsPlaced(s: State)
    requires Shaped(s)
  {
    forall h :: 0 <= h < |s.headers| ==>
      Until(s, h) <= s.keyed && s.headers[h].tail == SlotOf(s, h, Reach(s, h) - 1)
  }

  /** Old headers agree with the current one about every block that still has its slot. */
  predicate HeadersAgree(s: State)
    requires Shaped(s)
  {
    forall h, j :: 0 <= h < |s.headers| && s.low <= j < Until(s, h) ==> EntryIn(s, h, j) == EntryOf(s, j)
  }

  predicate KeysPlaced(s: State)
    requires Shaped(s)
  {
    && (forall j :: s.low <= j < s.keyed ==> s.entries[EntryOf(s, j)].key == Some(j * BLOCK_SIZE))
    && (forall j :: s.keyed <= j < s.low + s.headers[s.Current()].Capacity() ==>
          s.entries[EntryOf(s, j)].key == None)
  }

  predicate ValuesPlaced(s: State)
    requires Shaped(s)
  {
    && (forall j :: j in s.live ==> s.low <= j < s.keyed && s.pending != Some(j))
    && (s.pending.Some? ==> s.low <= s.pending.value < s.keyed)
    && (forall j: nat :: s.low <= j < s.keyed && s.pending != Some(j) ==>
          s.entries[EntryOf(s, j)].value == if j in s.live then Some(s.live[j]) else None)
  }

  predicate Inv(s: State) {
    && Shaped(s)
    && s.low <= s.inserted <= s.keyed <= s.low + s.headers[s.Current()].Capacity()
    && Injective(s.headers[s.Current()].index)
    && TailsPlaced(s) && HeadersAgree(s) && KeysPlaced(s) && ValuesPlaced(s)
  }

  /** What a consumer that is part-way through a lookup may rely on while the others work:
      headers it may hold keep their shape and reach, and a block that still has its slot keeps
      its entry. */
  predicate Extends(s: State, s': State)
    requires Shaped(s) && Shaped(s')
  {
    && |s.headers| <= |s'.headers| && |s.entries| <= |s'.entries|
    && s.low <= s'.low && s.keyed <= s'.keyed
    && (forall h :: 0 <= h < |s.headers| ==>
          && s'.headers[h].index == s.headers[h].index
          && s'.spans[h].shift == s.spans[h].shift
          && Until(s, h) <= Until(s', h))
    && (forall j :: s'.low <= j < s.keyed ==> EntryOf(s', j) == EntryOf(s, j))
  }

  lemma InitInv(garbage: Option<BlockId>)
    ensures Inv(Init(garbage))
  {
    var s := Init(garbage);
    assert SlotOf(s, 0, -1) == INITIAL_CAPACITY - 1;
  }

  /** Within a window no longer than the capacity, blocks have different entries. */
  lemma EntriesDiffer(s: State, i: int, j: int)
    requires Shaped(s) && Injective(s.headers[s.Current()].index)
    requires 0 < j - i < s.headers[s.Current()].Capacity()
    ensures EntryOf(s, i) != EntryOf(s, j)
  {
    var c := s.Current();
    ModDistinct(i + s.spans[c].shift, j + s.spans[c].shift, s.headers[c].Capacity());
  }

  /** Blocks a whole capacity apart share an entry. */
  lemma EntriesWrap(s: State, j: int)
    requires Shaped(s)
    ensures EntryOf(s, j + s.headers[s.Current()].Capacity()) == EntryOf(s, j)
  {
    var c := s.Current();
    ModShift(j + s.spans[c].shift, s.headers[c].Capacity());
  }

  /** The slot an insertion looks at is the slot of the next block number. */
  lemma NextIsInserted(s: State)
    requires Shaped(s) && TailsPlaced(s)
    ensures NextSlot(s) == SlotOf(s, s.Current(), s.inserted)
    ensures NextEntry(s) == EntryOf(s, s.inserted)
  {
    var c := s.Current();
    ModAddLeft(s.inserted - 1 + s.spans[c].shift, 1, s.headers[c].Capacity());
  }

  lemma InvPlacesNext(s: State)
    requires Inv(s)
    ensures Shaped(s) && s.low <= s.inserted && NextEntry(s) == EntryOf(s, s.inserted)
  {
    NextIsInserted(s);
  }

  // ---------------------------------------------------------------------------
  // Each access keeps the invariant
  // ---------------------------------------------------------------------------

  /** Slots are reused oldest first: an insertion that reuses a slot takes that of block `low`,
      which is then no longer live. */
  lemma ReuseIsOldestFirst(s: State)
    requires Inv(s) && s.pending.None? && HasRoom(s)
    requires s.inserted == s.keyed == s.low + s.headers[s.Current()].Capacity()
    ensures NextEntry(s) == EntryOf(s, s.low) && s.low !in s.live
  {
    NextIsInserted(s);
    EntriesWrap(s, s.low);
  }

  /** Storing the next block's key disturbs no key that is still in the window. */
  lemma StoreKeyPlacesKeys(s: State, s': State)
    requires Inv(s) && s.pending.None? && HasRoom(s)
    requires s' == StoreKey(s, s.inserted * BLOCK_SIZE) && Shaped(s')
    ensures KeysPlaced(s')
    ensures forall j :: s'.low <= j < s'.keyed && j != s.inserted ==>
              s'.entries[EntryOf(s', j)] == s.entries[EntryOf(s, j)]
  {
    NextIsInserted(s);
    assert forall j :: EntryOf(s', j) == EntryOf(s, j);
    var c, cap := s.Current(), s.headers[s.Current()].Capacity();
    forall j | s'.low <= j < s'.low + cap && j != s.inserted
      ensures EntryOf(s, j) != EntryOf(s, s.inserted)
    {
      if j < s.inserted { EntriesDiffer(s, j, s.inserted); } else { EntriesDiffer(s, s.inserted, j); }
    }
  }

  lemma StoreKeyPlacesValues(s: State, s': State)
    requires Shaped(s) && ValuesPlaced(s) && Shaped(s') && s.pending.None?
    requires s.low <= s.inserted <= s.keyed <= s'.keyed <= s.keyed + 1
    requires s.low <= s'.low <= s.low + 1 && s'.low <= s.inserted < s'.keyed
    requires s.keyed < s'.keyed ==> s.keyed == s.inserted
    requires forall j :: j in s.live ==> j < s.inserted
    requires s'.live == s.live && s'.pending == Some(s.inserted)
    requires s'.low > s.low ==> s.low !in s.live
    requires forall j :: s'.low <= j < s'.keyed && j != s.inserted ==>
               s'.entries[EntryOf(s', j)] == s.entries[EntryOf(s, j)]
    ensures ValuesPlaced(s')
  {
    forall j: nat | s'.low <= j < s'.keyed && s'.pending != Some(j)
      ensures s'.entries[EntryOf(s', j)].value == if j in s'.live then Some(s'.live[j]) else None
    {
      assert s'.entries[EntryOf(s', j)] == s.entries[EntryOf(s, j)];
    }
  }

  lemma StoreKeyKeepsInv(s: State)
    requires Inv(s) && s.pending.None? && HasRoom(s)
    requires forall j :: j in s.live ==> j < s.inserted
    ensures var s' := StoreKey(s, s.inserted * BLOCK_SIZE);
            Inv(s') && Extends(s, s') && s'.low <= s.inserted && (s'.low > s.low ==> s.low !in s.live)
            && EntryOf(s', s.inserted) == EntryOf(s, s.inserted)
  {
    var s' := StoreKey(s, s.inserted * BLOCK_SIZE);
    if s'.low > s.low { ReuseIsOldestFirst(s); }
    SameHeadersExtend(s, s');
    StoreKeyPlacesKeys(s, s');
    StoreKeyPlacesValues(s, s');
  }

  /** Without new pointers every block keeps its slot and its entry in every header. */
  lemma SameSlots(s: State, s': State)
    requires Shaped(s) && |s'.headers| == |s.headers| && s'.spans == s.spans && |s'.entries| == |s.entries|
    requires forall h :: 0 <= h < |s.headers| ==>
               s'.headers[h].index == s.headers[h].index && s'.headers[h].tail < s.headers[h].Capacity()
    ensures Shaped(s')
    ensures forall h, j: int :: 0 <= h < |s.headers| ==>
              SlotOf(s', h, j) == SlotOf(s, h, j) && EntryIn(s', h, j) == EntryIn(s, h, j)
    ensures forall j: int :: EntryOf(s', j) == EntryOf(s, j)
  {
    forall h | 0 <= h < |s'.headers| ensures HeaderShaped(s', s'.headers[h]) {
      assert HeaderShaped(s, s.headers[h]);
    }
  }

  /** When headers and spans stay, so do tails and agreement. */
  lemma SameHeadersExtend(s: State, s': State)
    requires Shaped(s) && TailsPlaced(s) && HeadersAgree(s)
    requires s'.headers == s.headers && s'.spans == s.spans && |s'.entries| == |s.entries|
    requires s'.inserted == s.inserted && s.low <= s'.low && s.keyed <= s'.keyed
    ensures Shaped(s') && TailsPlaced(s') && HeadersAgree(s') && Extends(s, s')
    ensures forall j :: EntryOf(s', j) == EntryOf(s, j)
  {
    hide SlotOf, EntryIn;
    SameSlots(s, s');
    forall h | 0 <= h < |s'.headers|
      ensures Until(s', h) <= s'.keyed && s'.headers[h].tail == SlotOf(s', h, Reach(s', h) - 1)
    {
      assert s'.headers[h].tail == SlotOf(s, h, Reach(s, h) - 1);
    }
    forall h, j | 0 <= h < |s'.headers| && s'.low <= j < Until(s', h) ensures EntryIn(s', h, j) == EntryOf(s', j) {
      assert EntryIn(s, h, j) == EntryOf(s, j);
    }
  }

  /** Moving the current tail slot along with the inserted count changes nothing else. */
  lemma TailMoveKeepsInv(s: State, s': State, tail: nat, inserted: nat)
    requires Inv(s) && tail < s.headers[s.Current()].Capacity() && tail == SlotOf(s, s.Current(), inserted - 1)
    requires s.low <= inserted <= s.keyed
    requires var c := s.Current();
             s' == s.(headers := s.headers[c := s.headers[c].(tail := tail)], inserted := inserted)
    ensures Inv(s') && Extends(s, s')
  {
    hide SlotOf, EntryIn, EntryOf;
    SameSlots(s, s');
    forall h | 0 <= h < |s'.headers|
      ensures Until(s', h) <= s'.keyed && s'.headers[h].tail == SlotOf(s', h, Reach(s', h) - 1)
    {
      assert s.headers[h].tail == SlotOf(s, h, Reach(s, h) - 1);
    }
    forall h, j | 0 <= h < |s'.headers| && s'.low <= j < Until(s', h) ensures EntryIn(s', h, j) == EntryOf(s', j) {
      assert EntryIn(s, h, j) == EntryOf(s, j);
    }
  }

  lemma StoreTailKeepsInv(s: State)
    requires Inv(s) && s.pending == Some(s.inserted)
    ensures Inv(StoreTail(s)) && Extends(s, StoreTail(s))
  {
    NextIsInserted(s);
    TailMoveKeepsInv(s, StoreTail(s), NextSlot(s), s.inserted + 1);
  }

  lemma RewindKeepsInv(s: State)
    requires Inv(s) && s.low < s.inserted
    ensures Inv(Rewind(s)) && Extends(s, Rewind(s))
  {
    var c := s.Current();
    ModAddLeft(s.inserted - 1 + s.spans[c].shift, -1, s.headers[c].Capacity());
    TailMoveKeepsInv(s, Rewind(s), Rewind(s).headers[c].tail, s.inserted - 1);
  }

  /** A store to the value of the entry of block j touches no other block in the window. */
  lemma ValueStoreIsLocal(s: State, s': State, j: nat, v: Option<BlockId>)
    requires Inv(s) && s.low <= j < s.keyed
    requires var e := EntryOf(s, j); s'.entries == s.entries[e := s.entries[e].(value := v)]
    requires s' == s.(entries := s'.entries, live := s'.live, pending := s'.pending)
    ensures Shaped(s') && TailsPlaced(s') && HeadersAgree(s') && KeysPlaced(s') && Extends(s, s')
    ensures s'.entries[EntryOf(s', j)].value == v
    ensures forall k: nat :: s.low <= k < s.keyed && k != j ==>
              s'.entries[EntryOf(s', k)].value == s.entries[EntryOf(s, k)].value
  {
    hide SlotOf, TailsPlaced, HeadersAgree;
    SameHeadersExtend(s, s');
    forall k: nat | s.low <= k < s.keyed && k != j ensures EntryOf(s, k) != EntryOf(s, j) {
      if k < j { EntriesDiffer(s, k, j); } else { EntriesDiffer(s, j, k); }
    }
  }

  lemma StoreValueKeepsInv(s: State, b: BlockId)
    requires Inv(s) && s.pending.Some?
    ensures var s' := StoreValue(s, EntryOf(s, s.pending.value), b); Inv(s') && Extends(s, s')
  {
    hide SlotOf, EntryOf, EntryIn, TailsPlaced, HeadersAgree, KeysPlaced, HeaderShaped, Injective, Extends;
    ValueStoreIsLocal(s, StoreValue(s, EntryOf(s, s.pending.value), b), s.pending.value, Some(b));
  }

  lemma ClearPendingKeepsInv(s: State)
    requires Inv(s) && s.pending.Some?
    ensures var s' := ClearPending(s, EntryOf(s, s.pending.value)); Inv(s') && Extends(s, s')
  {
    hide SlotOf, EntryOf, EntryIn, TailsPlaced, HeadersAgree, KeysPlaced, HeaderShaped, Injective, Extends;
    ValueStoreIsLocal(s, ClearPending(s, EntryOf(s, s.pending.value)), s.pending.value, None);
  }

  lemma ClearValueKeepsInv(s: State, j: nat)
    requires Inv(s) && j in s.live
    ensures var s' := ClearValue(s, EntryOf(s, j), j); Inv(s') && Extends(s, s')
  {
    hide SlotOf, EntryOf, EntryIn, TailsPlaced, HeadersAgree, KeysPlaced, HeaderShaped, Injective, Extends;
    ValueStoreIsLocal(s, ClearValue(s, EntryOf(s, j), j), j, None);
  }

  /** Without room the index is full of the last Capacity() blocks and the oldest is live. */
  lemma NoRoomMeansFull(s: State)
    requires Inv(s) && s.pending.None? && !HasRoom(s)
    requires forall j :: j in s.live ==> j < s.inserted
    ensures s.inserted == s.keyed == s.low + s.headers[s.Current()].Capacity()
    ensures s.low in s.live
  {
    NextIsInserted(s);
    var cap := s.headers[s.Current()].Capacity();
    if s.inserted == s.low + cap {
      EntriesWrap(s, s.low);
    }
  }

  /** In the doubled header, the blocks that still have their slot keep their entries. */
  lemma GrowKeepsEntries(s: State, garbage: Option<BlockId>, j: int)
    requires Inv(s) && s.inserted == s.keyed == s.low + s.headers[s.Current()].Capacity()
    requires s.low <= j < s.keyed
    ensures Shaped(Grow(s, garbage))
    ensures EntryOf(Grow(s, garbage), j) == EntryOf(s, j)
  {
    var s' := Grow(s, garbage);
    var c, cap := s.Current(), s.headers[s.Current()].Capacity();
    var i := j - s.low;
    ModSmall(i, 2 * cap);
    assert SlotOf(s', c + 1, j) == i;
    var x := s.inserted - 1 + s.spans[c].shift;
    ModAddLeft(x, 1 + i, cap);
    ModShift(j + s.spans[c].shift, cap);
    assert (s.headers[c].tail + 1 + i) % cap == SlotOf(s, c, j);
  }

  /** Rotating pointers and adding fresh ones repeats none. */
  lemma GrownIsInjective(hd: Header, entryCount: nat)
    requires hd.Capacity() > 0 && Injective(hd.index) && forall i :: 0 <= i < |hd.index| ==> hd.index[i] < entryCount
    ensures Injective(GrownIndex(hd, entryCount))
  {
    var cap := hd.Capacity();
    var index := GrownIndex(hd, entryCount);
    forall i, k | 0 <= i < k < |index| ensures index[i] != index[k] {
      if k < cap {
        ModDistinct(hd.tail + 1 + i, hd.tail + 1 + k, cap);
      }
    }
  }

  lemma GrowIsInjective(s: State, garbage: Option<BlockId>)
    requires Inv(s)
    ensures Injective(GrownIndex(s.headers[s.Current()], |s.entries|))
  {
    hide GrownIndex, TailsPlaced, HeadersAgree, KeysPlaced, ValuesPlaced;
    assert HeaderShaped(s, s.headers[s.Current()]);
    GrownIsInjective(s.headers[s.Current()], |s.entries|);
  }

  lemma FreshSlotsFollow(s: State, garbage: Option<BlockId>, j: int)
    requires Inv(s) && s.inserted == s.keyed == s.low + s.headers[s.Current()].Capacity()
    requires s.keyed <= j < s.low + 2 * s.headers[s.Current()].Capacity()
    ensures Shaped(Grow(s, garbage))
    ensures |s.entries| <= EntryOf(Grow(s, garbage), j) < |Grow(s, garbage).entries|
  {
    var s' := Grow(s, garbage);
    var c, cap := s.Current(), s.headers[s.Current()].Capacity();
    ModSmall(j - s.low, 2 * cap);
    assert SlotOf(s', c + 1, j) == j - s.low;
  }

  lemma GrowPlacesHeaders(s: State, s': State, garbage: Option<BlockId>)
    requires Inv(s) && s.inserted == s.keyed == s.low + s.headers[s.Current()].Capacity()
    requires s' == Grow(s, garbage)
    ensures Shaped(s') && TailsPlaced(s') && HeadersAgree(s') && Extends(s, s')
  {
    var c, cap := s.Current(), s.headers[s.Current()].Capacity();
    forall j | s.low <= j < s.keyed ensures Shaped(s') && EntryOf(s', j) == EntryOf(s, j) {
      GrowKeepsEntries(s, garbage, j);
    }
    assert forall h :: 0 <= h <= c ==> s'.headers[h] == s.headers[h] && s'.spans[h].shift == s.spans[h].shift;
    assert forall h, j :: 0 <= h <= c ==> EntryIn(s', h, j) == EntryIn(s, h, j);
    ModSmall(cap - 1, 2 * cap);
    assert SlotOf(s', c + 1, s.inserted - 1) == cap - 1;
    forall h | 0 <= h < |s'.headers|
      ensures Until(s', h) <= s'.keyed && s'.headers[h].tail == SlotOf(s', h, Reach(s', h) - 1)
    {
      if h <= c { assert SlotOf(s', h, Reach(s', h) - 1) == SlotOf(s, h, Reach(s, h) - 1); }
    }
    forall h, j | 0 <= h < |s'.headers| && s.low <= j < Until(s', h)
      ensures EntryIn(s', h, j) == EntryOf(s', j)
    {
      if h <= c { assert EntryIn(s', h, j) == EntryIn(s, h, j) == EntryOf(s, j); }
    }
  }

  lemma GrowKeepsInv(s: State, garbage: Option<BlockId>)
    requires Inv(s) && s.pending.None? && s.inserted == s.keyed == s.low + s.headers[s.Current()].Capacity()
    ensures Inv(Grow(s, garbage)) && Extends(s, Grow(s, garbage))
    ensures HasRoom(Grow(s, garbage))
  {
    var s' := Grow(s, garbage);
    var c, cap := s.Current(), s.headers[s.Current()].Capacity();
    GrowPlacesHeaders(s, s', garbage);
    GrowIsInjective(s, garbage);
    forall j | s.low <= j < s.keyed ensures EntryOf(s', j) == EntryOf(s, j) < |s.entries| {
      GrowKeepsEntries(s, garbage, j);
    }
    forall j | s.keyed <= j < s.low + 2 * cap ensures s'.entries[EntryOf(s', j)].key == None {
      FreshSlotsFollow(s, garbage, j);
    }
    NextIsInserted(s');
  }

  // ---------------------------------------------------------------------------
  // Lookups
  // ---------------------------------------------------------------------------

  /** The signed block distance from the tail's key leads from the tail's slot to block j's. */
  lemma SlotByDistance(s: State, h: nat, i: int, j: int)
    requires Shaped(s) && h < |s.headers|
    ensures SlotFromTail(s.headers[h], SlotOf(s, h, i), i * BLOCK_SIZE, j * BLOCK_SIZE) == SlotOf(s, h, j)
  {
    assert j * BLOCK_SIZE - i * BLOCK_SIZE == (j - i) * BLOCK_SIZE;
    assert (j - i) * BLOCK_SIZE / BLOCK_SIZE == j - i;
    ModAddLeft(i + s.spans[h].shift, j - i, s.headers[h].Capacity());
  }

  /** A block that still has its slot is found there through every header that reached it. */
  lemma KeyFound(s: State, h: nat, j: int)
    requires Inv(s) && h < |s.headers| && s.low <= j < Until(s, h)
    ensures EntryIn(s, h, j) == EntryOf(s, j) && s.entries[EntryOf(s, j)].key == Some(j * BLOCK_SIZE)
  {
    hide SlotOf, EntryIn, EntryOf, ValuesPlaced, Injective;
  }

  /** The current tail slot is that of the block inserted last, and live blocks still have theirs. */
  lemma TailAndLive(s: State, j: nat)
    requires Inv(s) && j in s.live
    ensures s.headers[s.Current()].tail == SlotOf(s, s.Current(), s.inserted - 1)
    ensures s.low <= j < Until(s, s.Current()) && s.inserted <= Until(s, s.Current())
  {
    hide SlotOf;
  }

  /** A lookup through any header, current or replaced.  The tail slot was read when the header
      reached block `seen` - 1, the key at that slot is read now.  As long as neither block is
      older than every reused slot, the signed offset, which is positive after a rewind and
      negative otherwise, leads to the entry that the current header has for j. */
  lemma LookupFinds(s: State, h: nat, j: nat, seen: nat, tail: nat)
    requires Inv(s) && h < |s.headers|
    requires s.low <= j < Until(s, h) && s.low < seen <= Until(s, h)
    requires tail == SlotOf(s, h, seen - 1)
    ensures s.entries[s.headers[h].index[tail]].key == Some((seen - 1) * BLOCK_SIZE)
    ensures var slot := SlotFromTail(s.headers[h], tail, (seen - 1) * BLOCK_SIZE, j * BLOCK_SIZE);
            slot == SlotOf(s, h, j) && s.headers[h].index[slot] == EntryOf(s, j)
            && s.entries[s.headers[h].index[slot]].key == Some(j * BLOCK_SIZE)
  {
    hide SlotOf, EntryOf, SlotFromTail, Until, TailsPlaced, HeadersAgree, KeysPlaced, ValuesPlaced, Injective;
    KeyFound(s, h, seen - 1);
    KeyFound(s, h, j);
    SlotByDistance(s, h, seen - 1, j);
  }

  /** A live block is found: its entry holds the block. */
  lemma LiveBlockFound(s: State, j: nat)
    requires Inv(s) && j in s.live
    ensures s.low <= j < s.keyed
    ensures s.entries[EntryOf(s, j)] == Entry(Some(j * BLOCK_SIZE), Some(s.live[j]))
  {
  }

  /** Bulk dequeues walk from one block to the next by moving one slot on. */
  lemma NextSlotIsNextBlock(s: State, h: nat, j: nat)
    requires Inv(s) && h < |s.headers|
    ensures (SlotOf(s, h, j) + 1) % s.headers[h].Capacity() == SlotOf(s, h, j + 1)
  {
    ModAddLeft(j + s.spans[h].shift, 1, s.headers[h].Capacity());
  }

}
