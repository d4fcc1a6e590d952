/** What the operations of a sub-queue come to when they are run to their end: a dequeue takes the
    first elements that are left, an enqueue appends all of its elements or none. */
module QueueOutcomes {
  import opened Blocks
  import opened ImplicitQueue
  import opened Numbers
  import opened Options
  import BlockIndex
  import D = OptimisticDequeue

  // ---------------------------------------------------------------------------
  // What a dequeue does
  // ---------------------------------------------------------------------------

  /** Thread t is in no dequeue. */
  predicate Rests<T>(s: State<T>, t: Tid) {
    t in s.consumers && t in s.claims.threads && s.consumers[t].Outside? && s.claims.threads[t].Idle?
  }

  /** Indices a consumer has still to take out. */
  function Owed(c: Consumer): nat { if c.Outside? || c.end < c.next then 0 else c.end - c.next }

  /** How far it is from its next element, or from the end. */
  function Order(c: Consumer): nat {
    match c
    case Outside => 0
    case Taking(start, next, _, _, _, _) => if start < next then 5 else 1
    case AtBlock(_, _, _, _) => 2
    case Releasing(_, _, _, _, _) => 3
    case Clearing(_, _, _, _, _, _) => 4
    case SlotLoaded(_, _, _, _, _) => 6
    case HeaderLoaded(_, _, _) => 7
    case Located(_, _) => 8
  }

  predicate Precedes(c': Consumer, c: Consumer) {
    Owed(c') < Owed(c) || (Owed(c') == Owed(c) && Order(c') < Order(c))
  }

  /** What one step does to what a consumer still has to take: nothing, or it takes the next one. */
  ghost predicate TakesNext<T>(s: State<T>, s': State<T>, t: Tid)
    requires t in s.consumers && !s.consumers[t].Outside?
  {
    && t in s'.consumers && s'.elements == s.elements
    && var c, c' := s.consumers[t], s'.consumers[t];
       && c.next <= c.end && Precedes(c', c)
       && (c'.Outside? ==> c.next == c.end && s'.delivered.Keys == s.delivered.Keys)
       && (!c'.Outside? ==>
             && c'.end == c.end
             && if c'.next == c.next then s'.delivered.Keys == s.delivered.Keys
                else c'.next == c.next + 1 <= c.end && s'.delivered.Keys == s.delivered.Keys + {c.next})
  }

  lemma LookupTakes<T>(s: State<T>, t: Tid)
    requires ConsumersFit(s) && ConsumerEnabled(s, t)
    requires var c := s.consumers[t]; c.Located? || c.HeaderLoaded? || c.SlotLoaded? || c.AtBlock?
    ensures TakesNext(s, Consumed(s, t), t)
  {
    hide BlockIndex.Shaped, BlockOf, BlockIndex.SlotFromTail, BlockIndex.Reach, BlockIndex.SlotOf, BlockIndex.Until;
    ConsumerFit(s, t);
  }

  lemma TakingTakes<T>(s: State<T>, t: Tid)
    requires ConsumersFit(s) && ConsumerEnabled(s, t) && s.consumers[t].Taking?
    ensures TakesNext(s, Consumed(s, t), t)
  {
    hide BlockIndex.ClearValue, BlockIndex.Shaped, BlockOf, CellOf, Interval, BlockIndex.SlotOf, BlockIndex.Until, Span, Stop;
    ConsumerFit(s, t);
    StopRange(s.consumers[t].start, s.consumers[t].end);
  }

  lemma LeavingTakes<T>(s: State<T>, t: Tid)
    requires ConsumersFit(s) && ConsumerEnabled(s, t) && (s.consumers[t].Clearing? || s.consumers[t].Releasing?)
    ensures TakesNext(s, Consumed(s, t), t)
  {
    hide BlockIndex.ClearValue, BlockIndex.Shaped, BlockOf, CellOf, Interval, BlockIndex.SlotOf, BlockIndex.Until, Span, Stop;
    ConsumerFit(s, t);
  }

  lemma ConsumerTakes<T>(s: State<T>, t: Tid)
    requires Inv(s) && ConsumerEnabled(s, t) && !s.consumers[t].Outside?
    ensures TakesNext(s, Consumed(s, t), t)
  {
    hide D.Inv, BlockIndex.Inv, InsertedFits, EntryRemembered, AllocationsFit, BatchFits, TailBlockFits,
         BlocksAccounted, NothingLeaked, FinishedFit, CountersFit, CellsFit, ConsumersFit, NothingDropped, ChainFits,
         BlocksFor, Consumed, TakesNext, BlockIndex.Shaped;
    var c := s.consumers[t];
    if c.Taking? {
      TakingTakes(s, t);
    } else if c.Clearing? || c.Releasing? {
      LeavingTakes(s, t);
    } else {
      LookupTakes(s, t);
    }
  }

  /** A step of a thread inside a dequeue comes closer to its end. */
  lemma ConsumerDescends<T>(s: State<T>, t: Tid)
    requires Inv(s) && t in s.consumers && t in s.claims.threads && !Rests(s, t)
    ensures ConsumerEnabled(s, t) && Inv(Consumed(s, t))
    ensures var s' := Consumed(s, t);
            && t in s'.consumers && t in s'.claims.threads
            && (!s.consumers[t].Outside? ==> s'.claims == s.claims && Precedes(s'.consumers[t], s.consumers[t]))
            && (s.consumers[t].Outside? ==> D.Order(s'.claims.threads[t]) < D.Order(s.claims.threads[t]))
  {
    hide D.Inv, BlockIndex.Inv, InsertedFits, EntryRemembered, AllocationsFit, BatchFits, TailBlockFits,
         BlocksAccounted, NothingLeaked, FinishedFit, CountersFit, CellsFit, ConsumersFit, NothingDropped, ChainFits,
         BlocksFor, Consumed, ConsumerEnabled;
    ConsumerNeverStuck(s, t);
    StepKeepsInv(s, Consume(t));
    ConsumerFrame(s, t);
    if s.consumers[t].Outside? { D.Descends(s.claims, t); } else { ConsumerTakes(s, t); }
  }

  /** The dequeue of t run to its end, nobody else moving. */
  ghost function Finished<T>(s: State<T>, t: Tid): State<T>
    requires Inv(s) && t in s.consumers && t in s.claims.threads
    decreases D.Order(s.claims.threads[t]), Owed(s.consumers[t]), Order(s.consumers[t])
  {
    if Rests(s, t) then s
    else
      ConsumerDescends(s, t);
      WinnerIsIdle(s, t);
      Finished(Consumed(s, t), t)
  }

  lemma WinnerIsIdle<T>(s: State<T>, t: Tid)
    requires Inv(s) && t in s.consumers && t in s.claims.threads
    ensures !s.consumers[t].Outside? ==> s.claims.threads[t].Idle?
  {
    hide D.Inv, BlockIndex.Inv, InsertedFits, EntryRemembered, AllocationsFit, BatchFits, TailBlockFits,
         BlocksAccounted, NothingLeaked, FinishedFit, CountersFit, CellsFit, ConsumersFit, ChainFits, BlocksFor;
  }

  /** From s to s' thread t has taken out the indices from lo up to hi and come to rest. */
  ghost predicate HasTaken<T>(s: State<T>, s': State<T>, t: Tid, lo: nat, hi: nat) {
    && lo <= hi && Rests(s', t) && s'.elements == s.elements
    && s'.delivered.Keys == s.delivered.Keys + Interval(lo, hi)
  }

  lemma FinishedStep<T>(s: State<T>, t: Tid)
    requires Inv(s) && t in s.consumers && t in s.claims.threads
    ensures Rests(s, t) ==> Finished(s, t) == s
    ensures !Rests(s, t) ==>
              && ConsumerEnabled(s, t) && Inv(Consumed(s, t))
              && t in Consumed(s, t).consumers && t in Consumed(s, t).claims.threads
              && Finished(s, t) == Finished(Consumed(s, t), t)
  {
    hide D.Inv, BlockIndex.Inv, InsertedFits, EntryRemembered, AllocationsFit, BatchFits, TailBlockFits,
         BlocksAccounted, NothingLeaked, FinishedFit, CountersFit, CellsFit, ConsumersFit, NothingDropped, ChainFits,
         BlocksFor, Consumed, ConsumerEnabled, Precedes;
    if !Rests(s, t) {
      ConsumerDescends(s, t);
      WinnerIsIdle(s, t);
    }
  }

  lemma FirstOfInterval(lo: nat, hi: nat)
    requires lo < hi
    ensures Interval(lo, hi) == {lo} + Interval(lo + 1, hi)
  {
  }

  lemma TakenLater<T>(s: State<T>, s1: State<T>, s': State<T>, t: Tid, lo: nat, hi: nat)
    requires HasTaken(s1, s', t, lo, hi) && s1.elements == s.elements && s1.delivered.Keys == s.delivered.Keys
    ensures HasTaken(s, s', t, lo, hi)
  {
    hide Rests, Interval;
  }

  lemma TakenOneMore<T>(s: State<T>, s1: State<T>, s': State<T>, t: Tid, lo: nat, hi: nat)
    requires HasTaken(s1, s', t, lo + 1, hi) && s1.elements == s.elements && s1.delivered.Keys == s.delivered.Keys + {lo}
    ensures HasTaken(s, s', t, lo, hi)
  {
    hide Rests, Interval;
    FirstOfInterval(lo, hi);
    JoinInTurn(s.delivered.Keys, lo, Interval(lo + 1, hi));
  }

  lemma TakenAll<T>(s: State<T>, s1: State<T>, t: Tid, i: nat)
    requires Rests(s1, t) && s1.elements == s.elements && s1.delivered.Keys == s.delivered.Keys
    ensures HasTaken(s, s1, t, i, i)
  {
    hide Rests, Interval;
    NoInterval(i);
    NothingJoins(s.delivered.Keys);
  }

  lemma MoreTaken<T>(s: State<T>, s1: State<T>, s': State<T>, t: Tid)
    requires t in s.consumers && !s.consumers[t].Outside? && TakesNext(s, s1, t)
    requires if s1.consumers[t].Outside? then s' == s1 && Rests(s1, t)
             else HasTaken(s1, s', t, s1.consumers[t].next, s1.consumers[t].end)
    ensures HasTaken(s, s', t, s.consumers[t].next, s.consumers[t].end)
  {
    hide Precedes, Rests, Interval, HasTaken;
    var c, c' := s.consumers[t], s1.consumers[t];
    if c'.Outside? {
      TakenAll(s, s1, t, c.next);
    } else if c'.next == c.next {
      TakenLater(s, s1, s', t, c.next, c.end);
    } else {
      TakenOneMore(s, s1, s', t, c.next, c.end);
    }
  }

  lemma NothingJoins(a: set<nat>)
    ensures a + {} == a
  {
  }

  lemma JoinInTurn(a: set<nat>, i: nat, b: set<nat>)
    ensures a + {i} + b == a + ({i} + b)
  {
  }

  /** Whoever has won indices takes out exactly these. */
  lemma {:induction false} TakesItsShare<T>(s: State<T>, t: Tid)
    requires Inv(s) && t in s.consumers && t in s.claims.threads && !s.consumers[t].Outside?
    ensures Inv(Finished(s, t)) && Finished(s, t).claims == s.claims
    ensures HasTaken(s, Finished(s, t), t, s.consumers[t].next, s.consumers[t].end)
    decreases Owed(s.consumers[t]), Order(s.consumers[t])
  {
    hide D.Inv, BlockIndex.Inv, InsertedFits, EntryRemembered, AllocationsFit, BatchFits, TailBlockFits,
         BlocksAccounted, NothingLeaked, FinishedFit, CountersFit, CellsFit, ConsumersFit, NothingDropped, ChainFits,
         BlocksFor, Consumed, ConsumerEnabled, Precedes, TakesNext, HasTaken, Finished;
    WinnerIsIdle(s, t);
    ConsumerDescends(s, t);
    ConsumerTakes(s, t);
    FinishedStep(s, t);
    var s' := Consumed(s, t);
    PrecedesMeans(s'.consumers[t], s.consumers[t]);
    FinishedStep(s', t);
    if !s'.consumers[t].Outside? { TakesItsShare(s', t); }
    MoreTaken(s, s', Finished(s', t), t);
  }

  lemma PrecedesMeans(c': Consumer, c: Consumer)
    requires Precedes(c', c)
    ensures Owed(c') < Owed(c) || (Owed(c') == Owed(c) && Order(c') < Order(c))
  {
  }

  /** Whatever comes of an undisturbed attempt, what is delivered are the indices it has won. */
  lemma {:induction false} DeliversWhatItWins<T>(s: State<T>, t: Tid)
    requires Inv(s) && t in s.consumers && t in s.claims.threads && s.consumers[t].Outside?
    ensures Inv(Finished(s, t)) && Finished(s, t).claims == D.Finished(s.claims, t)
    ensures HasTaken(s, Finished(s, t), t, Head(s), Head(Finished(s, t)))
    decreases D.Order(s.claims.threads[t])
  {
    hide D.Inv, BlockIndex.Inv, InsertedFits, EntryRemembered, AllocationsFit, BatchFits, TailBlockFits,
         BlocksAccounted, NothingLeaked, FinishedFit, CountersFit, CellsFit, ConsumersFit, NothingDropped, ChainFits,
         BlocksFor, Interval, ConsumerEnabled, D.Advanced, Consumed, Finished;
    FinishedStep(s, t);
    if s.claims.threads[t].Idle? {
      NoInterval(Head(s));
    } else {
      ConsumerDescends(s, t);
      var s' := Consumed(s, t);
      ConsumerFrame(s, t);
      ClaimOutcome(s, t);
      if s'.consumers[t].Outside? {
        DeliversWhatItWins(s', t);
      } else {
        WinnerIsIdle(s', t);
        TakesItsShare(s', t);
      }
    }
  }

  lemma NoInterval(i: nat)
    ensures Interval(i, i) == {}
  {
  }

  /** A step of the claim protocol that wins nothing leaves head alone; one that wins hands out the
      indices between the old head and the new. */
  lemma ClaimOutcome<T>(s: State<T>, t: Tid)
    requires ConsumerEnabled(s, t) && s.consumers[t].Outside?
    ensures var s' := Consumed(s, t);
            && s'.delivered == s.delivered && s'.elements == s.elements && t in s'.consumers
            && if s'.consumers[t].Outside? then Head(s') == Head(s)
               else s'.consumers[t] == Located(Head(s), Head(s'))
  {
  }

  /** What was delivered for index i is the i-th of these elements. */
  ghost predicate Delivers<T>(s: State<T>, i: nat, elements: seq<T>) {
    i < |elements| && i in s.delivered && s.delivered[i] == elements[i]
  }

  /** From s to s' thread t has taken out the first n elements that were left, and these are they. */
  ghost predicate Dequeued<T>(s: State<T>, s': State<T>, t: Tid, n: nat) {
    && HasTaken(s, s', t, Head(s), Head(s) + n) && Head(s') == Head(s) + n && Tail(s') == Tail(s)
    && forall i: nat :: Head(s) <= i < Head(s) + n ==> Delivers(s', i, s.elements)
  }

  lemma TakenIsFirst<T>(s: State<T>, s': State<T>, t: Tid, lo: nat, hi: nat, i: nat)
    requires HasTaken(s, s', t, lo, hi) && Inv(s') && lo <= i < hi
    ensures Delivers(s', i, s.elements)
  {
    hide Inv, Rests;
    AllRight(s');
    assert i in Interval(lo, hi);
    assert i in s'.delivered.Keys;
  }

  lemma TakenAreFirst<T>(s: State<T>, s': State<T>, t: Tid, n: nat)
    requires HasTaken(s, s', t, Head(s), Head(s) + n) && Head(s') == Head(s) + n && Tail(s') == Tail(s) && Inv(s')
    ensures Dequeued(s, s', t, n)
  {
    hide Inv, Rests, HasTaken, Interval;
    forall i: nat | Head(s) <= i < Head(s) + n ensures Delivers(s', i, s.elements) {
      TakenIsFirst(s, s', t, Head(s), Head(s) + n, i);
    }
  }

  lemma BeginFits<T>(s: State<T>, t: Tid, max: nat)
    requires Inv(s) && Enabled(s, Dequeue(t, max))
    ensures Apply(s, Dequeue(t, max)) == s.(claims := D.Apply(s.claims, D.Begin(t, max)))
    ensures t in s.claims.threads && t in Apply(s, Dequeue(t, max)).claims.threads
    ensures D.Inv(s.claims) && Inv(Apply(s, Dequeue(t, max)))
  {
    hide D.Inv, BlockIndex.Inv, InsertedFits, EntryRemembered, AllocationsFit, BatchFits, TailBlockFits,
         BlocksAccounted, NothingLeaked, FinishedFit, CountersFit, CellsFit, ConsumersFit, NothingDropped, ChainFits,
         BlocksFor;
    StepKeepsInv(s, Dequeue(t, max));
  }

  /** A dequeue of up to max by t, from its beginning to its end, nobody else moving. */
  ghost function AfterDequeue<T>(s: State<T>, t: Tid, max: nat): State<T>
    requires Inv(s) && Enabled(s, Dequeue(t, max))
  {
    BeginFits(s, t, max);
    Finished(Apply(s, Dequeue(t, max)), t)
  }

  /** An undisturbed dequeue of up to max takes out exactly the first elements that are left, as many as
      there are up to max. */
  lemma LoneDequeueDelivers<T>(s: State<T>, t: Tid, max: nat)
    requires Inv(s) && Enabled(s, Dequeue(t, max)) && forall u :: u in s.claims.threads ==> s.claims.threads[u].Idle?
    ensures Inv(AfterDequeue(s, t, max)) && Head(s) <= Tail(s)
    ensures Dequeued(s, AfterDequeue(s, t, max), t, Min(Tail(s) - Head(s), max))
  {
    hide D.Inv, Inv, Finished, D.Finished, Interval, Dequeued, Rests;
    BeginFits(s, t, max);
    D.LoneDequeueTakesAll(s.claims, t, max);
    DeliversWhatItWins(Apply(s, Dequeue(t, max)), t);
    TakenAreFirst(s, AfterDequeue(s, t, max), t, Min(Tail(s) - Head(s), max));
  }

  lemma AllRight<T>(s: State<T>)
    requires Inv(s)
    ensures forall i: nat :: i in s.delivered ==> i < |s.elements| && s.delivered[i] == s.elements[i]
  {
    hide D.Inv, BlockIndex.Inv, InsertedFits, EntryRemembered, AllocationsFit, BatchFits, TailBlockFits,
         BlocksAccounted, NothingLeaked, FinishedFit, CountersFit, CellsFit, ConsumersFit, NothingDropped, ChainFits,
         BlocksFor;
    forall i: nat | i in s.delivered ensures i < |s.elements| && s.delivered[i] == s.elements[i] {
      DeliveredFits(s, i);
    }
  }

  // ---------------------------------------------------------------------------
  // What an enqueue does
  // ---------------------------------------------------------------------------

  /** With this step the producer finds that memory has run out: there is no block for it, or no larger
      index. */
  predicate RunsOut<T>(s: State<T>, luck: Luck)
    requires BlockIndex.Shaped(s.index)
  {
    || (s.producer.TailStored? && luck.block.None?)
    || (s.producer.Allocating? && !BlockIndex.HasRoom(s.index) && !luck.indexMemory)
  }

  /** Where an enqueue of these items stands that began when `before` had been enqueued: under way, or
      giving up as memory has run out, or at an end. */
  predicate StandsAt<T(==)>(s: State<T>, items: seq<T>, before: seq<T>, ranOut: bool) {
    match s.producer
    case Resting => s.elements == if ranOut then before else before + items
    case Rewound(_, _) => ranOut && s.elements == before
    case Undoing(_, _) => ranOut && s.elements == before
    case UndoRewinding(_, _) => ranOut && s.elements == before
    case Returning(_, _) => ranOut && s.elements == before
    case p => !ranOut && p.items == items && s.elements == before
  }

  lemma BuildingStands<T>(s: State<T>, luck: Luck, items: seq<T>, before: seq<T>)
    requires ProducerEnabled(s, luck) && StandsAt(s, items, before, false)
    requires var p := s.producer; p.Allocating? || p.KeyStored? || p.TailStored?
    ensures StandsAt(Produced(s, luck), items, before, RunsOut(s, luck))
  {
    hide BlockIndex.StoreKey, BlockIndex.StoreTail, BlockIndex.Grow, BlockIndex.Rewind, BlockIndex.NextEntry,
         BlockIndex.NextSlot, BlockIndex.Shaped, BlockIndex.HasRoom, BlocksFor;
  }

  lemma PlacingStands<T>(s: State<T>, luck: Luck, items: seq<T>, before: seq<T>)
    requires ProducerEnabled(s, luck) && StandsAt(s, items, before, false)
    requires var p := s.producer; p.Obtained? || p.Built? || p.Linking? || p.Writing?
    ensures StandsAt(Produced(s, luck), items, before, false)
  {
    hide BlockIndex.StoreValue, BlockIndex.Shaped, StartWalk, MustLink, CellOf, BlocksFor, Stop, D.Apply;
  }

  lemma TakingBackStands<T>(s: State<T>, luck: Luck, items: seq<T>, before: seq<T>)
    requires ProducerEnabled(s, luck) && StandsAt(s, items, before, true) && (s.producer.Rewound? || s.producer.Undoing?)
    ensures StandsAt(Produced(s, luck), items, before, true)
  {
    hide BlockIndex.ClearPending, BlockIndex.ClearValue, BlockIndex.Shaped, OwnLookup, TailEntry, BlocksFor;
  }

  lemma ReturningStands<T>(s: State<T>, luck: Luck, items: seq<T>, before: seq<T>)
    requires ProducerEnabled(s, luck) && StandsAt(s, items, before, true)
    requires s.producer.UndoRewinding? || s.producer.Returning?
    ensures StandsAt(Produced(s, luck), items, before, true)
  {
    hide BlockIndex.Rewind, BlockIndex.Shaped;
  }

  lemma ProducerStands<T>(s: State<T>, luck: Luck, items: seq<T>, before: seq<T>, ranOut: bool)
    requires ProducerEnabled(s, luck) && StandsAt(s, items, before, ranOut)
    ensures StandsAt(Produced(s, luck), items, before, ranOut || RunsOut(s, luck))
  {
    hide Produced;
    var p := s.producer;
    if p.Rewound? || p.Undoing? {
      TakingBackStands(s, luck, items, before);
    } else if p.UndoRewinding? || p.Returning? {
      ReturningStands(s, luck, items, before);
    } else if p.Allocating? || p.KeyStored? || p.TailStored? {
      BuildingStands(s, luck, items, before);
    } else {
      PlacingStands(s, luck, items, before);
    }
  }

  predicate SameEnqueue<T(==)>(s: State<T>, s': State<T>) {
    s'.producer == s.producer && s'.elements == s.elements && s'.walk == s.walk && Tail(s') == Tail(s)
  }

  lemma ClaimLeavesEnqueue<T>(s: State<T>, t: Tid)
    requires ConsumerEnabled(s, t) && s.consumers[t].Outside?
    ensures SameEnqueue(s, Consumed(s, t)) && (!s.consumers[t].Clearing? ==> Consumed(s, t).index == s.index)
  {
    hide D.Resolve;
  }

  lemma LookupLeavesEnqueue<T>(s: State<T>, t: Tid)
    requires ConsumerEnabled(s, t)
    requires var c := s.consumers[t]; c.Located? || c.HeaderLoaded? || c.SlotLoaded? || c.AtBlock?
    ensures SameEnqueue(s, Consumed(s, t)) && (!s.consumers[t].Clearing? ==> Consumed(s, t).index == s.index)
  {
    hide BlockIndex.Shaped, BlockOf, BlockIndex.SlotFromTail, BlockIndex.Reach;
  }

  lemma TakingLeavesEnqueue<T>(s: State<T>, t: Tid)
    requires ConsumerEnabled(s, t)
    requires var c := s.consumers[t]; c.Taking? || c.Clearing? || c.Releasing?
    ensures SameEnqueue(s, Consumed(s, t)) && (!s.consumers[t].Clearing? ==> Consumed(s, t).index == s.index)
  {
    hide BlockIndex.ClearValue, BlockIndex.Shaped, BlockOf, CellOf, Stop, AfterBlock, Interval;
  }

  lemma ConsumerLeavesEnqueue<T>(s: State<T>, t: Tid)
    requires ConsumerEnabled(s, t)
    ensures SameEnqueue(s, Consumed(s, t)) && (!s.consumers[t].Clearing? ==> Consumed(s, t).index == s.index)
  {
    hide Consumed, SameEnqueue;
    var c := s.consumers[t];
    if c.Outside? {
      ClaimLeavesEnqueue(s, t);
    } else if c.Taking? || c.Clearing? || c.Releasing? {
      TakingLeavesEnqueue(s, t);
    } else {
      LookupLeavesEnqueue(s, t);
    }
  }

  /** Along this trace, from i to j, the producer has found that memory had run out. */
  predicate RanOut<T>(run: seq<State<T>>, actions: seq<Action<T>>, i: nat, j: nat)
    requires i <= j <= |actions| && j < |run|
  {
    exists k :: i <= k < j && RunsOutAt(run[k], actions[k])
  }

  predicate RunsOutAt<T>(s: State<T>, a: Action<T>) {
    a.Produce? && BlockIndex.Shaped(s.index) && RunsOut(s, a.luck)
  }

  /** The actions lead from each state of the run to the next. */
  predicate IsTrace<T(==)>(run: seq<State<T>>, actions: seq<Action<T>>) {
    && |run| == |actions| + 1
    && forall k :: 0 <= k < |actions| ==> Enabled(run[k], actions[k]) && run[k + 1] == Apply(run[k], actions[k])
  }

  lemma StepStands<T>(s: State<T>, a: Action<T>, items: seq<T>, before: seq<T>, ranOut: bool)
    requires Enabled(s, a) && !a.Enqueue? && StandsAt(s, items, before, ranOut)
    ensures StandsAt(Apply(s, a), items, before, ranOut || RunsOutAt(s, a))
  {
    hide Produced, Consumed, ConsumerEnabled, RunsOut, BlockIndex.Shaped;
    match a
    case Produce(luck) => ProducerStands(s, luck, items, before, ranOut);
    case Consume(t) => ConsumerLeavesEnqueue(s, t);
    case _ =>
  }

  lemma {:induction false} EnqueueStands<T>(run: seq<State<T>>, actions: seq<Action<T>>, i: nat, j: nat)
    requires IsTrace(run, actions) && i < j <= |actions| && actions[i].Enqueue?
    requires forall k :: i < k < j ==> !actions[k].Enqueue?
    ensures StandsAt(run[j], actions[i].items, run[i].elements, RanOut(run, actions, i, j))
  {
    hide Produced, Consumed, ProducerEnabled, ConsumerEnabled, RunsOut, StandsAt;
    if j == i + 1 {
      BeginsToStand(run[i], actions[i].items);
    } else {
      EnqueueStands(run, actions, i, j - 1);
      StepStands(run[j - 1], actions[j - 1], actions[i].items, run[i].elements, RanOut(run, actions, i, j - 1));
      assert RanOut(run, actions, i, j) <==> RanOut(run, actions, i, j - 1) || RunsOutAt(run[j - 1], actions[j - 1]);
    }
  }

  lemma BeginsToStand<T>(s: State<T>, items: seq<T>)
    requires s.producer.Resting?
    ensures StandsAt(Apply(s, Enqueue(items)), items, s.elements, false)
  {
    hide Stop, StartWalk, BlocksFor;
  }

  /** Whatever the consumers do meanwhile, an enqueue that has come to its end has appended all of its
      elements, in their order, or, exactly if memory ran out, none of them. */
  lemma EnqueuesAllOrNothing<T>(run: seq<State<T>>, actions: seq<Action<T>>, i: nat, j: nat)
    requires IsTrace(run, actions) && i < j <= |actions| && actions[i].Enqueue?
    requires forall k :: i < k < j ==> !actions[k].Enqueue?
    requires run[j].producer.Resting?
    ensures run[j].elements == run[i].elements + if RanOut(run, actions, i, j) then [] else actions[i].items
  {
    EnqueueStands(run, actions, i, j);
  }

  /** How far an enqueue is from its end, by its parts ... */
  function Stage<T>(p: Producer<T>): nat {
    match p
    case Resting => 0
    case Returning(_, _) => 1
    case Undoing(_, _) => 2
    case UndoRewinding(_, _) => 2
    case Rewound(_, _) => 3
    case Writing(_, _, _) => 4
    case _ => 5
  }

  /** ... within a part, by the blocks or elements still to come ... */
  function Ahead<T>(s: State<T>): int {
    match s.producer
    case Resting => 0
    case Rewound(_, _) => 0
    case Returning(blocks, returned) => |blocks| - returned
    case Undoing(blocks, undone) => |blocks| - undone
    case UndoRewinding(blocks, undone) => |blocks| - undone
    case Writing(items, _, written) => |items| - written
    case p => BlocksFor(Tail(s) + |p.items|) - BlocksFor(Tail(s)) - |p.blocks|
  }

  /** ... and for one of these by its steps. */
  function Pace<T>(s: State<T>): int
    requires BlockIndex.Shaped(s.index)
  {
    match s.producer
    case Linking(_, _) => 6
    case Allocating(_, _) => if BlockIndex.HasRoom(s.index) then 4 else 5
    case KeyStored(_, _, _) => 3
    case TailStored(_, _, _) => 2
    case Obtained(_, _, _, _) => 1
    case Undoing(_, _) => 1
    case Writing(items, _, _) => Tail(s) + |items| - s.walk.stop
    case _ => 0
  }

  /** In s' the enqueue is closer to its end than in s. */
  predicate Closer<T>(s: State<T>, s': State<T>)
    requires BlockIndex.Shaped(s.index) && BlockIndex.Shaped(s'.index)
  {
    || Stage(s'.producer) < Stage(s.producer)
    || (Stage(s'.producer) == Stage(s.producer) && 0 <= Ahead(s')
        && (Ahead(s') < Ahead(s) || (Ahead(s') == Ahead(s) && 0 <= Pace(s') < Pace(s))))
  }

  lemma IndexCloser<T>(s: State<T>, luck: Luck)
    requires ProducerEnabled(s, luck) && InsertedFits(s) && BatchFits(s)
    requires var p := s.producer; p.Allocating? || p.KeyStored? || p.TailStored?
    requires BlockIndex.Shaped(Produced(s, luck).index)
    requires s.producer.Allocating? && !BlockIndex.HasRoom(s.index) && luck.indexMemory ==>
               BlockIndex.HasRoom(Produced(s, luck).index)
    ensures Closer(s, Produced(s, luck))
  {
    hide BlockIndex.StoreKey, BlockIndex.StoreTail, BlockIndex.Grow, BlockIndex.Rewind, BlockIndex.NextEntry,
         BlockIndex.NextSlot, BlockIndex.Shaped, BlockIndex.HasRoom, BlocksFor;
  }

  lemma LinkingCloser<T>(s: State<T>, luck: Luck)
    requires ProducerEnabled(s, luck) && BatchFits(s)
    requires var p := s.producer; p.Obtained? || p.Built? || p.Linking?
    requires BlockIndex.Shaped(Produced(s, luck).index)
    ensures Closer(s, Produced(s, luck))
  {
    hide BlockIndex.StoreValue, BlockIndex.Shaped, BlockIndex.HasRoom, StartWalk, MustLink, CellOf, BlocksFor;
  }

  lemma WritingCloser<T>(s: State<T>, luck: Luck)
    requires ProducerEnabled(s, luck) && s.producer.Writing? && Inv(s)
    requires BlockIndex.Shaped(Produced(s, luck).index)
    ensures Closer(s, Produced(s, luck))
  {
    hide D.Inv, BlockIndex.Inv, InsertedFits, EntryRemembered, AllocationsFit, BatchFits, TailBlockFits,
         BlocksAccounted, NothingLeaked, FinishedFit, CountersFit, CellsFit, ConsumersFit, NothingDropped, ChainFits,
         BlocksFor, BlockIndex.Shaped, BlockIndex.HasRoom, EndBlock, Stop, CellOf, D.Apply;
    WritingRange(s);
    var end := Tail(s) + |s.producer.items|;
    if Tail(s) + s.producer.written == s.walk.stop {
      WalkFollowsChain(s);
      if s.walk.stop < end { StopRange(s.walk.stop, end); }
    }
  }

  lemma TakingBackCloser<T>(s: State<T>, luck: Luck)
    requires ProducerEnabled(s, luck) && ChainFits(s) && InsertedFits(s)
    requires s.producer.Rewound? || s.producer.Undoing?
    requires BlockIndex.Shaped(Produced(s, luck).index)
    ensures Closer(s, Produced(s, luck))
  {
    hide BlockIndex.ClearPending, BlockIndex.ClearValue, BlockIndex.Shaped, OwnLookup, TailEntry, BlocksFor, ChainFits, At;
    if s.producer.Undoing? { UndoFollowsChain(s); }
  }

  lemma ReturningCloser<T>(s: State<T>, luck: Luck)
    requires ProducerEnabled(s, luck) && ChainFits(s) && InsertedFits(s)
    requires s.producer.UndoRewinding? || s.producer.Returning?
    requires BlockIndex.Shaped(Produced(s, luck).index)
    ensures Closer(s, Produced(s, luck))
  {
    hide BlockIndex.Rewind, BlockIndex.Shaped, BlocksFor, ChainFits, At;
    UndoFollowsChain(s);
  }

  /** Every step of the producer brings its enqueue closer to its end, whatever the allocator answers. */
  lemma ProducerCloser<T>(s: State<T>, luck: Luck)
    requires Inv(s) && ProducerEnabled(s, luck)
    ensures BlockIndex.Shaped(s.index) && BlockIndex.Shaped(Produced(s, luck).index) && Closer(s, Produced(s, luck))
  {
    hide D.Inv, BlockIndex.Inv, InsertedFits, EntryRemembered, AllocationsFit, BatchFits, TailBlockFits,
         BlocksAccounted, NothingLeaked, FinishedFit, CountersFit, CellsFit, ConsumersFit, NothingDropped, ChainFits,
         BlocksFor, BlockIndex.Shaped, BlockIndex.HasRoom, Closer, Produced;
    StepKeepsInv(s, Produce(luck));
    InvShapes(s);
    InvShapes(Produced(s, luck));
    var p := s.producer;
    if p.Allocating? || p.KeyStored? || p.TailStored? {
      if p.Allocating? && !BlockIndex.HasRoom(s.index) && luck.indexMemory { GrownHasRoom(s, luck); }
      IndexCloser(s, luck);
    } else if p.Obtained? || p.Built? || p.Linking? {
      LinkingCloser(s, luck);
    } else if p.Writing? {
      WritingCloser(s, luck);
    } else if p.Rewound? || p.Undoing? {
      TakingBackCloser(s, luck);
    } else {
      ReturningCloser(s, luck);
    }
  }

  lemma InvShapes<T>(s: State<T>)
    requires Inv(s)
    ensures BlockIndex.Shaped(s.index)
  {
    hide D.Inv, BlockIndex.Inv, InsertedFits, EntryRemembered, AllocationsFit, BatchFits, TailBlockFits,
         BlocksAccounted, NothingLeaked, FinishedFit, CountersFit, CellsFit, ConsumersFit, NothingDropped, ChainFits,
         BlocksFor;
    BlockIndex.InvPlacesNext(s.index);
  }

  lemma GrownHasRoom<T>(s: State<T>, luck: Luck)
    requires Inv(s) && ProducerEnabled(s, luck) && s.producer.Allocating?
    requires !BlockIndex.HasRoom(s.index) && luck.indexMemory
    ensures BlockIndex.Shaped(Produced(s, luck).index) && BlockIndex.HasRoom(Produced(s, luck).index)
  {
    hide D.Inv, BlockIndex.Inv, InsertedFits, EntryRemembered, AllocationsFit, BatchFits, TailBlockFits,
         BlocksAccounted, NothingLeaked, FinishedFit, CountersFit, CellsFit, ConsumersFit, NothingDropped, ChainFits,
         BlocksFor, BlockIndex.Shaped, BlockIndex.HasRoom;
    GrowStep(s, Produced(s, luck), luck.garbage);
    InvShapes(Produced(s, luck));
  }

  lemma ClearingKeepsRoom(x: BlockIndex.State, e: BlockIndex.EntryId, j: nat)
    requires BlockIndex.Shaped(x) && e < |x.entries| && BlockIndex.HasRoom(x)
    ensures BlockIndex.Shaped(BlockIndex.ClearValue(x, e, j)) && BlockIndex.HasRoom(BlockIndex.ClearValue(x, e, j))
  {
  }

  lemma ClearingClears<T>(s: State<T>, t: Tid)
    requires ConsumerEnabled(s, t) && s.consumers[t].Clearing?
    ensures var c := s.consumers[t];
            && c.header < |s.index.headers| && c.slot < |s.index.headers[c.header].index|
            && s.index.headers[c.header].index[c.slot] < |s.index.entries|
            && Consumed(s, t).index == BlockIndex.ClearValue(s.index, s.index.headers[c.header].index[c.slot], c.number)
  {
    hide BlockIndex.ClearValue;
  }

  lemma RoomStays<T>(s: State<T>, t: Tid)
    requires ConsumerEnabled(s, t) && s.consumers[t].Clearing? && BlockIndex.HasRoom(s.index)
    ensures BlockIndex.Shaped(Consumed(s, t).index) && BlockIndex.HasRoom(Consumed(s, t).index)
  {
    hide BlockIndex.Shaped, BlockIndex.HasRoom, BlockIndex.ClearValue, Consumed;
    ClearingClears(s, t);
    var c := s.consumers[t];
    ClearingKeepsRoom(s.index, s.index.headers[c.header].index[c.slot], c.number);
  }

  /** The steps of others leave the enqueue where it is. */
  lemma OthersDoNotDelay<T>(s: State<T>, a: Action<T>)
    requires Inv(s) && Enabled(s, a) && !a.Enqueue? && !a.Produce?
    ensures BlockIndex.Shaped(s.index) && BlockIndex.Shaped(Apply(s, a).index)
    ensures SameEnqueue(s, Apply(s, a)) && Ahead(Apply(s, a)) == Ahead(s) && Pace(Apply(s, a)) <= Pace(s)
  {
    hide D.Inv, BlockIndex.Inv, InsertedFits, EntryRemembered, AllocationsFit, BatchFits, TailBlockFits,
         BlocksAccounted, NothingLeaked, FinishedFit, CountersFit, CellsFit, ConsumersFit, NothingDropped, ChainFits,
         BlocksFor, BlockIndex.Shaped, BlockIndex.HasRoom, Consumed;
    StepKeepsInv(s, a);
    InvShapes(s);
    InvShapes(Apply(s, a));
    if a.Consume? {
      ConsumerLeavesEnqueue(s, a.tid);
      if s.consumers[a.tid].Clearing? && BlockIndex.HasRoom(s.index) { RoomStays(s, a.tid); }
    }
  }
}
