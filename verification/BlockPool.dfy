/** One sub-queue together with the free list its blocks come from and go back to.  `ImplicitQueue`
    assumes that an allocation comes back with a block nobody uses, and `FreeList` that a block is
    added only by whoever holds it; here both are put side by side and neither has to be assumed.

    A block comes from `try_get`, whose last access drops the two references on the node it has
    taken, or from elsewhere: from the initial pool, whose index hands out each block once, or from
    the memory allocator.  What is given back goes to the free list, but a block that came from the
    allocator is destroyed unless the traits say `recycle`; the allocator may then hand out its memory
    again.  The other sub-queues of the same queue add and get blocks at any time and do what they
    like with those they hold.

    `nobodys` is history: the blocks of the initial pool that have not been handed out, and those the
    allocator has. */
module BlockPool {
  import opened Options
  import F = FreeList
  import Q = ImplicitQueue

  type Tid = nat
  type Block = nat

  datatype State<T> = State(
    queue: Q.State<T>, pool: F.State, nobodys: set<Block>, dynamic: set<Block>, recycle: bool)

  function Init<T>(threads: set<Tid>, garbage: Option<Block>, blocks: set<Block>, dynamic: set<Block>, recycle: bool): State<T> {
    State(Q.Init(threads, garbage), F.Init(blocks, threads), blocks, dynamic, recycle)
  }

  /** The result of an allocation, without its block. */
  datatype Chance = Chance(indexMemory: bool, garbage: Option<Block>, early: bool)

  function WithBlock(c: Chance, b: Option<Block>): Q.Luck { Q.Luck(b, c.indexMemory, c.garbage, c.early) }

  datatype Action<T> =
    | Queue(a: Q.Action<T>)
    | Pool(f: F.Action)
    | ObtainListed(tid: Tid, chance: Chance)
    | ObtainNew(block: Block, chance: Chance)
    | Release(tid: Tid)
    | Return(tid: Tid, chance: Chance)
    | OtherObtainsNew(block: Block)
    | OtherDestroys(block: Block)

  /** A queue step that neither obtains nor gives back a block. */
  predicate StaysInside<T>(s: Q.State<T>, a: Q.Action<T>) {
    match a
    case Produce(luck) => luck.block.None? && !Returns(s)
    case Consume(t) => t in s.consumers && !s.consumers[t].Releasing?
    case _ => true
  }

  /** The producer is about to give back a block of an enqueue it has undone. */
  predicate Returns<T>(s: Q.State<T>) { s.producer.Returning? && s.walk.cursor.Some? }

  /** The free list sees the block as held by a caller. */
  predicate Held(pool: F.State, b: Block) { F.HasNode(pool, b) && pool.role[b].Owned? }

  /** `add_block_to_free_list` destroys the block instead. */
  predicate Destroys<T>(s: State<T>, b: Block) { !s.recycle && b in s.dynamic }

  /** The other sub-queues add and destroy only what they hold; nothing is said about what `try_get`
      hands out. */
  predicate Enabled<T>(s: State<T>, a: Action<T>) {
    match a
    case Queue(a) => StaysInside(s.queue, a) && Q.Enabled(s.queue, a)
    case Pool(f) =>
      F.Enabled(s.pool, f) && (f.Add? ==> f.node !in s.queue.inUse && f.node !in s.nobodys && !Destroys(s, f.node))
    case ObtainListed(t, chance) =>
      && F.Enabled(s.pool, F.Advance(t)) && s.pool.threads[t].DropTwo?
      && s.queue.producer.TailStored? && Q.ProducerEnabled(s.queue, WithBlock(chance, None))
    case ObtainNew(b, chance) =>
      b in s.nobodys && s.queue.producer.TailStored? && Q.ProducerEnabled(s.queue, WithBlock(chance, None))
    case Release(t) =>
      && t in s.queue.consumers && s.queue.consumers[t].Releasing? && Q.ConsumerEnabled(s.queue, t)
      && t in s.pool.threads && s.pool.threads[t].Idle?
    case Return(t, chance) =>
      && Returns(s.queue) && Q.ProducerEnabled(s.queue, WithBlock(chance, None))
      && t in s.pool.threads && s.pool.threads[t].Idle?
    case OtherObtainsNew(b) => b in s.nobodys
    case OtherDestroys(b) => Held(s.pool, b) && b !in s.queue.inUse && b !in s.nobodys && Destroys(s, b)
  }

  /** The block a step obtains from or gives back to the pool. */
  function Passed<T>(s: State<T>, a: Action<T>): Option<Block>
    requires Enabled(s, a)
  {
    match a
    case ObtainListed(t, _) => Some(s.pool.threads[t].node)
    case ObtainNew(b, _) => Some(b)
    case Release(t) => Some(s.queue.consumers[t].block)
    case Return(_, _) => s.queue.walk.cursor
    case _ => None
  }

  /** What the queue and the free list assume of their callers. */
  predicate Assumed<T>(s: State<T>, a: Action<T>)
    requires Enabled(s, a)
  {
    match a
    case ObtainListed(_, chance) => Q.ProducerEnabled(s.queue, WithBlock(chance, Passed(s, a)))
    case ObtainNew(_, chance) => Q.ProducerEnabled(s.queue, WithBlock(chance, Passed(s, a)))
    case Release(t) => MayGiveBack(s, t, Passed(s, a).value)
    case Return(t, _) => MayGiveBack(s, t, Passed(s, a).value)
    case _ => true
  }

  /** Thread t holds the block and may add it to the free list, or destroy it. */
  predicate MayGiveBack<T>(s: State<T>, t: Tid, b: Block) {
    if Destroys(s, b) then Held(s.pool, b) && b !in s.nobodys else F.Enabled(s.pool, F.Add(t, b))
  }

  function GivenBack<T>(s: State<T>, t: Tid, b: Block): State<T>
    requires MayGiveBack(s, t, b)
  {
    if Destroys(s, b) then s.(nobodys := s.nobodys + {b}) else s.(pool := F.Apply(s.pool, F.Add(t, b)))
  }

  function Apply<T>(s: State<T>, a: Action<T>): State<T>
    requires Enabled(s, a) && Assumed(s, a)
  {
    match a
    case Queue(a) => s.(queue := Q.Apply(s.queue, a))
    case Pool(f) => s.(pool := F.Apply(s.pool, f))
    case ObtainListed(t, chance) =>
      s.(queue := Q.Produced(s.queue, WithBlock(chance, Passed(s, a))), pool := F.Advanced(s.pool, t))
    case ObtainNew(b, chance) =>
      s.(queue := Q.Produced(s.queue, WithBlock(chance, Passed(s, a))), nobodys := s.nobodys - {b})
    case Release(t) =>
      GivenBack(s, t, Passed(s, a).value).(queue := Q.Consumed(s.queue, t))
    case Return(t, chance) =>
      GivenBack(s, t, Passed(s, a).value).(queue := Q.Produced(s.queue, WithBlock(chance, None)))
    case OtherObtainsNew(b) => s.(nobodys := s.nobodys - {b})
    case OtherDestroys(b) => s.(nobodys := s.nobodys + {b})
  }

  // ---------------------------------------------------------------------------
  // Every block is in one place
  // ---------------------------------------------------------------------------

  ghost predicate InOnePlace<T>(s: State<T>) {
    && (forall b :: b in s.queue.inUse ==> Held(s.pool, b) && b !in s.nobodys)
    && (forall b :: b in s.nobodys ==> Held(s.pool, b))
  }

  /** Thread at p has the block's address in hand. */
  predicate Mentions(p: F.Pc, b: Block) {
    match p
    case Idle => false
    case GetHead => false
    case SetFlag(n) => n == b
    case LoadHead(n, r) => n == b || r == F.GetWith(Some(b))
    case StoreNext(n, h, r) => n == b || h == Some(b) || r == F.GetWith(Some(b))
    case StoreRefs(n, h, r) => n == b || h == Some(b) || r == F.GetWith(Some(b))
    case SwingHead(n, h, r) => n == b || h == Some(b) || r == F.GetWith(Some(b))
    case GiveBack(n, h, r) => n == b || h == Some(b) || r == F.GetWith(Some(b))
    case GetRefs(n) => n == b
    case CountIn(n, _) => n == b
    case ReadNext(n) => n == b
    case TakeHead(n, next) => n == b || next == Some(b)
    case DropTwo(n) => n == b
    case CountOut(n, h) => n == b || h == Some(b)
  }

  /** The free list does not know the block: neither its head, nor a link, nor a thread inside it. */
  ghost predicate Unknown(pool: F.State, b: Block) {
    && pool.head != Some(b)
    && (forall m :: m in pool.next ==> pool.next[m] != Some(b))
    && (forall t :: t in pool.threads ==> !Mentions(pool.threads[t], b))
  }

  /** A block that would be destroyed has never come near the free list. */
  ghost predicate DestroyedUnknown<T>(s: State<T>) {
    forall b :: Destroys(s, b) ==> Unknown(s.pool, b)
  }

  lemma UnknownStays(pool: F.State, f: F.Action, b: Block)
    requires F.Enabled(pool, f) && Unknown(pool, b) && (f.Add? ==> f.node != b)
    ensures Unknown(F.Apply(pool, f), b)
  {
    hide F.Advanced;
    if f.Advance? {
      var p := pool.threads[f.tid];
      if p.SetFlag? || p.LoadHead? || p.StoreNext? || p.StoreRefs? || p.SwingHead? || p.GiveBack? {
        AddingStep(pool, f.tid, b);
      } else if p.TakeHead? || p.DropTwo? || p.CountOut? {
        TakingStep(pool, f.tid, b);
      } else {
        GettingStep(pool, f.tid, b);
      }
    }
  }

  lemma UnknownFacts(pool: F.State, t: Tid, b: Block)
    requires F.Enabled(pool, F.Advance(t)) && Unknown(pool, b)
    ensures t in pool.threads && !Mentions(pool.threads[t], b) && pool.head != Some(b)
    ensures forall m :: m in pool.next ==> pool.next[m] != Some(b)
    ensures pool.threads[t].ReadNext? ==> pool.threads[t].node in pool.next
  {
  }

  /** From pool to pool' thread t has moved, and neither it nor the memory mentions b now. */
  lemma UnknownAfter(pool: F.State, pool': F.State, t: Tid, b: Block)
    requires Unknown(pool, b) && t in pool'.threads && pool'.threads == pool.threads[t := pool'.threads[t]]
    requires !Mentions(pool'.threads[t], b) && pool'.head != Some(b)
    requires forall m :: m in pool'.next ==> pool'.next[m] != Some(b)
    ensures Unknown(pool', b)
  {
    hide Mentions;
  }

  lemma AddingStep(pool: F.State, t: Tid, b: Block)
    requires F.Enabled(pool, F.Advance(t)) && Unknown(pool, b)
    requires var p := pool.threads[t];
             p.SetFlag? || p.LoadHead? || p.StoreNext? || p.StoreRefs? || p.SwingHead? || p.GiveBack?
    ensures Unknown(F.Advanced(pool, t), b)
  {
    hide Unknown, F.Enabled;
    UnknownFacts(pool, t, b);
    match pool.threads[t]
    case SetFlag(_) => UnknownAfter(pool, F.Advanced(pool, t), t, b);
    case LoadHead(_, _) => UnknownAfter(pool, F.Advanced(pool, t), t, b);
    case StoreNext(_, _, _) => UnknownAfter(pool, F.Advanced(pool, t), t, b);
    case StoreRefs(_, _, _) => UnknownAfter(pool, F.Advanced(pool, t), t, b);
    case SwingHead(_, _, _) => UnknownAfter(pool, F.Advanced(pool, t), t, b);
    case GiveBack(_, _, _) => UnknownAfter(pool, F.Advanced(pool, t), t, b);
  }

  lemma GettingStep(pool: F.State, t: Tid, b: Block)
    requires F.Enabled(pool, F.Advance(t)) && Unknown(pool, b)
    requires var p := pool.threads[t]; p.GetHead? || p.GetRefs? || p.CountIn? || p.ReadNext?
    ensures Unknown(F.Advanced(pool, t), b)
  {
    hide Unknown, F.Enabled;
    UnknownFacts(pool, t, b);
    match pool.threads[t]
    case GetHead => UnknownAfter(pool, F.Advanced(pool, t), t, b);
    case GetRefs(_) => UnknownAfter(pool, F.Advanced(pool, t), t, b);
    case CountIn(_, _) => UnknownAfter(pool, F.Advanced(pool, t), t, b);
    case ReadNext(_) => UnknownAfter(pool, F.Advanced(pool, t), t, b);
  }

  lemma TakingStep(pool: F.State, t: Tid, b: Block)
    requires F.Enabled(pool, F.Advance(t)) && Unknown(pool, b)
    requires var p := pool.threads[t]; p.TakeHead? || p.DropTwo? || p.CountOut?
    ensures Unknown(F.Advanced(pool, t), b)
  {
    hide Unknown, F.Enabled;
    UnknownFacts(pool, t, b);
    match pool.threads[t]
    case TakeHead(_, _) => UnknownAfter(pool, F.Advanced(pool, t), t, b);
    case DropTwo(_) => UnknownAfter(pool, F.Advanced(pool, t), t, b);
    case CountOut(_, _) => UnknownAfter(pool, F.Advanced(pool, t), t, b);
  }

  lemma DestroyedStaysUnknown<T>(s: State<T>, a: Action<T>)
    requires DestroyedUnknown(s) && Enabled(s, a) && Assumed(s, a)
    ensures DestroyedUnknown(Apply(s, a))
  {
    hide Unknown, F.Enabled, F.Apply, F.Advanced, Q.Enabled, Q.Apply, Q.Produced, Q.Consumed, Q.ProducerEnabled, Q.ConsumerEnabled;
    var s' := Apply(s, a);
    forall b | Destroys(s', b) ensures Unknown(s'.pool, b) {
      match a
      case Pool(f) => UnknownStays(s.pool, f, b);
      case ObtainListed(t, _) => AdvanceStep(s.pool, t, b);
      case Release(t) => GiveBackStep(s, t, Passed(s, a).value, b);
      case Return(t, _) => GiveBackStep(s, t, Passed(s, a).value, b);
      case _ =>
    }
  }

  lemma AdvanceStep(pool: F.State, t: Tid, b: Block)
    requires F.Enabled(pool, F.Advance(t)) && Unknown(pool, b)
    ensures Unknown(F.Advanced(pool, t), b)
  {
    hide Unknown, F.Advanced, F.Enabled;
    UnknownStays(pool, F.Advance(t), b);
  }

  lemma GiveBackStep<T>(s: State<T>, t: Tid, c: Block, b: Block)
    requires MayGiveBack(s, t, c) && Destroys(s, b) && Unknown(s.pool, b)
    ensures Unknown(GivenBack(s, t, c).pool, b)
  {
    hide Unknown, F.Enabled, F.Apply;
    if !Destroys(s, c) { UnknownStays(s.pool, F.Add(t, c), b); }
  }

  ghost predicate Inv<T>(s: State<T>) {
    Q.Inv(s.queue) && F.Inv(s.pool) && InOnePlace(s) && DestroyedUnknown(s)
  }

  lemma InitInv<T>(threads: set<Tid>, garbage: Option<Block>, blocks: set<Block>, dynamic: set<Block>, recycle: bool)
    requires |threads| + 1 < F.FLAG
    ensures Inv(Init<T>(threads, garbage, blocks, dynamic, recycle))
  {
    hide Q.Inv, F.Inv;
    Q.InitInv<T>(threads, garbage);
    F.InitInv(blocks, threads);
  }

  /** A step of the free list leaves every held block held, but the one it adds. */
  lemma HeldStays(pool: F.State, f: F.Action, b: Block)
    requires F.Inv(pool) && F.Enabled(pool, f) && Held(pool, b) && (f.Add? ==> f.node != b)
    ensures Held(F.Apply(pool, f), b)
  {
    if f.Advance? { AdvanceLeavesHeld(pool, f.tid, b); }
  }

  lemma HeadListed(pool: F.State)
    requires F.Inv(pool) && pool.head.Some?
    ensures F.HasNode(pool, pool.head.value) && pool.role[pool.head.value].Listed?
  {
  }

  lemma AdvanceLeavesHeld(pool: F.State, t: Tid, b: Block)
    requires F.Inv(pool) && F.Enabled(pool, F.Advance(t)) && Held(pool, b)
    ensures Held(F.Advanced(pool, t), b)
  {
    hide F.Inv, F.NodeFits, F.Holders;
    var p := pool.threads[t];
    assert F.PcFits(pool, t) by { PcFit(pool, t); }
    if pool.head.Some? { HeadListed(pool); }
    if p.CountOut? { F.LastOneOutLinks(pool, t); }
  }

  lemma PcFit(pool: F.State, t: Tid)
    requires F.Inv(pool) && t in pool.threads
    ensures F.PcFits(pool, t)
  {
  }

  /** The node `try_get` is about to hand out is not held by anybody, so it is in use nowhere. */
  lemma TakenIsNotHeld(pool: F.State, t: Tid)
    requires F.Inv(pool) && F.Enabled(pool, F.Advance(t)) && pool.threads[t].DropTwo?
    ensures !Held(pool, pool.threads[t].node) && Held(F.Advanced(pool, t), pool.threads[t].node)
  {
    PcFit(pool, t);
  }

  /** Only obtaining and giving back change what the queue has in use. */
  lemma StaysKeepsUse<T>(s: Q.State<T>, a: Q.Action<T>)
    requires Q.Enabled(s, a) && StaysInside(s, a)
    ensures Q.Apply(s, a).inUse == s.inUse
  {
    hide Q.ProducerEnabled, Q.ConsumerEnabled, Q.Produced, Q.Consumed, Q.StartOrWrite, Q.StartWalk, Q.Publishes, Q.D.Apply, Q.D.Advanced;
    match a
    case Produce(luck) => Q.ProducerFrame(s, luck);
    case Consume(t) => Q.ConsumerFrame(s, t);
    case _ =>
  }

  /** What the queue and the free list assume of their callers always holds: the block an allocation
      comes back with is in use nowhere, and a block that is given back is held by whoever gives it
      back. */
  lemma AssumptionsMet<T>(s: State<T>, a: Action<T>)
    requires Inv(s) && Enabled(s, a)
    ensures Assumed(s, a)
  {
    hide Q.Inv, F.Inv;
    match a
    case ObtainListed(t, _) => TakenIsNotHeld(s.pool, t);
    case Release(t) => Q.ReleasedInUse(s.queue, t);
    case Return(_, _) => Q.ReturnedInUse(s.queue);
    case _ =>
  }

  lemma ObtainKeepsPlaces<T>(s: State<T>, a: Action<T>)
    requires Inv(s) && Enabled(s, a) && Assumed(s, a) && (a.ObtainListed? || a.ObtainNew?)
    ensures InOnePlace(Apply(s, a))
  {
    hide Q.Inv, F.Inv, Q.ProducerEnabled, F.Advanced;
    var s', b := Apply(s, a), Passed(s, a).value;
    assert s'.queue.inUse == s.queue.inUse + {b} by { ObtainUses(s.queue, WithBlock(a.chance, Some(b))); }
    if a.ObtainListed? {
      TakenIsNotHeld(s.pool, a.tid);
      forall c | Held(s.pool, c) ensures Held(s'.pool, c) {
        AdvanceLeavesHeld(s.pool, a.tid, c);
      }
    }
  }

  lemma ObtainUses<T>(q: Q.State<T>, luck: Q.Luck)
    requires Q.ProducerEnabled(q, luck) && q.producer.TailStored? && luck.block.Some?
    ensures Q.Produced(q, luck).inUse == q.inUse + {luck.block.value}
  {
  }

  lemma GiveBackUses<T>(s: State<T>, a: Action<T>)
    requires Inv(s) && Enabled(s, a) && Assumed(s, a) && (a.Release? || a.Return?)
    ensures Apply(s, a).queue.inUse == s.queue.inUse - {Passed(s, a).value}
  {
    hide Q.Inv, F.Inv, Q.AfterBlock;
  }

  lemma GiveBackKeepsPlaces<T>(s: State<T>, a: Action<T>)
    requires Inv(s) && Enabled(s, a) && Assumed(s, a) && (a.Release? || a.Return?)
    ensures InOnePlace(Apply(s, a))
  {
    hide Q.Inv, F.Inv, Q.ProducerEnabled, Q.ConsumerEnabled, Q.Produced, Q.Consumed, F.Apply;
    var s', b := Apply(s, a), Passed(s, a).value;
    GiveBackUses(s, a);
    assert b in s.queue.inUse by {
      if a.Release? { Q.ReleasedInUse(s.queue, a.tid); } else { Q.ReturnedInUse(s.queue); }
    }
    if !Destroys(s, b) {
      forall c | Held(s.pool, c) && c != b ensures Held(s'.pool, c) {
        HeldStays(s.pool, F.Add(a.tid, b), c);
      }
    }
  }

  lemma PoolKeepsPlaces<T>(s: State<T>, f: F.Action)
    requires Inv(s) && Enabled(s, Pool(f))
    ensures InOnePlace(Apply(s, Pool(f)))
  {
    hide Q.Inv, F.Inv, F.Apply, F.Enabled;
    var s' := Apply(s, Pool(f));
    forall c | Held(s.pool, c) && (f.Add? ==> f.node != c) ensures Held(s'.pool, c) {
      HeldStays(s.pool, f, c);
    }
  }

  lemma QueueStepOf<T>(s: State<T>, a: Action<T>)
    requires Q.Inv(s.queue) && Enabled(s, a) && Assumed(s, a)
    ensures Q.Inv(Apply(s, a).queue)
  {
    hide Q.Inv, Q.Produced, Q.Consumed, Q.ProducerEnabled, Q.ConsumerEnabled, F.Enabled, F.Apply, F.Advanced;
    match a
    case Queue(q) => Q.StepKeepsInv(s.queue, q);
    case ObtainListed(_, chance) => Q.StepKeepsInv(s.queue, Q.Produce(WithBlock(chance, Passed(s, a))));
    case ObtainNew(_, chance) => Q.StepKeepsInv(s.queue, Q.Produce(WithBlock(chance, Passed(s, a))));
    case Release(t) => Q.StepKeepsInv(s.queue, Q.Consume(t));
    case Return(_, chance) => Q.StepKeepsInv(s.queue, Q.Produce(WithBlock(chance, None)));
    case _ =>
  }

  lemma PoolStepOf<T>(s: State<T>, a: Action<T>)
    requires F.Inv(s.pool) && Enabled(s, a) && Assumed(s, a)
    ensures F.Inv(Apply(s, a).pool)
  {
    hide F.Inv, Q.Produced, Q.Consumed, Q.ProducerEnabled, Q.ConsumerEnabled, F.Enabled, F.Advanced, Q.Apply, Q.Enabled;
    match a
    case Pool(f) => F.StepKeepsInv(s.pool, f);
    case ObtainListed(t, _) => F.StepKeepsInv(s.pool, F.Advance(t));
    case Release(t) =>
      if !Destroys(s, Passed(s, a).value) { F.StepKeepsInv(s.pool, F.Add(t, Passed(s, a).value)); }
    case Return(t, _) =>
      if !Destroys(s, Passed(s, a).value) { F.StepKeepsInv(s.pool, F.Add(t, Passed(s, a).value)); }
    case _ =>
  }

  lemma StepKeepsInv<T>(s: State<T>, a: Action<T>)
    requires Inv(s) && Enabled(s, a)
    ensures Assumed(s, a) && Inv(Apply(s, a))
  {
    hide Q.Inv, F.Inv, InOnePlace, DestroyedUnknown, Enabled, Assumed, Apply;
    AssumptionsMet(s, a);
    QueueStepOf(s, a);
    PoolStepOf(s, a);
    PlacesKept(s, a);
    DestroyedStaysUnknown(s, a);
  }

  lemma PlacesKept<T>(s: State<T>, a: Action<T>)
    requires Inv(s) && Enabled(s, a) && Assumed(s, a)
    ensures InOnePlace(Apply(s, a))
  {
    hide Q.Inv, F.Inv, Q.Produced, Q.Consumed, Q.ProducerEnabled, Q.ConsumerEnabled, F.Enabled, F.Apply, F.Advanced, Q.Enabled,
         Q.Apply;
    match a
    case Queue(q) => StaysKeepsUse(s.queue, q);
    case Pool(f) => PoolKeepsPlaces(s, f);
    case ObtainListed(_, _) => ObtainKeepsPlaces(s, a);
    case ObtainNew(_, _) => ObtainKeepsPlaces(s, a);
    case Release(_) => GiveBackKeepsPlaces(s, a);
    case Return(_, _) => GiveBackKeepsPlaces(s, a);
    case OtherObtainsNew(_) =>
    case OtherDestroys(_) =>
  }

  // ---------------------------------------------------------------------------
  // Runs
  // ---------------------------------------------------------------------------

  /** A step of the pair; whether the parts' assumptions hold is not asked. */
  ghost predicate Next<T(!new)>(s: State<T>, s': State<T>) {
    exists a: Action<T> :: Enabled(s, a) && (Assumed(s, a) ==> s' == Apply(s, a))
  }

  ghost predicate IsRun<T(!new)>(run: seq<State<T>>, threads: set<Tid>, garbage: Option<Block>, blocks: set<Block>, dynamic: set<Block>,
                                  recycle: bool) {
    && |run| > 0 && run[0] == Init(threads, garbage, blocks, dynamic, recycle) && |threads| + 1 < F.FLAG
    && forall i :: 0 <= i < |run| - 1 ==> Next(run[i], run[i + 1])
  }

  lemma {:induction false} RunInv<T(!new)>(run: seq<State<T>>, threads: set<Tid>, garbage: Option<Block>, blocks: set<Block>,
                                           dynamic: set<Block>, recycle: bool, i: nat)
    requires IsRun(run, threads, garbage, blocks, dynamic, recycle) && i < |run|
    ensures Inv(run[i])
  {
    hide Inv, Enabled, Apply, Assumed;
    if i == 0 {
      InitInv<T>(threads, garbage, blocks, dynamic, recycle);
    } else {
      RunInv(run, threads, garbage, blocks, dynamic, recycle, i - 1);
      assert Next(run[i - 1], run[i - 1 + 1]);
      var a: Action<T> :| Enabled(run[i - 1], a) && (Assumed(run[i - 1], a) ==> run[i] == Apply(run[i - 1], a));
      StepKeepsInv(run[i - 1], a);
    }
  }

  /** In every run, with any number of other sub-queues on the same free list: a block this queue uses
      is not on the list, not being taken or added by anybody and not destroyed; no thread inside the
      free list ever has in hand a block that may be destroyed; and whatever is delivered is what was
      enqueued at its index. */
  lemma BlockInOnePlace<T(!new)>(run: seq<State<T>>, threads: set<Tid>, garbage: Option<Block>, blocks: set<Block>,
                                 dynamic: set<Block>, recycle: bool, i: nat, b: Block, k: nat)
    requires IsRun(run, threads, garbage, blocks, dynamic, recycle) && i < |run|
    ensures b in run[i].queue.inUse ==>
              && b !in run[i].pool.list && b !in run[i].nobodys && Held(run[i].pool, b)
              && run[i].pool.added[b] == run[i].pool.got[b]
    ensures Destroys(run[i], b) ==> Unknown(run[i].pool, b)
    ensures k in run[i].queue.delivered ==>
              k < |run[i].queue.elements| && run[i].queue.delivered[k] == run[i].queue.elements[k]
  {
    hide Q.Inv, F.Inv, IsRun;
    RunInv(run, threads, garbage, blocks, dynamic, recycle, i);
    if k in run[i].queue.delivered { Q.DeliveredFits(run[i].queue, k); }
    if b in run[i].queue.inUse { HeldTally(run[i].pool, b); }
  }

  lemma HeldTally(pool: F.State, b: Block)
    requires F.Inv(pool) && Held(pool, b)
    ensures b !in pool.list && pool.added[b] == pool.got[b]
  {
    assert F.TallyFits(pool, b);
  }

  /** The free list after thread t, undisturbed, has given back its block, and after the next `try_get`
      by thread u then. */
  function AfterAdding(pool: F.State, t: Tid): F.State { F.Alone(pool, t, 5) }

  function AfterGetting(pool: F.State, u: Tid): F.State
    requires F.Enabled(pool, F.TryGet(u))
  {
    F.Alone(F.Apply(pool, F.TryGet(u)), u, 6)
  }

  /** A block that this queue gives back is nobody's again if it must be destroyed, and otherwise comes
      to the front of the free list, and is what the next thread gets from there. */
  lemma GivenBackIsReused<T>(s: State<T>, a: Action<T>, u: Tid)
    requires Inv(s) && Enabled(s, a) && (a.Release? || a.Return?) && F.AllIdle(s.pool) && u in s.pool.threads
    ensures Assumed(s, a)
    ensures var b, s' := Passed(s, a).value, Apply(s, a);
            if Destroys(s, b) then b in s'.nobodys && s'.pool == s.pool
            else
              var p := AfterAdding(s'.pool, a.tid);
              && F.Prepended(s.pool, p, b) && p.list == [b] + s.pool.list && F.Enabled(p, F.TryGet(u))
              && F.TookFirst(p, AfterGetting(p, u)) && AfterGetting(p, u).list == s.pool.list
  {
    hide Q.Inv, F.Inv, F.Prepended, F.TookFirst, F.Alone;
    AssumptionsMet(s, a);
    var b := Passed(s, a).value;
    if !Destroys(s, b) { AddedIsFirst(s.pool, a.tid, b, u); }
  }

  lemma AddedIsFirst(pool: F.State, t: Tid, b: Block, u: Tid)
    requires F.Inv(pool) && F.AllIdle(pool) && F.Enabled(pool, F.Add(t, b)) && u in pool.threads
    ensures var p := AfterAdding(F.Apply(pool, F.Add(t, b)), t);
            && F.Prepended(pool, p, b) && p.list == [b] + pool.list && F.Enabled(p, F.TryGet(u))
            && F.TookFirst(p, AfterGetting(p, u)) && AfterGetting(p, u).list == pool.list
  {
    hide F.Inv, F.Alone;
    F.LoneAddPrepends(pool, t, b);
    F.StepKeepsInv(pool, F.Add(t, b));
    AloneKeepsInv(F.Apply(pool, F.Add(t, b)), t, 5);
    F.LoneGetTakesFirst(AfterAdding(F.Apply(pool, F.Add(t, b)), t), u);
  }

  lemma {:induction false} AloneKeepsInv(pool: F.State, t: Tid, n: nat)
    requires F.Inv(pool)
    ensures F.Inv(F.Alone(pool, t, n))
    decreases n
  {
    hide F.Inv, F.Advanced, F.Enabled;
    if n > 0 && F.Enabled(pool, F.Advance(t)) {
      F.StepKeepsInv(pool, F.Advance(t));
      AdvanceIsApplied(pool, t);
      AloneKeepsInv(F.Advanced(pool, t), t, n - 1);
    }
  }

  lemma AdvanceIsApplied(pool: F.State, t: Tid)
    requires F.Enabled(pool, F.Advance(t))
    ensures F.Apply(pool, F.Advance(t)) == F.Advanced(pool, t)
  {
    hide F.Advanced;
  }
}
