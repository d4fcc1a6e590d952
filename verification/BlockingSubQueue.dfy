/** The blocking queue over one real sub-queue: the semaphore of `BlockingQueue` in front of
    `ImplicitQueue`, every access of both a step of its own.  `BlockingQueue` sees the inner queue
    only as a number of unclaimed elements of which a dequeue takes some; here that is proved of
    the inner queue: each step of the pair is a step of `BlockingQueue`, or none that it sees.

    One thread enqueues, possibly without success, and any number dequeue. */
module BlockingSubQueue {
  import opened Options
  import opened Numbers
  import B = BlockingQueue
  import S = Semaphore
  import D = OptimisticDequeue
  import Q = ImplicitQueue
  import QueueOutcomes

  type Tid = nat

  datatype State<T> = State(sema: S.State, callers: map<Tid, B.Caller>, queue: Q.State<T>, enqueuer: Tid)

  function Init<T>(spins: nat, threads: set<Tid>, garbage: Option<nat>, enqueuer: Tid): State<T> {
    State(S.Init(0, spins, threads), map t | t in threads :: B.Outside(0), Q.Init(threads, garbage), enqueuer)
  }

  /** `Outer` is a step of the semaphore or of the calls around it. */
  datatype Action<T> =
    | Outer(a: B.Action)
    | BeginEnqueue(items: seq<T>)
    | Produce(luck: Q.Luck)
    | BeginDequeue(tid: Tid)
    | Consume(tid: Tid)
    | Elsewhere(block: nat, link: Option<nat>, count: nat, cell: nat, item: T)

  /** Elements published and not won by anybody. */
  function Unclaimed<T>(q: Q.State<T>): nat { if Q.Head(q) <= Q.Tail(q) then Q.Tail(q) - Q.Head(q) else 0 }

  /** What `BlockingQueue` sees. */
  function Seen<T>(s: State<T>): B.State { B.State(s.sema, Unclaimed(s.queue), s.callers) }

  /** Thread t is in no call of the inner queue. */
  predicate OutsideInner<T>(s: State<T>, t: Tid) {
    && (t in s.queue.consumers ==> s.queue.consumers[t].Outside?)
    && (t in s.queue.claims.threads ==> s.queue.claims.threads[t].Idle?)
    && (t == s.enqueuer ==> s.queue.producer.Resting?)
  }

  /** Thread t spins on the inner queue and wants more. */
  predicate Spins<T>(s: State<T>, t: Tid) {
    t in s.callers && s.callers[t].Taking? && s.callers[t].count < s.callers[t].want
  }

  predicate Enabled<T>(s: State<T>, a: Action<T>) {
    match a
    case Outer(b) => B.Enabled(Seen(s), b) && OutsideInner(s, b.tid) && !b.Enqueue? && (b.Work? ==> !Spins(s, b.tid))
    case BeginEnqueue(items) =>
      && s.enqueuer in s.callers && s.callers[s.enqueuer].Outside? && S.Rests(s.sema, s.enqueuer)
      && s.enqueuer in s.sema.threads && OutsideInner(s, s.enqueuer) && Q.Enabled(s.queue, Q.Enqueue(items))
    case Produce(luck) => Q.Enabled(s.queue, Q.Produce(luck))
    case BeginDequeue(t) =>
      && Spins(s, t) && OutsideInner(s, t)
      && Q.Enabled(s.queue, Q.Dequeue(t, s.callers[t].want - s.callers[t].count))
    case Consume(t) => Q.Enabled(s.queue, Q.Consume(t))
    case Elsewhere(b, link, count, cell, item) => Q.Enabled(s.queue, Q.Elsewhere(b, link, count, cell, item))
  }

  /** How many indices thread t wins with its next step. */
  function Won<T>(q: Q.State<T>, t: Tid): nat
    requires Q.Enabled(q, Q.Consume(t))
  {
    if q.consumers[t].Outside? && q.claims.threads[t].Claiming? then q.claims.threads[t].actual else 0
  }

  function Apply<T>(s: State<T>, a: Action<T>): State<T>
    requires Enabled(s, a)
  {
    match a
    case Outer(b) => var s' := B.Apply(Seen(s), b); s.(sema := s'.sema, callers := s'.callers)
    case BeginEnqueue(items) => s.(queue := Q.Apply(s.queue, Q.Enqueue(items)))
    case Produce(luck) =>
      s.(queue := Q.Apply(s.queue, Q.Produce(luck)),
         callers := if Q.Publishes(s.queue) then s.callers[s.enqueuer := B.Enqueued(|s.queue.producer.items|)] else s.callers)
    case BeginDequeue(t) => s.(queue := Q.Apply(s.queue, Q.Dequeue(t, s.callers[t].want - s.callers[t].count)))
    case Consume(t) =>
      var won := Won(s.queue, t);
      s.(queue := Q.Apply(s.queue, Q.Consume(t)),
         callers := if won > 0 && Spins(s, t) then s.callers[t := B.Taking(s.callers[t].want, s.callers[t].count + won)]
                    else s.callers)
    case Elsewhere(b, link, count, cell, item) => s.(queue := Q.Apply(s.queue, Q.Elsewhere(b, link, count, cell, item)))
  }

  /** The step `BlockingQueue` sees, if it sees one. */
  function Step<T>(s: State<T>, a: Action<T>): Option<B.Action>
    requires Enabled(s, a)
  {
    match a
    case Outer(b) => Some(b)
    case Produce(_) =>
      if Q.Publishes(s.queue) then Some(B.Enqueue(s.enqueuer, |s.queue.producer.items|)) else None
    case Consume(t) => if Won(s.queue, t) > 0 then Some(B.Work(t, false, false, Won(s.queue, t))) else None
    case _ => None
  }

  // ---------------------------------------------------------------------------
  // What the inner queue promises
  // ---------------------------------------------------------------------------

  /** The most a thread can still win in its current attempt. */
  function Asks(p: D.Pc): nat {
    match p
    case TailRead(max, _) => max
    case OverRead(max, _, _) => max
    case Asking(_, desired) => desired
    case Ticketed(_, desired, _) => desired
    case Granted(_, actual, _) => actual
    case Claiming(_, actual) => actual
    case _ => 0
  }

  /** A thread inside a dequeue of the inner queue is one that spins, and does not ask for more than it
      wants; a running enqueue is the enqueuer's. */
  ghost predicate InnerFits<T>(s: State<T>) {
    && s.queue.consumers.Keys == s.queue.claims.threads.Keys == s.callers.Keys
    && (forall t :: t in s.callers ==> AsksNoMore(s, t))
    && (!s.queue.producer.Resting? ==>
          s.enqueuer in s.callers && s.callers[s.enqueuer].Outside? && S.Rests(s.sema, s.enqueuer))
  }

  predicate AsksNoMore<T>(s: State<T>, t: Tid)
    requires t in s.callers
  {
    && (t in s.queue.consumers && !s.queue.consumers[t].Outside? ==> s.callers[t].Taking?)
    && (t in s.queue.claims.threads && !s.queue.claims.threads[t].Idle? ==>
          Spins(s, t) && Asks(s.queue.claims.threads[t]) <= s.callers[t].want - s.callers[t].count)
  }

  ghost predicate Inv<T>(s: State<T>) {
    Q.Inv(s.queue) && B.Inv(Seen(s)) && InnerFits(s)
  }

  lemma InitInv<T>(spins: nat, threads: set<Tid>, garbage: Option<nat>, enqueuer: Tid)
    requires enqueuer in threads
    ensures Inv(Init<T>(spins, threads, garbage, enqueuer))
  {
    hide Q.Inv, B.Inv;
    Q.InitInv<T>(threads, garbage);
    B.InitInv(spins, threads);
    assert Seen(Init<T>(spins, threads, garbage, enqueuer)) == B.Init(spins, threads);
  }

  /** An attempt never asks for more in the course of it. */
  lemma AsksLess(d: D.State, t: Tid)
    requires t in d.threads && !d.threads[t].Idle?
    ensures var d' := D.Advanced(d, t);
            && t in d'.threads && Asks(d'.threads[t]) <= Asks(d.threads[t]) && d'.threads == d.threads[t := d'.threads[t]]
            && d'.tail == d.tail
            && d'.head == d.head + (if d.threads[t].Claiming? then d.threads[t].actual else 0)
            && (d.threads[t].Claiming? ==> d'.threads[t].Idle?)
  {
    hide D.Resolve;
  }

  /** What thread t wins next was asked for, and there are so many unclaimed elements: the inner
      dequeue takes no more than `BlockingQueue` lets it take. */
  lemma WonFits<T>(s: State<T>, t: Tid)
    requires Inv(s) && Q.Enabled(s.queue, Q.Consume(t)) && Won(s.queue, t) > 0
    ensures Spins(s, t) && Won(s.queue, t) <= s.callers[t].want - s.callers[t].count
    ensures Q.Head(s.queue) + Won(s.queue, t) <= Q.Tail(s.queue) && Won(s.queue, t) <= Unclaimed(s.queue)
  {
    hide Q.Inv, B.Inv, D.Inv;
    ClaimsFit(s.queue);
    D.ClaimFits(s.queue.claims);
    assert AsksNoMore(s, t);
  }

  lemma ClaimsFit<T>(q: Q.State<T>)
    requires Q.Inv(q)
    ensures D.Inv(q.claims) && Q.Head(q) <= Q.Tail(q)
  {
    hide D.Inv;
    D.ClaimFits(q.claims);
  }

  // ---------------------------------------------------------------------------
  // Each step is one that BlockingQueue allows, or none that it sees
  // ---------------------------------------------------------------------------

  lemma ProduceSeen<T>(s: State<T>, luck: Q.Luck)
    requires Inv(s) && Enabled(s, Produce(luck))
    ensures Refined(s, Produce(luck))
  {
    hide Q.Inv, Q.Produced, Q.ProducerEnabled, Q.Publishes;
    ClaimsFit(s.queue);
    Q.ProducerFrame(s.queue, luck);
    if Q.Publishes(s.queue) { EnqueuerKnown(s); }
  }

  lemma EnqueuerKnown<T>(s: State<T>)
    requires B.Inv(Seen(s)) && s.enqueuer in s.callers
    ensures s.enqueuer in s.sema.threads && s.enqueuer in s.sema.acquired
  {
  }

  lemma CallerKnown<T>(s: State<T>, t: Tid)
    requires B.Inv(Seen(s)) && t in s.callers
    ensures t in s.sema.threads && t in s.sema.acquired && t in s.sema.wanted
  {
  }

  lemma ConsumeSeen<T>(s: State<T>, t: Tid)
    requires Inv(s) && Enabled(s, Consume(t))
    ensures Refined(s, Consume(t))
  {
    hide Q.Inv, B.Inv, Q.Consumed, D.Advanced, InnerFits;
    ClaimsFit(s.queue);
    if Won(s.queue, t) > 0 {
      WonFits(s, t);
      CallerKnown(s, t);
    }
    Q.ConsumerFrame(s.queue, t);
    if s.queue.consumers[t].Outside? { AsksLess(s.queue.claims, t); }
  }

  lemma OuterSeen<T>(s: State<T>, b: B.Action)
    requires Inv(s) && Enabled(s, Outer(b))
    ensures Refined(s, Outer(b))
  {
    hide Inv, S.Advanced, S.Apply, S.Enabled;
  }

  /** The step is one of `BlockingQueue`, or leaves what it sees as it is. */
  ghost predicate Refined<T>(s: State<T>, a: Action<T>)
    requires Enabled(s, a)
  {
    match Step(s, a)
    case None => Seen(Apply(s, a)) == Seen(s)
    case Some(b) => B.Enabled(Seen(s), b) && Seen(Apply(s, a)) == B.Apply(Seen(s), b)
  }

  lemma StepRefines<T>(s: State<T>, a: Action<T>)
    requires Inv(s) && Enabled(s, a)
    ensures Refined(s, a)
  {
    hide Inv, Q.Produced, Q.Consumed, Q.ProducerEnabled, Q.ConsumerEnabled, S.Advanced, S.Apply;
    match a
    case Outer(b) => OuterSeen(s, b);
    case Produce(luck) => ProduceSeen(s, luck);
    case Consume(t) => ConsumeSeen(s, t);
    case _ =>
  }

  lemma SeenKeepsInv<T>(s: State<T>, a: Action<T>)
    requires Inv(s) && Enabled(s, a)
    ensures B.Inv(Seen(Apply(s, a)))
  {
    hide B.Inv, Q.Inv, Enabled, Apply, B.Enabled, B.Apply, Step, InnerFits;
    StepRefines(s, a);
    if Step(s, a).Some? { B.StepKeepsInv(Seen(s), Step(s, a).value); }
  }

  lemma QueueKeepsInv<T>(s: State<T>, a: Action<T>)
    requires Inv(s) && Enabled(s, a)
    ensures Q.Inv(Apply(s, a).queue)
  {
    hide Q.Inv, B.Inv, Q.Produced, Q.Consumed, Q.ProducerEnabled, Q.ConsumerEnabled, B.Apply, B.Enabled, InnerFits;
    match a
    case Outer(_) =>
    case BeginEnqueue(items) => Q.StepKeepsInv(s.queue, Q.Enqueue(items));
    case Produce(luck) => Q.StepKeepsInv(s.queue, Q.Produce(luck));
    case BeginDequeue(t) => Q.StepKeepsInv(s.queue, Q.Dequeue(t, s.callers[t].want - s.callers[t].count));
    case Consume(t) => Q.StepKeepsInv(s.queue, Q.Consume(t));
    case Elsewhere(b, link, count, cell, item) => Q.StepKeepsInv(s.queue, Q.Elsewhere(b, link, count, cell, item));
  }

  /** A step of the calls around the semaphore moves its own thread alone. */
  lemma OuterFrame(s: B.State, b: B.Action, u: Tid)
    requires B.Inv(s) && B.Enabled(s, b) && u in s.callers && u != b.tid
    ensures var s' := B.Apply(s, b);
            s'.callers.Keys == s.callers.Keys && s'.callers[u] == s.callers[u] && (S.Rests(s.sema, u) ==> S.Rests(s'.sema, u))
  {
    hide S.Advanced, S.Apply, B.ElementsMatched, S.Inv;
    if !B.QueueOnly(s, b) {
      var step := B.SemaphoreStep(s, b);
      B.AdvanceApplies(s.sema, step);
      assert b.tid in s.sema.wanted by { B.AcquiredWithinWanted(s.sema, b.tid); }
      if step.Advance? {
        S.AdvanceMovesOne(s.sema, b.tid, step.spurious, step.giveUp);
      } else {
        B.BeginFrame(s.sema, step);
      }
    }
  }

  lemma OuterInner<T>(s: State<T>, b: B.Action)
    requires Inv(s) && Enabled(s, Outer(b))
    ensures InnerFits(Apply(s, Outer(b)))
  {
    hide Q.Inv, B.Inv, B.Apply, B.Enabled;
    var s' := Apply(s, Outer(b));
    assert s'.callers.Keys == s.callers.Keys by { OuterKeys(Seen(s), b); }
    forall u | u in s.callers && u != b.tid
      ensures s'.callers[u] == s.callers[u] && (S.Rests(s.sema, u) ==> S.Rests(s'.sema, u))
    {
      OuterFrame(Seen(s), b, u);
    }
    forall u | u in s'.callers ensures AsksNoMore(s', u) {
      if u != b.tid { assert AsksNoMore(s, u); }
    }
  }

  lemma OuterKeys(s: B.State, b: B.Action)
    requires B.Enabled(s, b)
    ensures B.Apply(s, b).callers.Keys == s.callers.Keys
  {
    hide S.Advanced, S.Apply;
  }

  lemma ProduceInner<T>(s: State<T>, luck: Q.Luck)
    requires Inv(s) && Enabled(s, Produce(luck))
    ensures InnerFits(Apply(s, Produce(luck)))
  {
    hide Q.Inv, B.Inv, Q.Produced, Q.ProducerEnabled, Q.Publishes;
    var s' := Apply(s, Produce(luck));
    Q.ProducerFrame(s.queue, luck);
    forall u | u in s'.callers ensures AsksNoMore(s', u) {
      assert AsksNoMore(s, u);
    }
  }

  lemma BeginInner<T>(s: State<T>, a: Action<T>)
    requires Inv(s) && Enabled(s, a) && (a.BeginEnqueue? || a.BeginDequeue? || a.Elsewhere?)
    ensures InnerFits(Apply(s, a))
  {
    hide Q.Inv, B.Inv, Q.StartOrWrite;
    var s' := Apply(s, a);
    forall u | u in s'.callers ensures AsksNoMore(s', u) {
      assert AsksNoMore(s, u);
    }
  }

  lemma ConsumeInner<T>(s: State<T>, t: Tid)
    requires Inv(s) && Enabled(s, Consume(t))
    ensures InnerFits(Apply(s, Consume(t)))
  {
    hide Q.Inv, B.Inv, Q.Consumed, D.Advanced, Asks;
    var s' := Apply(s, Consume(t));
    Q.ConsumerFrame(s.queue, t);
    assert AsksNoMore(s, t);
    if s.queue.consumers[t].Outside? {
      AsksLess(s.queue.claims, t);
      if s.queue.claims.threads[t].Claiming? { PositiveClaim(s.queue, t); }
    }
    forall u | u in s'.callers ensures AsksNoMore(s', u) {
      assert AsksNoMore(s, u);
    }
    if !s.queue.producer.Resting? { assert !Spins(s, s.enqueuer); }
  }

  lemma PositiveClaim<T>(q: Q.State<T>, t: Tid)
    requires Q.Inv(q) && t in q.claims.threads && q.claims.threads[t].Claiming?
    ensures q.claims.threads[t].actual > 0
  {
    hide D.Inv;
    Q.ClaimIsPositive(q.claims, t, q.claims.threads[t].mine, q.claims.threads[t].actual);
  }

  lemma StepKeepsInv<T>(s: State<T>, a: Action<T>)
    requires Inv(s) && Enabled(s, a)
    ensures Inv(Apply(s, a))
  {
    hide Q.Inv, B.Inv, InnerFits, Enabled, Apply;
    QueueKeepsInv(s, a);
    SeenKeepsInv(s, a);
    match a
    case Outer(b) => OuterInner(s, b);
    case Produce(luck) => ProduceInner(s, luck);
    case Consume(t) => ConsumeInner(s, t);
    case _ => BeginInner(s, a);
  }

  // ---------------------------------------------------------------------------
  // Runs
  // ---------------------------------------------------------------------------

  ghost predicate Next<T(!new)>(s: State<T>, s': State<T>) {
    exists a: Action<T> :: Enabled(s, a) && s' == Apply(s, a)
  }

  ghost predicate IsRun<T(!new)>(run: seq<State<T>>, spins: nat, threads: set<Tid>, garbage: Option<nat>, enqueuer: Tid) {
    && |run| > 0 && run[0] == Init(spins, threads, garbage, enqueuer) && enqueuer in threads
    && forall i :: 0 <= i < |run| - 1 ==> Next(run[i], run[i + 1])
  }

  lemma {:induction false} RunInv<T(!new)>(run: seq<State<T>>, spins: nat, threads: set<Tid>, garbage: Option<nat>,
                                           enqueuer: Tid, i: nat)
    requires IsRun(run, spins, threads, garbage, enqueuer) && i < |run|
    ensures Inv(run[i])
  {
    hide Inv, Enabled, Apply;
    if i == 0 {
      InitInv<T>(spins, threads, garbage, enqueuer);
    } else {
      RunInv(run, spins, threads, garbage, enqueuer, i - 1);
      assert Next(run[i - 1], run[i - 1 + 1]);
      var a: Action<T> :| Enabled(run[i - 1], a) && run[i] == Apply(run[i - 1], a);
      StepKeepsInv(run[i - 1], a);
    }
  }

  /** What `BlockingQueue` sees of a run, without the steps it does not see. */
  ghost function SeenRun<T(!new)>(run: seq<State<T>>): (r: seq<B.State>)
    requires |run| > 0
    ensures |r| > 0 && r[0] == Seen(run[0]) && r[|r| - 1] == Seen(run[|run| - 1])
  {
    var n := |run| - 1;
    if n == 0 then [Seen(run[0])]
    else
      var before := SeenRun(run[..n]);
      if Seen(run[n]) == Seen(run[n - 1]) then before else before + [Seen(run[n])]
  }

  /** Every run of the pair is, seen from outside, a run of `BlockingQueue`. */
  lemma {:induction false} RunRefines<T(!new)>(run: seq<State<T>>, spins: nat, threads: set<Tid>, garbage: Option<nat>,
                                               enqueuer: Tid)
    requires IsRun(run, spins, threads, garbage, enqueuer)
    ensures B.IsRun(SeenRun(run), spins, threads)
  {
    hide Inv, Enabled, Apply, B.Enabled, B.Apply, Refined;
    var n := |run| - 1;
    if n == 0 {
      assert Seen(run[0]) == B.Init(spins, threads);
    } else {
      RunRefines(run[..n], spins, threads, garbage, enqueuer);
      var before := SeenRun(run[..n]);
      assert Next(run[n - 1], run[n - 1 + 1]);
      var a: Action<T> :| Enabled(run[n - 1], a) && run[n] == Apply(run[n - 1], a);
      RunInv(run, spins, threads, garbage, enqueuer, n - 1);
      StepRefines(run[n - 1], a);
      if Seen(run[n]) != Seen(run[n - 1]) {
        SeenNext(run[n - 1], a);
        assert forall i :: 0 <= i < |before| - 1 ==> B.Next(before[i], before[i + 1]);
      }
    }
  }

  lemma SeenNext<T(!new)>(s: State<T>, a: Action<T>)
    requires Enabled(s, a) && Refined(s, a) && Seen(Apply(s, a)) != Seen(s)
    ensures B.Next(Seen(s), Seen(Apply(s, a)))
  {
  }

  /** Whoever spins on the inner queue for n more elements finds at least n that are published and
      not won by anybody, whatever producer and consumers are in the middle of; and whatever is
      delivered is what was enqueued at its index. */
  lemma SpinnerFindsElements<T(!new)>(run: seq<State<T>>, spins: nat, threads: set<Tid>, garbage: Option<nat>,
                                      enqueuer: Tid, i: nat, t: Tid, k: nat)
    requires IsRun(run, spins, threads, garbage, enqueuer) && i < |run|
    ensures Spins(run[i], t) ==>
              Q.Head(run[i].queue) + (run[i].callers[t].want - run[i].callers[t].count) <= Q.Tail(run[i].queue)
    ensures k in run[i].queue.delivered ==>
              k < |run[i].queue.elements| && run[i].queue.delivered[k] == run[i].queue.elements[k]
  {
    hide Q.Inv, B.Inv, InnerFits, IsRun;
    RunInv(run, spins, threads, garbage, enqueuer, i);
    var s := run[i];
    if k in s.queue.delivered { Q.DeliveredFits(s.queue, k); }
    ClaimsFit(s.queue);
    if Spins(s, t) { B.SpinnerCovered(Seen(s), t); }
  }

  /** The inner dequeue of t run to its end, nobody else moving. */
  ghost function Finished<T>(s: State<T>, t: Tid): State<T>
    requires Inv(s) && t in s.callers
    decreases QueueOrder(s, t).0, QueueOrder(s, t).1, QueueOrder(s, t).2
  {
    InnerKnown(s, t);
    if QueueOutcomes.Rests(s.queue, t) then s
    else
      Approaches(s, t);
      Finished(Apply(s, Consume(t)), t)
  }

  ghost function QueueOrder<T>(s: State<T>, t: Tid): (nat, nat, nat)
    requires Inv(s) && t in s.callers
  {
    InnerKnown(s, t);
    (D.Order(s.queue.claims.threads[t]), QueueOutcomes.Owed(s.queue.consumers[t]), QueueOutcomes.Order(s.queue.consumers[t]))
  }

  lemma InnerKnown<T>(s: State<T>, t: Tid)
    requires Inv(s) && t in s.callers
    ensures t in s.queue.consumers && t in s.queue.claims.threads && Q.Inv(s.queue)
  {
    hide Q.Inv, B.Inv;
  }

  lemma Approaches<T>(s: State<T>, t: Tid)
    requires Inv(s) && t in s.callers && !QueueOutcomes.Rests(s.queue, t)
    ensures Enabled(s, Consume(t)) && t in Apply(s, Consume(t)).callers && Inv(Apply(s, Consume(t)))
    ensures var x, y := QueueOrder(Apply(s, Consume(t)), t), QueueOrder(s, t);
            x.0 < y.0 || (x.0 == y.0 && (x.1 < y.1 || (x.1 == y.1 && x.2 < y.2)))
  {
    hide Q.Inv, B.Inv, Q.Consumed, Q.ConsumerEnabled, InnerFits;
    InnerKnown(s, t);
    QueueOutcomes.ConsumerDescends(s.queue, t);
    StepKeepsInv(s, Consume(t));
  }
  lemma FinishedStep<T>(s: State<T>, t: Tid)
    requires Inv(s) && t in s.callers
    ensures QueueOutcomes.Rests(s.queue, t) ==> Finished(s, t) == s
    ensures !QueueOutcomes.Rests(s.queue, t) ==>
              && Enabled(s, Consume(t)) && t in Apply(s, Consume(t)).callers && Inv(Apply(s, Consume(t)))
              && Finished(s, t) == Finished(Apply(s, Consume(t)), t)
  {
    hide Q.Inv, B.Inv, Q.Consumed, Q.ConsumerEnabled, InnerFits, Enabled, Apply, QueueOrder;
    if !QueueOutcomes.Rests(s.queue, t) { Approaches(s, t); }
  }

  /** From s to s' thread t alone has moved, in the inner queue, and counts every index it has won there. */
  ghost predicate Counted<T>(s: State<T>, s': State<T>, t: Tid) {
    && t in s.callers && t in s'.callers && s'.sema == s.sema && s'.enqueuer == s.enqueuer
    && Q.Head(s.queue) <= Q.Head(s'.queue) && s'.callers == s.callers[t := s'.callers[t]]
    && if Q.Head(s'.queue) == Q.Head(s.queue) then s'.callers[t] == s.callers[t]
       else
         && s.callers[t].Taking?
         && s'.callers[t] == B.Taking(s.callers[t].want, s.callers[t].count + Q.Head(s'.queue) - Q.Head(s.queue))
  }

  lemma ConsumeCounts<T>(s: State<T>, t: Tid)
    requires Inv(s) && t in s.callers && Enabled(s, Consume(t))
    ensures Counted(s, Apply(s, Consume(t)), t)
  {
    hide Q.Inv, B.Inv, Q.Consumed, InnerFits, D.Advanced;
    InnerKnown(s, t);
    Q.ConsumerFrame(s.queue, t);
    if s.queue.consumers[t].Outside? { AsksLess(s.queue.claims, t); }
    if Won(s.queue, t) > 0 {
      WonFits(s, t);
    } else {
      assert s.callers[t := s.callers[t]] == s.callers;
    }
  }

  lemma CountedOn<T>(s: State<T>, s1: State<T>, s': State<T>, t: Tid)
    requires Counted(s, s1, t) && Counted(s1, s', t)
    ensures Counted(s, s', t)
  {
    assert s.callers[t := s1.callers[t]][t := s'.callers[t]] == s.callers[t := s'.callers[t]];
  }

  /** An undisturbed attempt does in the inner queue what it does there alone, and its caller counts
      every index it wins. */
  lemma {:induction false} AttemptCounts<T>(s: State<T>, t: Tid)
    requires Inv(s) && t in s.callers
    ensures t in s.queue.consumers && t in s.queue.claims.threads && Q.Inv(s.queue)
    ensures Inv(Finished(s, t)) && Finished(s, t).queue == QueueOutcomes.Finished(s.queue, t)
    ensures Counted(s, Finished(s, t), t)
    decreases QueueOrder(s, t).0, QueueOrder(s, t).1, QueueOrder(s, t).2
  {
    hide Q.Inv, B.Inv, Q.Consumed, Q.ConsumerEnabled, InnerFits, Finished, QueueOutcomes.Finished, Counted, QueueOrder;
    InnerKnown(s, t);
    FinishedStep(s, t);
    QueueOutcomes.FinishedStep(s.queue, t);
    if QueueOutcomes.Rests(s.queue, t) {
      CountedHere(s, t);
    } else {
      Approaches(s, t);
      var s1 := Apply(s, Consume(t));
      ConsumeCounts(s, t);
      AttemptCounts(s1, t);
      CountedOn(s, s1, Finished(s1, t), t);
    }
  }

  lemma CountedHere<T>(s: State<T>, t: Tid)
    requires t in s.callers
    ensures Counted(s, s, t)
  {
    assert s.callers[t := s.callers[t]] == s.callers;
  }

  /** The next attempt of t, from its beginning to its end, nobody else moving. */
  ghost function NextAttempt<T>(s: State<T>, t: Tid): State<T>
    requires Inv(s) && Enabled(s, BeginDequeue(t))
  {
    StepKeepsInv(s, BeginDequeue(t));
    Finished(Apply(s, BeginDequeue(t)), t)
  }

  lemma SpinnerMayBegin<T>(s: State<T>, t: Tid)
    requires Inv(s) && Spins(s, t) && OutsideInner(s, t)
    ensures Enabled(s, BeginDequeue(t))
  {
    hide Q.Inv, B.Inv;
  }

  lemma BeginApplies<T>(s: State<T>, t: Tid)
    requires Enabled(s, BeginDequeue(t))
    ensures var max, s0 := s.callers[t].want - s.callers[t].count, Apply(s, BeginDequeue(t));
            && Q.Enabled(s.queue, Q.Dequeue(t, max)) && s0 == s.(queue := Q.Apply(s.queue, Q.Dequeue(t, max)))
            && t in s0.callers && Q.Head(s0.queue) == Q.Head(s.queue)
  {
  }

  /** From s to s' thread t has been through a dequeue of the inner queue for all it wanted. */
  ghost predicate AttemptOf<T>(s: State<T>, s': State<T>, t: Tid) {
    && Spins(s, t) && Q.Inv(s.queue) && Counted(s, s', t)
    && var max := s.callers[t].want - s.callers[t].count;
       Q.Enabled(s.queue, Q.Dequeue(t, max)) && s'.queue == QueueOutcomes.AfterDequeue(s.queue, t, max)
  }

  lemma AttemptRuns<T>(s: State<T>, t: Tid)
    requires Enabled(s, BeginDequeue(t)) && Inv(s)
    ensures Inv(NextAttempt(s, t)) && AttemptOf(s, NextAttempt(s, t), t)
  {
    hide Q.Inv, B.Inv, InnerFits, Finished, QueueOutcomes.Finished, Apply;
    var s0 := Apply(s, BeginDequeue(t));
    BeginApplies(s, t);
    StepKeepsInv(s, BeginDequeue(t));
    AttemptCounts(s0, t);
    QueueOutcomes.BeginFits(s.queue, t, s.callers[t].want - s.callers[t].count);
  }

  /** A spinner that has delivered what it won before and is alone in the inner queue comes away from
      its next attempt with all it wants, and has taken out exactly the first elements that were left. */
  lemma LoneSpinnerSucceeds<T>(s: State<T>, t: Tid)
    requires Inv(s) && Spins(s, t) && OutsideInner(s, t)
    requires forall u :: u in s.queue.claims.threads ==> s.queue.claims.threads[u].Idle?
    ensures Enabled(s, BeginDequeue(t))
    ensures var s', more := NextAttempt(s, t), s.callers[t].want - s.callers[t].count;
            && Inv(s') && s'.sema == s.sema && s'.callers == s.callers[t := B.Taking(s.callers[t].want, s.callers[t].want)]
            && QueueOutcomes.Dequeued(s.queue, s'.queue, t, more)
  {
    hide Q.Inv, B.Inv, InnerFits, NextAttempt, QueueOutcomes.AfterDequeue, QueueOutcomes.HasTaken, QueueOutcomes.Delivers;
    SpinnerMayBegin(s, t);
    ClaimsFit(s.queue);
    B.SpinnerCovered(Seen(s), t);
    AttemptRuns(s, t);
    QueueOutcomes.LoneDequeueDelivers(s.queue, t, s.callers[t].want - s.callers[t].count);
  }

  /** At rest the count of the semaphore is the number of elements in the sub-queue, and exactly the
      elements before these have been delivered. */
  lemma RestingQueue<T>(s: State<T>)
    requires Inv(s) && s.queue.producer.Resting?
    requires forall t :: t in s.callers ==> s.callers[t].Outside?
    ensures s.sema.count == Q.Tail(s.queue) - Q.Head(s.queue)
    ensures forall k: nat :: k in s.queue.delivered <==> k < Q.Head(s.queue)
  {
    hide Q.Inv, B.Inv;
    forall t | t in s.queue.consumers ensures s.queue.consumers[t].Outside? {
      assert AsksNoMore(s, t);
    }
    ClaimsFit(s.queue);
    Q.RestingState(s.queue);
    B.RestingCount(Seen(s));
  }
}
