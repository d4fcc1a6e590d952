/** `BlockingConcurrentQueue`: the lock-free queue paired with the semaphore.

    An enqueuer first puts its elements in and then signals as many permits; a dequeuer first
    obtains permits and then spins on the inner queue until it has taken that many elements.
    The inner queue is seen through its promise alone: elements enqueued and not yet claimed,
    of which a bulk dequeue takes some, possibly none.  Single operations are the bulk form with
    a count of one.

    Threads interleave at every step of the semaphore and of the inner queue. */
module BlockingQueue {
  import opened MapSum
  import opened Numbers
  import S = Semaphore

  type Tid = S.Tid

  datatype Caller =
    | Outside(result: nat)
    | Enqueued(items: nat)
    | Signalling(items: nat)
    | Acquiring(held: nat)
    | Taking(want: nat, count: nat)

  datatype State = State(sema: S.State, unclaimed: nat, callers: map<Tid, Caller>)

  function Init(spins: nat, threads: set<Tid>): State {
    State(S.Init(0, spins, threads), 0, map t | t in threads :: Outside(0))
  }

  /** `got` is what one inner dequeue comes back with. */
  datatype Action =
    | Enqueue(tid: Tid, items: nat)
    | TryDequeue(tid: Tid, max: nat)
    | WaitDequeue(tid: Tid, max: nat, patience: S.Patience)
    | Work(tid: Tid, spurious: bool, giveUp: bool, got: nat)

  predicate Enabled(s: State, a: Action) {
    && a.tid in s.callers && a.tid in s.sema.threads && a.tid in s.sema.acquired
    && match a
       case Enqueue(t, _) => s.callers[t].Outside? && S.Rests(s.sema, t)
       case TryDequeue(t, max) => s.callers[t].Outside? && S.Enabled(s.sema, S.TryWaitMany(t, max))
       case WaitDequeue(t, max, patience) =>
         s.callers[t].Outside? && S.Enabled(s.sema, S.WaitMany(t, max, patience))
       case Work(t, spurious, giveUp, got) =>
         match s.callers[t]
         case Outside(_) => false
         case Enqueued(items) => S.Enabled(s.sema, S.Signal(t, items))
         case Signalling(_) => S.Rests(s.sema, t) || S.Enabled(s.sema, S.Advance(t, spurious, giveUp))
         case Acquiring(_) => S.Rests(s.sema, t) || S.Enabled(s.sema, S.Advance(t, spurious, giveUp))
         case Taking(want, count) => count < want ==> got <= want - count && got <= s.unclaimed
  }

  function Worked(s: State, t: Tid, spurious: bool, giveUp: bool, got: nat): State
    requires Enabled(s, Work(t, spurious, giveUp, got))
  {
    match s.callers[t]
    case Enqueued(items) =>
      s.(sema := S.Apply(s.sema, S.Signal(t, items)), callers := s.callers[t := Signalling(items)])
    case Signalling(items) =>
      if S.Rests(s.sema, t) then s.(callers := s.callers[t := Outside(items)])
      else s.(sema := S.Advanced(s.sema, t, spurious, giveUp))
    case Acquiring(_) =>
      if S.Rests(s.sema, t) then s.(callers := s.callers[t := Taking(s.sema.threads[t].result, 0)])
      else
        var sema := S.Advanced(s.sema, t, spurious, giveUp);
        s.(sema := sema, callers := s.callers[t := Acquiring(sema.acquired[t])])
    case Taking(want, count) =>
      if count < want then s.(unclaimed := s.unclaimed - got, callers := s.callers[t := Taking(want, count + got)])
      else s.(callers := s.callers[t := Outside(count)])
  }

  function Apply(s: State, a: Action): State
    requires Enabled(s, a)
  {
    match a
    case Enqueue(t, items) => s.(unclaimed := s.unclaimed + items, callers := s.callers[t := Enqueued(items)])
    case TryDequeue(t, max) =>
      s.(sema := S.Apply(s.sema, S.TryWaitMany(t, max)), callers := s.callers[t := Acquiring(0)])
    case WaitDequeue(t, max, patience) =>
      s.(sema := S.Apply(s.sema, S.WaitMany(t, max, patience)), callers := s.callers[t := Acquiring(0)])
    case Work(t, spurious, giveUp, got) => Worked(s, t, spurious, giveUp, got)
  }

  // ---------------------------------------------------------------------------
  // A permit guarantees an element
  // ---------------------------------------------------------------------------

  /** Elements in the queue for which nobody has signalled yet. */
  function Unsignalled(c: Caller): nat { if c.Enqueued? then c.items else 0 }

  /** Permits in hand for which no element has been taken yet. */
  function Unused(c: Caller): nat {
    match c
    case Acquiring(held) => held
    case Taking(want, count) => if count <= want then want - count else 0
    case _ => 0
  }

  predicate CallerFits(s: State, t: Tid)
    requires t in s.callers && t in s.sema.threads && t in s.sema.acquired && t in s.sema.wanted
  {
    match s.callers[t]
    case Acquiring(held) => held == s.sema.acquired[t] <= s.sema.wanted[t]
    case Signalling(_) => s.sema.acquired[t] == 0 && (s.sema.threads[t].Posting? || s.sema.threads[t].Idle?)
    case Taking(want, count) => s.sema.threads[t].Idle? && count <= want <= s.sema.wanted[t]
    case _ => s.sema.threads[t].Idle?
  }

  /** Every unclaimed element is matched by exactly one permit: free, in somebody's hand, or about
      to be signalled. */
  ghost predicate ElementsMatched(s: State) {
    s.unclaimed == S.Free(s.sema) + Total(s.callers, Unsignalled) + Total(s.callers, Unused)
  }

  ghost predicate Inv(s: State) {
    && S.Inv(s.sema, 0) && s.callers.Keys == s.sema.threads.Keys
    && ElementsMatched(s)
    && forall t :: t in s.callers ==> CallerFits(s, t)
  }

  lemma InitInv(spins: nat, threads: set<Tid>)
    ensures Inv(Init(spins, threads))
  {
    S.InitInv(0, spins, threads);
    TotalZero(Init(spins, threads).callers, Unsignalled);
    TotalZero(Init(spins, threads).callers, Unused);
  }

  /** Beginning a call or signalling takes nothing. */
  lemma BeginFrame(s: S.State, a: S.Action)
    requires S.Enabled(s, a) && a.tid in s.wanted && !a.Advance?
    ensures var s', t := S.Apply(s, a), a.tid;
            && t in s'.acquired && t in s'.wanted && t in s'.threads && s'.acquired[t] == 0
            && s'.threads == s.threads[t := s'.threads[t]] && s'.acquired == s.acquired[t := 0]
            && s'.wanted == s.wanted[t := s'.wanted[t]]
            && s'.total == s.total && s'.signalled == s.signalled + (if a.Signal? then a.permits else 0)
            && (a.Signal? ==> s'.threads[t].Posting? || s'.threads[t].Idle?)
  {
  }

  lemma AdvancePosts(s: S.State, t: Tid, spurious: bool, giveUp: bool)
    requires S.Enabled(s, S.Advance(t, spurious, giveUp)) && s.threads[t].Posting?
    ensures var s' := S.Advanced(s, t, spurious, giveUp);
            t in s'.threads && (s'.threads[t].Posting? || s'.threads[t].Idle?) && s'.acquired == s.acquired
  {
  }

  /** Permits bounded by the maximum of the call. */
  lemma AcquiredWithinWanted(s: S.State, t: Tid)
    requires S.Inv(s, 0) && t in s.threads
    ensures t in s.acquired && t in s.wanted && s.acquired[t] <= s.wanted[t]
    ensures s.threads[t].Idle? ==> s.threads[t].result == s.acquired[t]
  {
    S.CallFitsAt(s, t, 0);
  }

  lemma WorkKeepsInv(s: State, s': State, t: Tid)
    requires Inv(s) && t in s.callers && t in s'.callers && s'.callers == s.callers[t := s'.callers[t]]
    requires S.Inv(s'.sema, 0) && s'.sema.threads.Keys == s.sema.threads.Keys
    requires forall u :: u in s.sema.threads && u != t ==>
               s'.sema.threads[u] == s.sema.threads[u] && s'.sema.acquired[u] == s.sema.acquired[u]
               && s'.sema.wanted[u] == s.sema.wanted[u]
    requires CallerFits(s', t)
    requires s'.unclaimed - s.unclaimed ==
             (s'.sema.signalled - s.sema.signalled) - (s'.sema.total - s.sema.total)
             + Unsignalled(s'.callers[t]) - Unsignalled(s.callers[t]) + Unused(s'.callers[t]) - Unused(s.callers[t])
    ensures Inv(s')
  {
    hide Total, Unsignalled, Unused, S.Free;
    TotalUpdate(s.callers, Unsignalled, t, s'.callers[t]);
    TotalUpdate(s.callers, Unused, t, s'.callers[t]);
    forall u | u in s'.callers ensures CallerFits(s', u) {
      assert u != t ==> CallerFits(s, u);
    }
  }

  /** The action leaves the semaphore alone. */
  predicate QueueOnly(s: State, a: Action)
    requires a.tid in s.callers
  {
    a.Enqueue? || (a.Work? && !s.callers[a.tid].Enqueued? && (s.callers[a.tid].Taking? || S.Rests(s.sema, a.tid)))
  }

  /** The semaphore action inside an action of this queue. */
  function SemaphoreStep(s: State, a: Action): S.Action
    requires Enabled(s, a) && !QueueOnly(s, a)
  {
    match a
    case TryDequeue(t, max) => S.TryWaitMany(t, max)
    case WaitDequeue(t, max, patience) => S.WaitMany(t, max, patience)
    case Work(t, spurious, giveUp, _) =>
      if s.callers[t].Enqueued? then S.Signal(t, s.callers[t].items) else S.Advance(t, spurious, giveUp)
  }

  lemma SemaphoreWorkKeepsInv(s: State, a: Action)
    requires Inv(s) && Enabled(s, a) && !QueueOnly(s, a)
    ensures Inv(Apply(s, a))
  {
    hide S.Inv, S.Advanced, S.Apply, ElementsMatched;
    var s', t := Apply(s, a), a.tid;
    AcquiredWithinWanted(s.sema, t);
    assert CallerFits(s, t);
    var step := SemaphoreStep(s, a);
    assert s'.sema == S.Apply(s.sema, step) by { AdvanceApplies(s.sema, step); }
    S.StepKeepsInv(s.sema, step, 0);
    if step.Advance? {
      AdvanceApplies(s.sema, step);
      S.AdvanceMovesOne(s.sema, t, step.spurious, step.giveUp);
      if s.sema.threads[t].Posting? { AdvancePosts(s.sema, t, step.spurious, step.giveUp); }
    } else {
      BeginFrame(s.sema, step);
    }
    AcquiredWithinWanted(s'.sema, t);
    WorkKeepsInv(s, s', t);
  }

  lemma AdvanceApplies(s: S.State, a: S.Action)
    requires S.Enabled(s, a)
    ensures a.Advance? ==> S.Apply(s, a) == S.Advanced(s, a.tid, a.spurious, a.giveUp)
  {
  }

  lemma QueueWorkKeepsInv(s: State, a: Action)
    requires Inv(s) && Enabled(s, a) && QueueOnly(s, a)
    ensures Inv(Apply(s, a))
  {
    hide S.Inv, S.Advanced, S.Apply, ElementsMatched;
    var s', t := Apply(s, a), a.tid;
    AcquiredWithinWanted(s.sema, t);
    assert CallerFits(s, t);
    WorkKeepsInv(s, s', t);
  }

  lemma StepKeepsInv(s: State, a: Action)
    requires Inv(s) && Enabled(s, a)
    ensures Inv(Apply(s, a))
  {
    hide Inv, S.Advanced;
    if QueueOnly(s, a) {
      QueueWorkKeepsInv(s, a);
    } else {
      SemaphoreWorkKeepsInv(s, a);
    }
  }

  // ---------------------------------------------------------------------------
  // Runs
  // ---------------------------------------------------------------------------

  ghost predicate Next(s: State, s': State) {
    exists a: Action :: Enabled(s, a) && s' == Apply(s, a)
  }

  ghost predicate IsRun(run: seq<State>, spins: nat, threads: set<Tid>) {
    && |run| > 0 && run[0] == Init(spins, threads)
    && forall i :: 0 <= i < |run| - 1 ==> Next(run[i], run[i + 1])
  }

  lemma {:induction false} RunInv(run: seq<State>, spins: nat, threads: set<Tid>, i: nat)
    requires IsRun(run, spins, threads) && i < |run|
    ensures Inv(run[i])
  {
    hide Inv, Enabled, Apply;
    if i == 0 {
      InitInv(spins, threads);
    } else {
      RunInv(run, spins, threads, i - 1);
      assert Next(run[i - 1], run[i - 1 + 1]);
      var a: Action :| Enabled(run[i - 1], a) && run[i] == Apply(run[i - 1], a);
      StepKeepsInv(run[i - 1], a);
    }
  }

  /** Who still spins for n more elements is covered by n unclaimed ones. */
  lemma SpinnerCovered(s: State, t: Tid)
    requires Inv(s) && t in s.callers && s.callers[t].Taking?
    ensures s.callers[t].want - s.callers[t].count <= s.unclaimed && s.callers[t].count <= s.callers[t].want
  {
    assert CallerFits(s, t);
    TotalAtLeast(s.callers, Unused, t);
  }

  /** The spin loops always have something to take: whoever still spins for n more elements can be
      sure that n elements are unclaimed, whatever the other threads do. */
  lemma PermitGuaranteesElement(run: seq<State>, spins: nat, threads: set<Tid>, i: nat, t: Tid)
    requires IsRun(run, spins, threads) && i < |run| && t in run[i].callers && run[i].callers[t].Taking?
    ensures run[i].callers[t].want - run[i].callers[t].count <= run[i].unclaimed
    ensures run[i].callers[t].count <= run[i].callers[t].want
  {
    RunInv(run, spins, threads, i);
    SpinnerCovered(run[i], t);
  }

  /** A dequeue returns exactly as many elements as it obtained permits, and no more than asked for. */
  lemma ReturnsItsPermits(run: seq<State>, spins: nat, threads: set<Tid>, i: nat, t: Tid)
    requires IsRun(run, spins, threads) && i < |run| && t in run[i].callers && run[i].callers[t].Taking?
    requires Enabled(run[i], Work(t, false, false, 0)) && run[i].callers[t].count >= run[i].callers[t].want
    requires t in run[i].sema.wanted
    ensures Worked(run[i], t, false, false, 0).callers[t] == Outside(run[i].callers[t].want)
    ensures run[i].callers[t].want <= run[i].sema.wanted[t]
  {
    RunInv(run, spins, threads, i);
    assert CallerFits(run[i], t);
  }

  // ---------------------------------------------------------------------------
  // A wait comes back with something
  // ---------------------------------------------------------------------------

  ghost predicate IsTrace(run: seq<State>, acts: seq<Action>, spins: nat, threads: set<Tid>) {
    && |run| == |acts| + 1 && run[0] == Init(spins, threads)
    && forall i :: 0 <= i < |acts| ==> Enabled(run[i], acts[i]) && run[i + 1] == Apply(run[i], acts[i])
  }

  /** Inside a wait for up to max elements that may sleep as long as it takes, or out with something. */
  predicate OnTheWay(s: State, t: Tid, max: nat) {
    && t in s.callers && t in s.sema.threads
    && match s.callers[t]
       case Acquiring(_) => S.OnTheWay(s.sema.threads[t], max)
       case Taking(want, _) => 1 <= want <= max
       case Outside(result) => 1 <= result <= max
       case _ => false
  }

  predicate SleepsOn(a: Action, t: Tid) { a.tid == t ==> a.Work? && !a.giveUp }

  /** A step of another thread leaves the caller's part of both alone. */
  lemma OthersLeave(s: State, a: Action, t: Tid)
    requires Inv(s) && Enabled(s, a) && a.tid != t && t in s.callers && t in s.sema.threads
    ensures var s' := Apply(s, a);
            t in s'.callers && t in s'.sema.threads && s'.callers[t] == s.callers[t] && s'.sema.threads[t] == s.sema.threads[t]
  {
    hide S.Advanced, S.Apply, S.Inv, ElementsMatched;
    if !QueueOnly(s, a) {
      var step := SemaphoreStep(s, a);
      AdvanceApplies(s.sema, step);
      AcquiredWithinWanted(s.sema, a.tid);
      if step.Advance? {
        S.AdvanceMovesOne(s.sema, a.tid, step.spurious, step.giveUp);
      } else {
        BeginFrame(s.sema, step);
      }
    }
  }

  lemma WaitGoesOn(s: State, a: Action, t: Tid, max: nat)
    requires Inv(s) && Enabled(s, a) && OnTheWay(s, t, max) && SleepsOn(a, t) && max > 0
    ensures OnTheWay(Apply(s, a), t, max)
  {
    hide S.Advanced, S.Inv, ElementsMatched, S.OnTheWay;
    if a.tid != t {
      OthersLeave(s, a, t);
    } else {
      AcquiredWithinWanted(s.sema, t);
      assert CallerFits(s, t);
      if S.OnTheWay(s.sema.threads[t], max) { S.OutWithSome(s.sema.threads[t], max); }
      if s.callers[t].Acquiring? && !S.Rests(s.sema, t) {
        S.WaitGoesOn(s.sema, S.Advance(t, a.spurious, a.giveUp), t, max);
      }
    }
  }

  lemma WaitBegins(s: State, t: Tid, max: nat)
    requires Enabled(s, WaitDequeue(t, max, S.Sleep))
    ensures OnTheWay(Apply(s, WaitDequeue(t, max, S.Sleep)), t, max)
  {
    S.WaitBegins(s.sema, t, max);
  }

  lemma {:induction false} TraceInv(run: seq<State>, acts: seq<Action>, spins: nat, threads: set<Tid>, i: nat)
    requires IsTrace(run, acts, spins, threads) && i <= |acts|
    ensures Inv(run[i])
  {
    hide Inv, Enabled, Apply;
    if i == 0 {
      InitInv(spins, threads);
    } else {
      TraceInv(run, acts, spins, threads, i - 1);
      assert run[i - 1 + 1] == Apply(run[i - 1], acts[i - 1]);
      StepKeepsInv(run[i - 1], acts[i - 1]);
    }
  }

  /** A dequeue that waits without a timeout never comes back empty: from its beginning at step i on, as
      long as its sleep does not give up, it is on its way or has come back with one to max elements. */
  lemma {:induction false} UntimedDequeueSucceeds(run: seq<State>, acts: seq<Action>, spins: nat, threads: set<Tid>,
                                                  i: nat, j: nat, t: Tid, max: nat)
    requires IsTrace(run, acts, spins, threads) && i < j <= |acts|
    requires acts[i] == WaitDequeue(t, max, S.Sleep) && max > 0
    requires forall k :: i < k < j ==> SleepsOn(acts[k], t)
    ensures OnTheWay(run[j], t, max)
    ensures t in run[j].callers && (run[j].callers[t].Outside? ==> 1 <= run[j].callers[t].result <= max)
  {
    hide Inv, Enabled, Apply;
    assert Enabled(run[j - 1], acts[j - 1]) && run[j - 1 + 1] == Apply(run[j - 1], acts[j - 1]);
    if j == i + 1 {
      WaitBegins(run[i], t, max);
    } else {
      UntimedDequeueSucceeds(run, acts, spins, threads, i, j - 1, t, max);
      TraceInv(run, acts, spins, threads, j - 1);
      WaitGoesOn(run[j - 1], acts[j - 1], t, max);
    }
  }

  /** All spinners together: the elements suffice for every permit in hand at once. */
  lemma PermitsNeverExceedElements(run: seq<State>, spins: nat, threads: set<Tid>, i: nat)
    requires IsRun(run, spins, threads) && i < |run|
    ensures S.Free(run[i].sema) + Total(run[i].callers, Unused) <= run[i].unclaimed
  {
    RunInv(run, spins, threads, i);
  }

  /** At rest the count is exactly the number of elements. */
  lemma RestingCount(s: State)
    requires Inv(s) && forall t :: t in s.callers ==> s.callers[t].Outside?
    ensures s.sema.count == s.unclaimed
  {
    TotalZero(s.callers, Unsignalled);
    TotalZero(s.callers, Unused);
    forall t | t in s.sema.threads ensures s.sema.threads[t].Idle? {
      assert CallerFits(s, t);
    }
    S.NothingLost(s.sema, 0);
    TotalZero(s.sema.threads, S.Posts);
  }

  /** Up to n steps of thread t alone, none of them disturbed. */
  function Alone(s: State, t: Tid, n: nat): State
    decreases n
  {
    if n == 0 || !Enabled(s, Work(t, false, false, 0)) then s else Alone(Worked(s, t, false, false, 0), t, n - 1)
  }

  /** In an undisturbed dequeue, waiting or not, a thread obtains a permit for each element there is, up
      to its maximum, and goes on to take these; a wait that finds none goes on to spin and sleep. */
  lemma LoneDequeueAcquires(s: State, a: Action)
    requires Inv(s) && Enabled(s, a) && (a.TryDequeue? || a.WaitDequeue?)
    requires forall u :: u in s.callers ==> s.callers[u].Outside?
    ensures var s2, s3, t := Alone(Apply(s, a), a.tid, 2), Alone(Apply(s, a), a.tid, 3), a.tid;
            && s2.unclaimed == s3.unclaimed == s.unclaimed && t in s2.callers && t in s3.callers && t in s2.sema.threads
            && if a.WaitDequeue? && s.unclaimed == 0 && a.max > 0
               then s2.callers[t] == Acquiring(0) && s2.sema.threads[t] == S.SpinLoad(a.max, s.sema.spins, a.patience)
               else s3.callers[t] == Taking(Min(a.max, s.unclaimed), 0)
  {
    hide Inv, S.Advanced;
    RestingCount(s);
    var t := a.tid;
    var s0 := Apply(s, a);
    S.LoneTryTakesAll(s0.sema, t);
    var s1 := Worked(s0, t, false, false, 0);
    AcquiringStep(s0, t);
    var s2 := Worked(s1, t, false, false, 0);
    AcquiringStep(s1, t);
    assert Alone(s0, t, 2) == Alone(s1, t, 1) == Alone(s2, t, 0);
    assert Enabled(s2, Work(t, false, false, 0));
    var s3 := Worked(s2, t, false, false, 0);
    assert Alone(s0, t, 3) == Alone(s1, t, 2) == Alone(s2, t, 1) == Alone(s3, t, 0);
  }

  lemma AcquiringStep(s: State, t: Tid)
    requires t in s.callers && s.callers[t].Acquiring? && S.Enabled(s.sema, S.Advance(t, false, false))
    ensures Enabled(s, Work(t, false, false, 0))
    ensures var s' := Worked(s, t, false, false, 0);
            && s'.sema == S.Advanced(s.sema, t, false, false) && s'.unclaimed == s.unclaimed
            && t in s'.callers && t in s'.sema.acquired && t in s'.sema.threads
            && s'.callers[t] == Acquiring(s'.sema.acquired[t])
  {
    hide S.Advanced;
    S.AdvanceMovesOne(s.sema, t, false, false);
  }

  /** An undisturbed enqueue adds its elements, makes a permit free for each and reports them all. */
  lemma LoneEnqueueSignals(s: State, t: Tid, items: nat)
    requires Inv(s) && Enabled(s, Enqueue(t, items)) && forall u :: u in s.callers ==> s.callers[u].Outside?
    ensures var s' := Alone(Apply(s, Enqueue(t, items)), t, 2);
            && s'.unclaimed == s.unclaimed + items && s'.sema.count == s.sema.count + items
            && s'.callers == s.callers[t := Outside(items)] && S.Rests(s'.sema, t)
  {
    hide Inv;
    RestingCount(s);
    var s0 := Apply(s, Enqueue(t, items));
    var s1 := Worked(s0, t, false, false, 0);
    assert s1.sema.threads[t] == S.Idle(0) && s1.callers[t] == Signalling(items);
    assert Alone(s0, t, 2) == Alone(s1, t, 1) == Alone(Worked(s1, t, false, false, 0), t, 0);
  }
}
