/** `LightweightSemaphore`: a count in user space in front of a kernel semaphore.

    The count is positive when permits are free and, negated, says how many waiters have
    registered for permits that have not been signalled yet.  Each load, each read-modify-write
    and each kernel call is one step; any number of threads interleave freely.  A single wait is
    a wait for many with a maximum of one.

    `wanted` and `acquired` (per thread, the maximum of its call and what the call has taken so
    far), `total` and `signalled` are history. */
module Semaphore {
  import opened MapSum
  import opened Numbers

  type Tid = nat

  /** How long a blocking wait may sleep: not at all, until a timeout, or until the kernel call
      returns.  Only the first is visible in the control flow. */
  datatype Patience = NoSleep | Sleep

  /** What comes after the fast path: return its result, add it to a permit already obtained, or
      go on to spin and block if it came back with nothing. */
  datatype After = Return | AddToOne | ElseWait(patience: Patience)

  datatype Pc =
    | Idle(result: nat)
    | TryLoad(max: nat, after: After)
    | Trying(max: nat, seen: int, after: After)
    | SpinLoad(max: nat, spins: nat, patience: Patience)
    | SpinTry(max: nat, seen: int, spins: nat, patience: Patience)
    | Register(max: nat, patience: Patience)
    | Asleep(max: nat)
    | Recheck(max: nat)
    | TryKernel(max: nat)
    | Withdraw(max: nat, seen: int)
    | Posting(permits: nat)

  datatype State = State(
    count: int, kernel: nat, spins: nat, threads: map<Tid, Pc>,
    wanted: map<Tid, nat>, acquired: map<Tid, nat>, total: nat, signalled: nat)

  function Init(permits: nat, spins: nat, threads: set<Tid>): State {
    State(permits, 0, spins, map t | t in threads :: Idle(0),
          map t | t in threads :: 0, map t | t in threads :: 0, 0, 0)
  }

  /** `spurious` lets a weak exchange fail, and `giveUp` a sleep end by timeout or error. */
  datatype Action =
    | TryWaitMany(tid: Tid, max: nat)
    | WaitMany(tid: Tid, max: nat, patience: Patience)
    | Signal(tid: Tid, permits: nat)
    | Advance(tid: Tid, spurious: bool, giveUp: bool)

  predicate Rests(s: State, t: Tid) {
    t in s.threads && t in s.acquired && s.threads[t].Idle?
  }

  predicate Enabled(s: State, a: Action) {
    match a
    case TryWaitMany(t, _) => Rests(s, t)
    case WaitMany(t, _, _) => Rests(s, t)
    case Signal(t, _) => Rests(s, t)
    case Advance(t, _, giveUp) =>
      t in s.threads && t in s.acquired && !s.threads[t].Idle?
      && (s.threads[t].Asleep? && !giveUp ==> s.kernel > 0)
  }

  /** What a successful exchange leaves of the count. */
  function Left(seen: int, max: nat): (left: int)
    ensures seen > 0 ==> 0 <= left && 0 <= seen - left <= max && (max > 0 ==> left < seen)
  {
    if seen > max then seen - max else 0
  }

  function Got(s: State, t: Tid, n: nat): State
    requires t in s.acquired
  {
    s.(acquired := s.acquired[t := s.acquired[t] + n], total := s.total + n)
  }

  function At(s: State, t: Tid, p: Pc): State {
    s.(threads := s.threads[t := p])
  }

  /** After the first permit of a blocking wait: try for the rest. */
  function OneMore(max: nat): Pc {
    if max > 1 then TryLoad(max - 1, AddToOne) else Idle(1)
  }

  function Tried(s: State, t: Tid, max: nat, n: nat, after: After): Pc {
    match after
    case Return => Idle(n)
    case AddToOne => Idle(1 + n)
    case ElseWait(patience) => if n == 0 && max > 0 then SpinLoad(max, s.spins, patience) else Idle(n)
  }

  function Advanced(s: State, t: Tid, spurious: bool, giveUp: bool): State
    requires Enabled(s, Advance(t, spurious, giveUp))
  {
    match s.threads[t]
    case TryLoad(max, after) => At(s, t, Trying(max, s.count, after))
    case Trying(max, seen, after) =>
      if seen <= 0 then At(s, t, Tried(s, t, max, 0, after))
      else if s.count == seen && !spurious then
        At(Got(s.(count := Left(seen, max)), t, seen - Left(seen, max)), t, Tried(s, t, max, seen - Left(seen, max), after))
      else At(s, t, Trying(max, s.count, after))
    case SpinLoad(max, spins, patience) =>
      if spins == 0 then At(s, t, Register(max, patience))
      else if s.count > 0 then At(s, t, SpinTry(max, s.count, spins - 1, patience))
      else At(s, t, SpinLoad(max, spins - 1, patience))
    case SpinTry(max, seen, spins, patience) =>
      if s.count == seen && seen > 0 then
        At(Got(s.(count := Left(seen, max)), t, seen - Left(seen, max)), t, Idle(seen - Left(seen, max)))
      else At(s, t, SpinLoad(max, spins, patience))
    case Register(max, patience) =>
      var s1 := s.(count := s.count - 1);
      if s.count > 0 then At(Got(s1, t, 1), t, OneMore(max))
      else At(s1, t, if patience == NoSleep then Recheck(max) else Asleep(max))
    case Asleep(max) =>
      if giveUp then At(s, t, Recheck(max)) else At(Got(s.(kernel := s.kernel - 1), t, 1), t, OneMore(max))
    case Recheck(max) => At(s, t, if s.count >= 0 then TryKernel(max) else Withdraw(max, s.count))
    case TryKernel(max) =>
      if s.kernel > 0 then At(Got(s.(kernel := s.kernel - 1), t, 1), t, OneMore(max)) else At(s, t, Recheck(max))
    case Withdraw(max, seen) =>
      if s.count == seen then At(s.(count := s.count + 1), t, Idle(0)) else At(s, t, Recheck(max))
    case Posting(permits) => At(s.(kernel := s.kernel + 1), t, if permits > 1 then Posting(permits - 1) else Idle(0))
  }

  /** Of the signalled permits, those for registered waiters go through the kernel. */
  function ToRelease(seen: int, permits: nat): nat { Max(0, Min(-seen, permits)) }

  function Began(s: State, t: Tid, max: nat): State {
    s.(wanted := s.wanted[t := max], acquired := s.acquired[t := 0])
  }

  function Apply(s: State, a: Action): State
    requires Enabled(s, a)
  {
    match a
    case TryWaitMany(t, max) => At(Began(s, t, max), t, TryLoad(max, Return))
    case WaitMany(t, max, patience) => At(Began(s, t, max), t, TryLoad(max, ElseWait(patience)))
    case Signal(t, permits) =>
      At(Began(s, t, 0).(count := s.count + permits, signalled := s.signalled + permits), t,
         if ToRelease(s.count, permits) > 0 then Posting(ToRelease(s.count, permits)) else Idle(0))
    case Advance(t, spurious, giveUp) => Advanced(s, t, spurious, giveUp)
  }

  // ---------------------------------------------------------------------------
  // Conservation
  // ---------------------------------------------------------------------------

  /** A waiter that has registered in the count and has neither a permit nor withdrawn. */
  function Waits(p: Pc): nat {
    if p.Asleep? || p.Recheck? || p.TryKernel? || p.Withdraw? then 1 else 0
  }

  function Posts(p: Pc): nat { if p.Posting? then p.permits else 0 }

  ghost function Waiters(s: State): nat { Total(s.threads, Waits) }

  ghost function ToPost(s: State): nat { Total(s.threads, Posts) }

  /** Permits that nobody has acquired. */
  ghost function Free(s: State): nat { Max(0, s.count) + s.kernel + ToPost(s) }

  /** Every registered waiter is matched by a missing permit, a kernel permit or one about to be
      posted. */
  ghost predicate WaitersMatched(s: State) {
    Waiters(s) == Max(0, -s.count) + s.kernel + ToPost(s)
  }

  ghost predicate PermitsConserved(s: State, permits: nat) {
    s.total + Free(s) == permits + s.signalled
  }

  /** What a call reports is what it took, and it takes no more than it was asked for. */
  predicate CallFits(s: State, t: Tid)
    requires t in s.threads && t in s.acquired && t in s.wanted
  {
    match s.threads[t]
    case Idle(result) => s.acquired[t] == result <= s.wanted[t]
    case TryLoad(max, after) => Partly(s, t, max, after)
    case Trying(max, _, after) => Partly(s, t, max, after)
    case Withdraw(max, seen) => s.acquired[t] == 0 && 1 <= max <= s.wanted[t] && seen < 0
    case Posting(permits) => s.acquired[t] == 0 && permits >= 1
    case p => s.acquired[t] == 0 && 1 <= p.max <= s.wanted[t]
  }

  predicate Partly(s: State, t: Tid, max: nat, after: After)
    requires t in s.acquired && t in s.wanted
  {
    s.acquired[t] + max <= s.wanted[t] && s.acquired[t] == if after.AddToOne? then 1 else 0
  }

  ghost predicate Inv(s: State, permits: nat) {
    && s.threads.Keys == s.acquired.Keys == s.wanted.Keys
    && WaitersMatched(s) && PermitsConserved(s, permits)
    && forall t :: t in s.threads ==> CallFits(s, t)
  }

  lemma InitInv(permits: nat, spins: nat, threads: set<Tid>)
    ensures Inv(Init(permits, spins, threads), permits)
  {
    TotalZero(Init(permits, spins, threads).threads, Waits);
    TotalZero(Init(permits, spins, threads).threads, Posts);
  }

  /** The conservation laws move with one thread's step. */
  lemma Exchange(s: State, s': State, t: Tid)
    requires t in s.threads && t in s'.threads && s'.threads == s.threads[t := s'.threads[t]]
    ensures Waiters(s') == Waiters(s) - Waits(s.threads[t]) + Waits(s'.threads[t])
    ensures ToPost(s') == ToPost(s) - Posts(s.threads[t]) + Posts(s'.threads[t])
  {
    TotalUpdate(s.threads, Waits, t, s'.threads[t]);
    TotalUpdate(s.threads, Posts, t, s'.threads[t]);
  }

  /** Both laws hold again when the step of thread t balances: it takes as many permits from the
      count, the kernel and the posts as it acquires, and registers or leaves accordingly. */
  lemma BalanceKeepsInv(s: State, s': State, t: Tid, permits: nat)
    requires Inv(s, permits) && t in s.threads && t in s'.threads && t in s'.acquired && t in s'.wanted
    requires s'.threads == s.threads[t := s'.threads[t]] && s'.acquired == s.acquired[t := s'.acquired[t]]
    requires s'.wanted == s.wanted[t := s'.wanted[t]]
    requires CallFits(s', t)
    requires Waits(s'.threads[t]) - Waits(s.threads[t]) ==
             Max(0, -s'.count) - Max(0, -s.count) + s'.kernel - s.kernel + Posts(s'.threads[t]) - Posts(s.threads[t])
    requires s'.total - s.total + Max(0, s'.count) - Max(0, s.count) + s'.kernel - s.kernel
             + Posts(s'.threads[t]) - Posts(s.threads[t]) == s'.signalled - s.signalled
    ensures Inv(s', permits)
  {
    hide Total, Waits, Posts, Max;
    Exchange(s, s', t);
    forall u | u in s'.threads ensures CallFits(s', u) {
      assert u != t ==> CallFits(s, u);
    }
  }

  lemma BeginKeepsInv(s: State, a: Action, permits: nat)
    requires Inv(s, permits) && Enabled(s, a) && !a.Advance?
    ensures Inv(Apply(s, a), permits)
  {
    hide Inv;
    BalanceKeepsInv(s, Apply(s, a), a.tid, permits);
  }

  lemma CallFitsAt(s: State, t: Tid, permits: nat)
    requires Inv(s, permits) && t in s.threads
    ensures t in s.acquired && t in s.wanted && CallFits(s, t)
  {
  }

  lemma FastStepKeepsInv(s: State, t: Tid, spurious: bool, giveUp: bool, permits: nat)
    requires Inv(s, permits) && Enabled(s, Advance(t, spurious, giveUp))
    requires var p := s.threads[t]; p.TryLoad? || p.Trying? || p.SpinLoad? || p.SpinTry?
    ensures Inv(Advanced(s, t, spurious, giveUp), permits)
  {
    hide Inv;
    CallFitsAt(s, t, permits);
    var s' := Advanced(s, t, spurious, giveUp);
    BalanceKeepsInv(s, s', t, permits);
  }

  lemma SleepStepKeepsInv(s: State, t: Tid, spurious: bool, giveUp: bool, permits: nat)
    requires Inv(s, permits) && Enabled(s, Advance(t, spurious, giveUp))
    requires var p := s.threads[t]; p.Register? || p.Asleep? || p.TryKernel?
    ensures Inv(Advanced(s, t, spurious, giveUp), permits)
  {
    hide Inv;
    CallFitsAt(s, t, permits);
    BalanceKeepsInv(s, Advanced(s, t, spurious, giveUp), t, permits);
  }

  lemma LeaveStepKeepsInv(s: State, t: Tid, spurious: bool, giveUp: bool, permits: nat)
    requires Inv(s, permits) && Enabled(s, Advance(t, spurious, giveUp))
    requires var p := s.threads[t]; p.Recheck? || p.Withdraw? || p.Posting?
    ensures Inv(Advanced(s, t, spurious, giveUp), permits)
  {
    hide Inv;
    CallFitsAt(s, t, permits);
    BalanceKeepsInv(s, Advanced(s, t, spurious, giveUp), t, permits);
  }

  lemma StepKeepsInv(s: State, a: Action, permits: nat)
    requires Inv(s, permits) && Enabled(s, a)
    ensures Inv(Apply(s, a), permits)
  {
    hide Inv, Advanced;
    match a
    case Advance(t, spurious, giveUp) =>
      var p := s.threads[t];
      if p.TryLoad? || p.Trying? || p.SpinLoad? || p.SpinTry? {
        FastStepKeepsInv(s, t, spurious, giveUp, permits);
      } else if p.Register? || p.Asleep? || p.TryKernel? {
        SleepStepKeepsInv(s, t, spurious, giveUp, permits);
      } else {
        LeaveStepKeepsInv(s, t, spurious, giveUp, permits);
      }
    case _ => BeginKeepsInv(s, a, permits);
  }

  // ---------------------------------------------------------------------------
  // Runs
  // ---------------------------------------------------------------------------

  ghost predicate Next(s: State, s': State) {
    exists a: Action :: Enabled(s, a) && s' == Apply(s, a)
  }

  ghost predicate IsRun(run: seq<State>, permits: nat, spins: nat, threads: set<Tid>) {
    && |run| > 0 && run[0] == Init(permits, spins, threads)
    && forall i :: 0 <= i < |run| - 1 ==> Next(run[i], run[i + 1])
  }

  lemma {:induction false} RunInv(run: seq<State>, permits: nat, spins: nat, threads: set<Tid>, i: nat)
    requires IsRun(run, permits, spins, threads) && i < |run|
    ensures Inv(run[i], permits)
  {
    hide Inv, Enabled, Apply;
    if i == 0 {
      InitInv(permits, spins, threads);
    } else {
      RunInv(run, permits, spins, threads, i - 1);
      assert Next(run[i - 1], run[i - 1 + 1]);
      var a: Action :| Enabled(run[i - 1], a) && run[i] == Apply(run[i - 1], a);
      StepKeepsInv(run[i - 1], a, permits);
    }
  }

  /** No more is acquired than was there or was signalled, however waits, timeouts and signals
      interleave. */
  lemma NeverOverAcquired(run: seq<State>, permits: nat, spins: nat, threads: set<Tid>, i: nat)
    requires IsRun(run, permits, spins, threads) && i < |run|
    ensures run[i].total <= permits + run[i].signalled
    ensures Waiters(run[i]) == Max(0, -run[i].count) + run[i].kernel + ToPost(run[i])
  {
    RunInv(run, permits, spins, threads, i);
  }

  /** A call returns exactly the number of permits it took, and never more than its maximum. */
  lemma ResultIsWhatWasTaken(run: seq<State>, permits: nat, spins: nat, threads: set<Tid>, i: nat, t: Tid)
    requires IsRun(run, permits, spins, threads) && i < |run| && Rests(run[i], t) && t in run[i].wanted
    ensures run[i].threads[t].result == run[i].acquired[t] <= run[i].wanted[t]
  {
    RunInv(run, permits, spins, threads, i);
    CallFitsAt(run[i], t, permits);
  }

  // ---------------------------------------------------------------------------
  // What a call comes back with
  // ---------------------------------------------------------------------------

  /** A run together with its actions. */
  ghost predicate IsTrace(run: seq<State>, acts: seq<Action>, permits: nat, spins: nat, threads: set<Tid>) {
    && |run| == |acts| + 1 && run[0] == Init(permits, spins, threads)
    && forall i :: 0 <= i < |acts| ==> Enabled(run[i], acts[i]) && run[i + 1] == Apply(run[i], acts[i])
  }

  /** Inside a wait for up to max permits that may sleep as long as it takes, or out with something. */
  predicate OnTheWay(p: Pc, max: nat) {
    match p
    case Idle(result) => 1 <= result <= max
    case TryLoad(m, ElseWait(patience)) => m == max && patience == Sleep
    case TryLoad(m, AddToOne) => m + 1 <= max
    case Trying(m, _, ElseWait(patience)) => m == max && patience == Sleep
    case Trying(m, _, AddToOne) => m + 1 <= max
    case SpinLoad(m, _, patience) => m == max && patience == Sleep
    case SpinTry(m, _, _, patience) => m == max && patience == Sleep
    case Register(m, patience) => m == max && patience == Sleep
    case Asleep(m) => m == max
    case _ => false
  }

  /** Thread t does not end its sleep without having been woken up. */
  predicate SleepsOn(a: Action, t: Tid) { a.tid == t ==> a.Advance? && !a.giveUp }

  /** From s to s' thread t has moved, and what it has taken is recorded. */
  predicate MovedAlone(s: State, s': State, t: Tid) {
    && t in s.threads && t in s.acquired && t in s'.threads && t in s'.acquired
    && s'.wanted == s.wanted && s'.threads == s.threads[t := s'.threads[t]]
    && s'.acquired == s.acquired[t := s'.acquired[t]]
    && s'.total + s.acquired[t] == s.total + s'.acquired[t] && s'.signalled == s.signalled
  }

  lemma AtMovesAlone(s: State, s': State, t: Tid, p: Pc)
    requires t in s.threads && t in s.acquired
    requires s'.threads == s.threads && s'.acquired == s.acquired
    requires s'.wanted == s.wanted && s'.total == s.total && s'.signalled == s.signalled
    ensures MovedAlone(s, At(s', t, p), t)
  {
    assert s.acquired == s.acquired[t := s.acquired[t]];
  }

  lemma GotMovesAlone(s: State, s': State, t: Tid, n: nat, p: Pc)
    requires t in s.threads && t in s.acquired
    requires s'.threads == s.threads && s'.acquired == s.acquired
    requires s'.wanted == s.wanted && s'.total == s.total && s'.signalled == s.signalled
    ensures MovedAlone(s, At(Got(s', t, n), t, p), t)
  {
  }

  /** A step inside a semaphore call moves its own thread alone and records what it takes: it ends
      in one of the two forms above. */
  lemma AdvanceMovesOne(s: State, t: Tid, spurious: bool, giveUp: bool)
    requires Enabled(s, Advance(t, spurious, giveUp))
    ensures MovedAlone(s, Advanced(s, t, spurious, giveUp), t)
  {
    hide MovedAlone, At, Got, Left, OneMore, Tried;
    var s' := Advanced(s, t, spurious, giveUp);
    forall x: State, p: Pc
      | x.threads == s.threads && x.acquired == s.acquired && x.wanted == s.wanted && x.total == s.total
        && x.signalled == s.signalled && s' == At(x, t, p)
      ensures MovedAlone(s, s', t)
    {
      AtMovesAlone(s, x, t, p);
    }
    forall x: State, n: nat, p: Pc
      | x.threads == s.threads && x.acquired == s.acquired && x.wanted == s.wanted && x.total == s.total
        && x.signalled == s.signalled && s' == At(Got(x, t, n), t, p)
      ensures MovedAlone(s, s', t)
    {
      GotMovesAlone(s, x, t, n, p);
    }
  }

  lemma FastWaitGoesOn(s: State, t: Tid, spurious: bool, max: nat)
    requires Enabled(s, Advance(t, spurious, false)) && OnTheWay(s.threads[t], max) && max > 0
    requires s.threads[t].TryLoad? || s.threads[t].Trying?
    ensures t in Advanced(s, t, spurious, false).threads && OnTheWay(Advanced(s, t, spurious, false).threads[t], max)
  {
  }

  lemma SlowWaitGoesOn(s: State, t: Tid, spurious: bool, max: nat)
    requires Enabled(s, Advance(t, spurious, false)) && OnTheWay(s.threads[t], max) && max > 0
    requires !s.threads[t].TryLoad? && !s.threads[t].Trying?
    ensures t in Advanced(s, t, spurious, false).threads && OnTheWay(Advanced(s, t, spurious, false).threads[t], max)
  {
  }

  lemma WaitGoesOn(s: State, a: Action, t: Tid, max: nat)
    requires Enabled(s, a) && SleepsOn(a, t) && t in s.threads && OnTheWay(s.threads[t], max) && max > 0
    ensures t in Apply(s, a).threads && OnTheWay(Apply(s, a).threads[t], max)
  {
    hide OnTheWay, Advanced;
    if a.Advance? && a.tid == t {
      if s.threads[t].TryLoad? || s.threads[t].Trying? {
        FastWaitGoesOn(s, t, a.spurious, max);
      } else {
        SlowWaitGoesOn(s, t, a.spurious, max);
      }
    } else if a.Advance? {
      AdvanceMovesOne(s, a.tid, a.spurious, a.giveUp);
    }
  }

  lemma WaitBegins(s: State, t: Tid, max: nat)
    requires Enabled(s, WaitMany(t, max, Sleep))
    ensures t in Apply(s, WaitMany(t, max, Sleep)).threads
    ensures OnTheWay(Apply(s, WaitMany(t, max, Sleep)).threads[t], max)
  {
  }

  /** A wait for one or more permits that is not told to give up does not come back without any: from
      its beginning at step i on, as long as its sleep does not give up, the thread is on its way or
      out with at least one permit and at most `max`. */
  lemma {:induction false} UntimedWaitSucceeds(run: seq<State>, acts: seq<Action>, permits: nat, spins: nat, threads: set<Tid>,
                                               i: nat, j: nat, t: Tid, max: nat)
    requires IsTrace(run, acts, permits, spins, threads) && i < j <= |acts|
    requires acts[i] == WaitMany(t, max, Sleep) && max > 0
    requires forall k :: i < k < j ==> SleepsOn(acts[k], t)
    ensures t in run[j].threads && OnTheWay(run[j].threads[t], max)
    ensures run[j].threads[t].Idle? ==> 1 <= run[j].threads[t].result <= max
  {
    hide Enabled, Apply, OnTheWay;
    assert Enabled(run[j - 1], acts[j - 1]) && run[j - 1 + 1] == Apply(run[j - 1], acts[j - 1]);
    if j == i + 1 {
      WaitBegins(run[i], t, max);
    } else {
      UntimedWaitSucceeds(run, acts, permits, spins, threads, i, j - 1, t, max);
      WaitGoesOn(run[j - 1], acts[j - 1], t, max);
    }
    OutWithSome(run[j].threads[t], max);
  }

  lemma OutWithSome(p: Pc, max: nat)
    requires OnTheWay(p, max)
    ensures p.Idle? ==> 1 <= p.result <= max
  {
  }

  /** A call for up to max permits stands here; if it is to come back with fewer, it must have `seen` that
      there were no more. */
  predicate FallsShort(p: Pc, max: nat, seen: bool) {
    match p
    case Idle(result) => result < max ==> seen
    case TryLoad(m, after) => m + (if after.AddToOne? then 1 else 0) == max
    case Trying(m, count, after) => m + (if after.AddToOne? then 1 else 0) == max && (count <= 0 ==> seen)
    case Posting(_) => false
    case p => p.max == max && seen && max > 0
  }

  lemma FastFallsShort(s: State, t: Tid, spurious: bool, giveUp: bool, max: nat, seen: bool)
    requires Enabled(s, Advance(t, spurious, giveUp)) && FallsShort(s.threads[t], max, seen)
    requires var p := s.threads[t]; p.TryLoad? || p.Trying? || p.SpinLoad? || p.SpinTry?
    ensures var s' := Advanced(s, t, spurious, giveUp);
            t in s'.threads && FallsShort(s'.threads[t], max, seen || s.count <= 0 || s'.count <= 0)
  {
  }

  lemma SlowFallsShort(s: State, t: Tid, spurious: bool, giveUp: bool, max: nat, seen: bool)
    requires Enabled(s, Advance(t, spurious, giveUp)) && FallsShort(s.threads[t], max, seen)
    requires var p := s.threads[t]; !p.TryLoad? && !p.Trying? && !p.SpinLoad? && !p.SpinTry?
    ensures var s' := Advanced(s, t, spurious, giveUp);
            t in s'.threads && FallsShort(s'.threads[t], max, seen || s.count <= 0 || s'.count <= 0)
  {
  }

  /** At a moment behind i and up to j no permit was free. */
  ghost predicate NoneFree(run: seq<State>, i: nat, j: nat)
    requires j < |run|
  {
    exists k :: i < k <= j && run[k].count <= 0
  }

  predicate Begins(a: Action, t: Tid, max: nat) {
    a.tid == t && (a.TryWaitMany? || a.WaitMany?) && a.max == max
  }

  lemma CallFallsShort(s: State, a: Action, t: Tid, max: nat, seen: bool)
    requires Enabled(s, a) && t in s.threads && FallsShort(s.threads[t], max, seen) && (a.tid == t ==> a.Advance?)
    ensures var s' := Apply(s, a);
            t in s'.threads && FallsShort(s'.threads[t], max, seen || s.count <= 0 || s'.count <= 0)
  {
    hide FallsShort, Advanced;
    if a.Advance? && a.tid == t {
      var p := s.threads[t];
      if p.TryLoad? || p.Trying? || p.SpinLoad? || p.SpinTry? {
        FastFallsShort(s, t, a.spurious, a.giveUp, max, seen);
      } else {
        SlowFallsShort(s, t, a.spurious, a.giveUp, max, seen);
      }
    } else if a.Advance? {
      AdvanceMovesOne(s, a.tid, a.spurious, a.giveUp);
      FallsShortLater(s.threads[t], max, seen, seen || s.count <= 0 || Apply(s, a).count <= 0);
    } else {
      FallsShortLater(s.threads[t], max, seen, seen || s.count <= 0 || Apply(s, a).count <= 0);
    }
  }

  lemma FallsShortLater(p: Pc, max: nat, seen: bool, seen': bool)
    requires FallsShort(p, max, seen) && (seen ==> seen')
    ensures FallsShort(p, max, seen')
  {
  }

  /** In every run, a call that comes back with fewer permits than it may take has come upon a moment
      in its course when none was free. */
  lemma {:induction false} ShortOnlyIfNoneFree(run: seq<State>, acts: seq<Action>, permits: nat, spins: nat, threads: set<Tid>,
                                               i: nat, j: nat, t: Tid, max: nat)
    requires IsTrace(run, acts, permits, spins, threads) && i < j <= |acts| && Begins(acts[i], t, max)
    requires forall k :: i < k < j && acts[k].tid == t ==> acts[k].Advance?
    ensures t in run[j].threads && FallsShort(run[j].threads[t], max, NoneFree(run, i, j))
    ensures run[j].threads[t].Idle? && run[j].threads[t].result < max ==> NoneFree(run, i, j)
  {
    hide Enabled, Apply, FallsShort;
    assert Enabled(run[j - 1], acts[j - 1]) && run[j - 1 + 1] == Apply(run[j - 1], acts[j - 1]);
    if j == i + 1 {
      CallBegins(run[i], acts[i], t, max, NoneFree(run, i, j));
    } else {
      ShortOnlyIfNoneFree(run, acts, permits, spins, threads, i, j - 1, t, max);
      CallFallsShort(run[j - 1], acts[j - 1], t, max, NoneFree(run, i, j - 1));
      FallsShortLater(run[j].threads[t], max, NoneFree(run, i, j - 1) || run[j - 1].count <= 0 || run[j].count <= 0,
                      NoneFree(run, i, j));
    }
    ShortMeansSeen(run[j].threads[t], max, NoneFree(run, i, j));
  }

  lemma CallBegins(s: State, a: Action, t: Tid, max: nat, seen: bool)
    requires Enabled(s, a) && Begins(a, t, max)
    ensures t in Apply(s, a).threads && FallsShort(Apply(s, a).threads[t], max, seen)
  {
  }

  lemma ShortMeansSeen(p: Pc, max: nat, seen: bool)
    requires FallsShort(p, max, seen)
    ensures p.Idle? && p.result < max ==> seen
  {
  }

  /** Up to n steps of thread t alone, as long as it is inside a call and can go on. */
  function Alone(s: State, t: Tid, n: nat): State
    decreases n
  {
    if n == 0 || !Enabled(s, Advance(t, false, false)) then s else Alone(Advanced(s, t, false, false), t, n - 1)
  }

  lemma WakeStep(s: State, t: Tid)
    requires t in s.threads && t in s.acquired && s.threads[t].Asleep? && s.threads[t].max > 0 && s.kernel > 0
    ensures Enabled(s, Advance(t, false, false))
    ensures var s' := Advanced(s, t, false, false);
            && t in s'.threads && t in s'.acquired && s'.threads[t] == OneMore(s.threads[t].max)
            && s'.kernel == s.kernel - 1 && s'.count == s.count
  {
  }

  lemma TwoMore(s: State, t: Tid)
    requires Enabled(s, Advance(t, false, false))
    requires Enabled(Advanced(s, t, false, false), Advance(t, false, false))
    ensures Alone(s, t, 2) == Advanced(Advanced(s, t, false, false), t, false, false)
  {
    hide Advanced, Enabled;
    var s1 := Advanced(s, t, false, false);
    assert Alone(s, t, 2) == Alone(s1, t, 1);
    assert Alone(s1, t, 1) == Alone(Advanced(s1, t, false, false), t, 0);
  }

  /** Once it has its first permit, a thread takes as many of the free ones, undisturbed, as it may. */
  lemma LoneOneMore(s: State, t: Tid, max: nat)
    requires t in s.threads && t in s.acquired && s.threads[t] == OneMore(max) && max > 0
    ensures var s', more := Alone(s, t, 2), Min(max - 1, Max(0, s.count));
            && t in s'.threads && s'.threads[t] == Idle(1 + more) && s'.kernel == s.kernel && s'.count == s.count - more
  {
    if max > 1 {
      LoneTryTakesAll(s, t);
      TwoMore(s, t);
    }
  }

  /** A sleeper that is woken up takes, undisturbed, as many of the free permits with it as it may. */
  lemma LoneWakeTakesRest(s: State, t: Tid)
    requires t in s.threads && t in s.acquired && s.threads[t].Asleep? && s.threads[t].max > 0 && s.kernel > 0
    ensures var s' := Alone(s, t, 3);
            var more := Min(s.threads[t].max - 1, Max(0, s.count));
            && t in s'.threads && s'.threads[t] == Idle(1 + more)
            && s'.kernel == s.kernel - 1 && s'.count == s.count - more
  {
    hide Advanced;
    WakeStep(s, t);
    var s1 := Advanced(s, t, false, false);
    assert Alone(s, t, 3) == Alone(s1, t, 2);
    LoneOneMore(s1, t, s.threads[t].max);
  }

  /** A thread that spins while permits are free takes, undisturbed, as many as it may. */
  lemma LoneSpinTakes(s: State, t: Tid)
    requires t in s.threads && t in s.acquired && s.threads[t].SpinLoad? && s.threads[t].spins > 0 && s.count > 0
    ensures var s', got := Alone(s, t, 2), Min(s.threads[t].max, s.count);
            t in s'.threads && s'.threads[t] == Idle(got) && s'.count == s.count - got && s'.kernel == s.kernel
  {
    TwoMore(s, t);
  }

  /** So does one that comes to register, with the registration itself as its first. */
  lemma LoneRegisterTakes(s: State, t: Tid)
    requires t in s.threads && t in s.acquired && s.threads[t].Register? && s.threads[t].max > 0 && s.count > 0
    ensures var s', got := Alone(s, t, 3), Min(s.threads[t].max, s.count);
            t in s'.threads && s'.threads[t] == Idle(got) && s'.count == s.count - got && s'.kernel == s.kernel
  {
    var s1 := Advanced(s, t, false, false);
    assert s1.threads[t] == OneMore(s.threads[t].max) && s1.count == s.count - 1;
    assert Alone(s, t, 3) == Alone(s1, t, 2);
    LoneOneMore(s1, t, s.threads[t].max);
  }

  /** A waiter that gave up just as it was signalled still takes the permit posted for it. */
  lemma LoneLateWaker(s: State, t: Tid)
    requires t in s.threads && t in s.acquired && s.threads[t].Recheck? && s.threads[t].max > 0
    requires s.count >= 0 && s.kernel > 0
    ensures var s', more := Alone(s, t, 4), Min(s.threads[t].max - 1, s.count);
            t in s'.threads && s'.threads[t] == Idle(1 + more) && s'.count == s.count - more && s'.kernel == s.kernel - 1
  {
    var s1 := Advanced(s, t, false, false);
    var s2 := Advanced(s1, t, false, false);
    assert s2.threads[t] == OneMore(s.threads[t].max) && s2.count == s.count && s2.kernel == s.kernel - 1;
    assert Alone(s, t, 4) == Alone(s1, t, 3) == Alone(s2, t, 2);
    LoneOneMore(s2, t, s.threads[t].max);
  }

  /** While no permit is free a thread spins as often as it is told. */
  lemma {:induction false} SpinsOut(s: State, t: Tid, n: nat, more: nat, max: nat, patience: Patience)
    requires t in s.threads && t in s.acquired && s.threads[t] == SpinLoad(max, n, patience) && s.count <= 0
    ensures Alone(s, t, n + more) == Alone(At(s, t, SpinLoad(max, 0, patience)), t, more)
    decreases n
  {
    var s' := At(s, t, SpinLoad(max, 0, patience));
    if n == 0 {
      assert s' == s;
    } else {
      var s1 := Advanced(s, t, false, false);
      SpinsOut(s1, t, n - 1, more, max, patience);
      assert At(s1, t, SpinLoad(max, 0, patience)) == s';
    }
  }

  /** A wait that may not sleep comes back empty, undisturbed, exactly when no permit is free, and then
      leaves no trace; otherwise it takes as many as it may. */
  lemma LonePoll(s: State, t: Tid, max: nat)
    requires Enabled(s, WaitMany(t, max, NoSleep)) && max > 0 && s.kernel == 0
    ensures var s' := Alone(Apply(s, WaitMany(t, max, NoSleep)), t, s.spins + 6);
            var got := Min(max, Max(0, s.count));
            && t in s'.threads && s'.threads[t] == Idle(got) && s'.count == s.count - got && s'.kernel == s.kernel
  {
    var s0 := Apply(s, WaitMany(t, max, NoSleep));
    var s1 := Advanced(s0, t, false, false);
    var s2 := Advanced(s1, t, false, false);
    assert Alone(s0, t, s.spins + 6) == Alone(s1, t, s.spins + 5) == Alone(s2, t, s.spins + 4);
    if s.count <= 0 {
      SpinsOut(s2, t, s.spins, 4, max, NoSleep);
      LoneRetreat(At(s2, t, SpinLoad(max, 0, NoSleep)), t, max);
    }
  }

  /** Who registers without sleeping, and finds no permit, takes the registration back. */
  lemma LoneRetreat(s: State, t: Tid, max: nat)
    requires t in s.threads && t in s.acquired && s.threads[t] == SpinLoad(max, 0, NoSleep)
    requires s.count <= 0 && s.kernel == 0
    ensures var s' := Alone(s, t, 4);
            t in s'.threads && s'.threads[t] == Idle(0) && s'.count == s.count && s'.kernel == 0
  {
    var s3 := Advanced(s, t, false, false);
    var s4 := Advanced(s3, t, false, false);
    assert s3.threads[t] == Register(max, NoSleep);
    assert s4.threads[t] == Recheck(max) && s4.count == s.count - 1 && s4.kernel == 0;
    var s5 := Advanced(s4, t, false, false);
    var s6 := Advanced(s5, t, false, false);
    assert Alone(s, t, 4) == Alone(s3, t, 3) == Alone(s4, t, 2) == Alone(s5, t, 1) == Alone(s6, t, 0);
  }

  /** The fast path is greedy: undisturbed, it takes as many permits as there are, up to its maximum,
      and a wait goes on to spin exactly when it has got nothing. */
  lemma LoneTryTakesAll(s: State, t: Tid)
    requires t in s.threads && t in s.acquired && s.threads[t].TryLoad?
    ensures var s1 := Advanced(s, t, false, false);
            && Enabled(s1, Advance(t, false, false))
            && var s2 := Advanced(s1, t, false, false);
               var got, max, after := s2.acquired[t] - s.acquired[t], s.threads[t].max, s.threads[t].after;
               && got == Min(max, Max(0, s.count)) && s2.count == s.count - got
               && s2.threads[t] == if after.AddToOne? then Idle(got + 1)
                                   else if after.ElseWait? && got == 0 && max > 0 then SpinLoad(max, s.spins, after.patience)
                                   else Idle(got)
  {
  }

  /** No permit is lost, by timeout or otherwise: when nobody is inside a call every permit not
      acquired is in the count, and the kernel semaphore is empty. */
  lemma NothingLost(s: State, permits: nat)
    requires Inv(s, permits) && forall t :: t in s.threads ==> s.threads[t].Idle?
    ensures s.kernel == 0 && s.count == permits + s.signalled - s.total && s.count >= 0
  {
    TotalZero(s.threads, Waits);
    TotalZero(s.threads, Posts);
  }

  /** A signal posts no more permits than there are waiters, so with fewer than 2^31 threads its cast
      to `int` loses nothing. */
  lemma PostsFitWaiters(s: State, more: nat, permits: nat)
    requires Inv(s, permits)
    ensures ToRelease(s.count, more) <= Waiters(s) <= |s.threads|
  {
    TotalAtMost(s.threads, Waits);
  }

  /** No lost wake-up: as soon as enough has been signalled that the count is not negative, every
      registered waiter has a permit of its own in the kernel or about to be posted there. */
  lemma EveryWaiterServed(s: State, permits: nat)
    requires Inv(s, permits) && s.count >= 0
    ensures Waiters(s) == s.kernel + ToPost(s)
    ensures (exists t :: t in s.threads && s.threads[t].Asleep?) ==> s.kernel + ToPost(s) > 0
  {
    if t :| t in s.threads && s.threads[t].Asleep? {
      TotalAtLeast(s.threads, Waits, t);
    }
  }
}
