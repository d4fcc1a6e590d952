/** How threads win the right to dequeue (`ImplicitProducer::dequeue` and `dequeue_bulk`).
    One producer publishes elements by advancing `tail`.  A consumer reads the tail, the
    overcommit count and the optimistic count, optimistically adds what it wants to the
    optimistic count, re-reads the tail, hands back what it may not have through the
    overcommit count and takes the rest by advancing `head`.  Every load and every
    read-modify-write is a step of its own, and any number of threads interleave freely.

    A single dequeue is the bulk form with a maximum of one.

    `tickets` and `claims` are history: a ticket is one unit added to the optimistic count,
    and `claims[i]` is the thread that won index i. */
module OptimisticDequeue {
  import opened Numbers

  type Tid = nat

  /** What became of a ticket: undecided; granted by the second look at the tail and then
      turned into a claim on `head`; or refused and then counted in `overcommit`. */
  datatype Fate = Pending | Won | Claimed | Lost | Counted

  datatype Ticket = Ticket(owner: Tid, fate: Fate)

  datatype Pc =
    | Idle
    | TailRead(max: nat, seenTail: nat)
    | OverRead(max: nat, seenTail: nat, over: nat)
    | Asking(over: nat, desired: nat)
    | Ticketed(over: nat, desired: nat, mine: nat)
    | Granted(mine: nat, actual: nat, excess: nat)
    | Claiming(mine: nat, actual: nat)
    | Refused(desired: nat, mine: nat)

  datatype State = State(
    tail: nat, head: nat, optimistic: nat, overcommit: nat,
    threads: map<Tid, Pc>, tickets: seq<Ticket>, claims: seq<Tid>)

  function Init(threads: set<Tid>): State {
    State(0, 0, 0, 0, map t | t in threads :: Idle, [], [])
  }

  datatype Action =
    | Publish(count: nat)
    | Begin(tid: Tid, max: nat)
    | Advance(tid: Tid)

  predicate Enabled(s: State, a: Action) {
    match a
    case Publish(_) => true
    case Begin(t, max) => t in s.threads && s.threads[t].Idle? && max >= 1
    case Advance(t) => t in s.threads && !s.threads[t].Idle?
  }

  /** The same tickets, those in [lo, hi) with a new fate. */
  function Resolve(ts: seq<Ticket>, lo: nat, hi: nat, f: Fate): (r: seq<Ticket>)
    ensures |r| == |ts|
    ensures forall q :: 0 <= q < |ts| ==> r[q] == if lo <= q < hi then ts[q].(fate := f) else ts[q]
  {
    seq(|ts|, q requires 0 <= q < |ts| => if lo <= q < hi then ts[q].(fate := f) else ts[q])
  }

  /** A granted thread that was given less than it asked for first hands back the difference. */
  function Advanced(s: State, t: Tid): State
    requires t in s.threads && !s.threads[t].Idle?
  {
    match s.threads[t]
    case TailRead(max, seenTail) =>
      s.(threads := s.threads[t := OverRead(max, seenTail, s.overcommit)])
    case OverRead(max, seenTail, over) =>
      var desired := seenTail - (s.optimistic - over);
      if 0 < desired then s.(threads := s.threads[t := Asking(over, Min(desired, max))])
      else s.(threads := s.threads[t := Idle])
    case Asking(over, desired) =>
      s.(optimistic := s.optimistic + desired,
         tickets := s.tickets + seq(desired, _ => Ticket(t, Pending)),
         threads := s.threads[t := Ticketed(over, desired, s.optimistic)])
    case Ticketed(over, desired, mine) =>
      var actual := s.tail - (mine - over);
      if 0 < actual then
        var a := Min(desired, actual);
        var decided := Resolve(Resolve(s.tickets, mine, mine + a, Won), mine + a, mine + desired, Lost);
        s.(tickets := decided,
           threads := s.threads[t := if a < desired then Granted(mine, a, desired - a) else Claiming(mine, a)])
      else
        s.(tickets := Resolve(s.tickets, mine, mine + desired, Lost),
           threads := s.threads[t := Refused(desired, mine)])
    case Granted(mine, actual, excess) =>
      s.(overcommit := s.overcommit + excess,
         tickets := Resolve(s.tickets, mine + actual, mine + actual + excess, Counted),
         threads := s.threads[t := Claiming(mine, actual)])
    case Claiming(mine, actual) =>
      s.(head := s.head + actual,
         tickets := Resolve(s.tickets, mine, mine + actual, Claimed),
         claims := s.claims + seq(actual, _ => t),
         threads := s.threads[t := Idle])
    case Refused(desired, mine) =>
      s.(overcommit := s.overcommit + desired,
         tickets := Resolve(s.tickets, mine, mine + desired, Counted),
         threads := s.threads[t := Idle])
  }

  function Apply(s: State, a: Action): State
    requires Enabled(s, a)
  {
    match a
    case Publish(count) => s.(tail := s.tail + count)
    case Begin(t, max) => s.(threads := s.threads[t := TailRead(max, s.tail)])
    case Advance(t) => Advanced(s, t)
  }

  // ---------------------------------------------------------------------------
  // Counting fates
  // ---------------------------------------------------------------------------

  function Count(ts: seq<Ticket>, f: Fate): (n: nat)
    ensures n <= |ts|
  {
    if ts == [] then 0
    else Count(ts[..|ts| - 1], f) + if ts[|ts| - 1].fate == f then 1 else 0
  }

  /** Tickets already known to be refused. */
  function Losses(ts: seq<Ticket>): nat {
    Count(ts, Lost) + Count(ts, Counted)
  }

  /** Tickets granted, whether or not already claimed. */
  function Wins(ts: seq<Ticket>): nat {
    Count(ts, Won) + Count(ts, Claimed)
  }

  predicate IsWin(k: Ticket) { k.fate.Won? || k.fate.Claimed? }

  predicate IsLoss(k: Ticket) { k.fate.Lost? || k.fate.Counted? }

  lemma CountAppend(ts: seq<Ticket>, us: seq<Ticket>, f: Fate)
    ensures Count(ts + us, f) == Count(ts, f) + Count(us, f)
  {
    if us == [] {
      assert ts + us == ts;
    } else {
      var n := |us| - 1;
      CountAppend(ts, us[..n], f);
      assert (ts + us)[..|ts + us| - 1] == ts + us[..n];
    }
  }

  lemma {:induction false} CountUniform(ts: seq<Ticket>, f0: Fate, f: Fate)
    requires forall q :: 0 <= q < |ts| ==> ts[q].fate == f0
    ensures Count(ts, f) == if f == f0 then |ts| else 0
  {
    if ts != [] { CountUniform(ts[..|ts| - 1], f0, f); }
  }

  lemma CountSplit(ts: seq<Ticket>, lo: nat, hi: nat, f: Fate)
    requires lo <= hi <= |ts|
    ensures Count(ts, f) == Count(ts[..lo], f) + Count(ts[lo..hi], f) + Count(ts[hi..], f)
  {
    assert ts == ts[..lo] + ts[lo..] && ts[lo..] == ts[lo..hi] + ts[hi..];
    CountAppend(ts[..lo], ts[lo..], f);
    CountAppend(ts[lo..hi], ts[hi..], f);
  }

  /** Resolving a uniform interval moves exactly its length from one fate to the other. */
  lemma CountResolve(ts: seq<Ticket>, lo: nat, hi: nat, f0: Fate, f1: Fate, f: Fate)
    requires lo <= hi <= |ts| && f0 != f1
    requires forall q :: lo <= q < hi ==> ts[q].fate == f0
    ensures Count(Resolve(ts, lo, hi, f1), f)
         == Count(ts, f) + (if f == f1 then hi - lo else 0) - (if f == f0 then hi - lo else 0)
  {
    var r := Resolve(ts, lo, hi, f1);
    CountSplit(ts, lo, hi, f);
    CountSplit(r, lo, hi, f);
    assert r[..lo] == ts[..lo] && r[hi..] == ts[hi..];
    CountUniform(ts[lo..hi], f0, f);
    CountUniform(r[lo..hi], f1, f);
  }

  /** A stretch of one fate is counted at least in full. */
  lemma CountAtLeast(ts: seq<Ticket>, lo: nat, hi: nat, f: Fate)
    requires lo <= hi <= |ts|
    requires forall q :: lo <= q < hi ==> ts[q].fate == f
    ensures Count(ts, f) >= hi - lo
  {
    CountSplit(ts, lo, hi, f);
    CountUniform(ts[lo..hi], f, f);
  }

  lemma {:induction false} WinsAndLossesFit(ts: seq<Ticket>)
    ensures Wins(ts) + Losses(ts) <= |ts|
  {
    if ts != [] { WinsAndLossesFit(ts[..|ts| - 1]); }
  }

  lemma {:induction false} WinsStopAtLastWin(ts: seq<Ticket>)
    ensures Wins(ts) == 0 || exists q :: 0 <= q < |ts| && IsWin(ts[q]) && Wins(ts) == Wins(ts[..q + 1])
  {
    if ts != [] {
      var n := |ts| - 1;
      if IsWin(ts[n]) {
        assert ts[..n + 1] == ts;
      } else {
        WinsStopAtLastWin(ts[..n]);
        if Wins(ts) != 0 {
          var q :| 0 <= q < n && IsWin(ts[..n][q]) && Wins(ts[..n]) == Wins(ts[..n][..q + 1]);
          assert ts[..n][..q + 1] == ts[..q + 1];
        }
      }
    }
  }

  /** Losses only accumulate, in every prefix. */
  lemma {:induction false} LossesGrow(ts: seq<Ticket>, us: seq<Ticket>, k: nat)
    requires k <= |ts| <= |us|
    requires forall q :: 0 <= q < |ts| && IsLoss(ts[q]) ==> IsLoss(us[q])
    ensures Losses(ts[..k]) <= Losses(us[..k])
  {
    if k > 0 {
      LossesGrow(ts, us, k - 1);
      assert ts[..k][..k - 1] == ts[..k - 1];
      assert us[..k][..k - 1] == us[..k - 1];
    }
  }

  // ---------------------------------------------------------------------------
  // The invariant
  // ---------------------------------------------------------------------------

  /** Tickets lo..hi are thread t's and have fate f. */
  predicate Holds(ts: seq<Ticket>, lo: nat, hi: nat, t: Tid, f: Fate) {
    lo <= hi <= |ts| && forall q :: lo <= q < hi ==> ts[q] == Ticket(t, f)
  }

  predicate OwnsInterval(s: State, t: Tid)
    requires t in s.threads
  {
    match s.threads[t]
    case Ticketed(over, desired, mine) => desired >= 1 && Holds(s.tickets, mine, mine + desired, t, Pending)
    case Granted(mine, actual, excess) =>
      actual >= 1 && Holds(s.tickets, mine, mine + actual, t, Won)
      && Holds(s.tickets, mine + actual, mine + actual + excess, t, Lost)
    case Claiming(mine, actual) => actual >= 1 && Holds(s.tickets, mine, mine + actual, t, Won)
    case Refused(desired, mine) => desired >= 1 && Holds(s.tickets, mine, mine + desired, t, Lost)
    case _ => true
  }

  /** An overcommit value a thread still carries counts losses among tickets older than its own. */
  predicate SnapshotSound(s: State, t: Tid)
    requires t in s.threads
  {
    match s.threads[t]
    case TailRead(max, seenTail) => max >= 1
    case OverRead(max, seenTail, over) => max >= 1 && over <= Losses(s.tickets)
    case Asking(over, desired) => desired >= 1 && over <= Losses(s.tickets)
    case Ticketed(over, desired, mine) => mine <= |s.tickets| && over <= Losses(s.tickets[..mine])
    case _ => true
  }

  /** Thread t, at its current point, still has to settle ticket q. */
  predicate Settles(p: Pc, q: nat) {
    match p
    case Ticketed(_, desired, mine) => mine <= q < mine + desired
    case Granted(mine, actual, excess) => mine <= q < mine + actual + excess
    case Claiming(mine, actual) => mine <= q < mine + actual
    case Refused(desired, mine) => mine <= q < mine + desired
    case _ => false
  }

  predicate Unsettled(f: Fate) { f.Pending? || f.Won? || f.Lost? }

  /** Discounting the losses at or below it, a granted ticket lies below the tail. */
  predicate WinJustified(s: State, q: nat)
    requires q < |s.tickets|
  {
    q + 1 - Losses(s.tickets[..q + 1]) <= s.tail
  }

  /** The shared counters are the tallies of the history. */
  ghost predicate CountersTally(s: State) {
    && |s.tickets| == s.optimistic
    && |s.claims| == s.head == Count(s.tickets, Claimed)
    && s.overcommit == Count(s.tickets, Counted)
  }

  ghost predicate ThreadsSound(s: State) {
    forall t :: t in s.threads ==> OwnsInterval(s, t) && SnapshotSound(s, t)
  }

  /** Every ticket not yet settled has a thread that will settle it. */
  ghost predicate NoneForgotten(s: State) {
    forall q :: 0 <= q < |s.tickets| && Unsettled(s.tickets[q].fate) ==>
      s.tickets[q].owner in s.threads && Settles(s.threads[s.tickets[q].owner], q)
  }

  ghost predicate WinsJustified(s: State) {
    forall q :: 0 <= q < |s.tickets| && IsWin(s.tickets[q]) ==> WinJustified(s, q)
  }

  ghost predicate Inv(s: State) {
    CountersTally(s) && ThreadsSound(s) && NoneForgotten(s) && WinsJustified(s)
  }

  lemma InitInv(threads: set<Tid>)
    ensures Inv(Init(threads))
  {
  }

  /** Everything granted so far, claimed or not, fits below the tail. */
  lemma WinsBelowTail(s: State)
    requires Inv(s)
    ensures Wins(s.tickets) <= s.tail
  {
    WinsStopAtLastWin(s.tickets);
    if Wins(s.tickets) != 0 {
      var q :| 0 <= q < |s.tickets| && IsWin(s.tickets[q]) && Wins(s.tickets) == Wins(s.tickets[..q + 1]);
      assert WinJustified(s, q);
      WinsAndLossesFit(s.tickets[..q + 1]);
    }
  }

  /** Changing fates of t's own interval leaves what other threads hold alone. */
  lemma OthersKeep(s: State, s': State, t: Tid)
    requires Inv(s) && t in s.threads
    requires s'.threads.Keys == s.threads.Keys
    requires forall u :: u in s.threads && u != t ==> s'.threads[u] == s.threads[u]
    requires |s.tickets| <= |s'.tickets|
    requires forall q :: 0 <= q < |s.tickets| && s.tickets[q].owner != t ==> s'.tickets[q] == s.tickets[q]
    requires forall q :: 0 <= q < |s.tickets| && IsLoss(s.tickets[q]) ==> IsLoss(s'.tickets[q])
    ensures forall u :: u in s.threads && u != t ==> OwnsInterval(s', u) && SnapshotSound(s', u)
  {
    forall u | u in s.threads && u != t
      ensures OwnsInterval(s', u) && SnapshotSound(s', u)
    {
      assert OwnsInterval(s, u) && SnapshotSound(s, u);
      LossesGrow(s.tickets, s'.tickets, |s.tickets|);
      assert s.tickets[..|s.tickets|] == s.tickets;
      LossesPrefix(s'.tickets, |s.tickets|);
      match s.threads[u]
      case Ticketed(over, desired, mine) => LossesGrow(s.tickets, s'.tickets, mine);
      case _ =>
    }
  }

  lemma LossesPrefix(ts: seq<Ticket>, k: nat)
    requires k <= |ts|
    ensures Losses(ts[..k]) <= Losses(ts)
  {
    assert ts == ts[..k] + ts[k..];
    CountAppend(ts[..k], ts[k..], Lost);
    CountAppend(ts[..k], ts[k..], Counted);
  }

  /** Wins stay justified as losses accumulate and the tail advances. */
  lemma WinsStayJustified(s: State, s': State, q: nat)
    requires Inv(s) && q < |s.tickets| <= |s'.tickets| && s.tail <= s'.tail
    requires IsWin(s.tickets[q])
    requires forall k :: 0 <= k < |s.tickets| && IsLoss(s.tickets[k]) ==> IsLoss(s'.tickets[k])
    ensures WinJustified(s', q)
  {
    assert WinJustified(s, q);
    LossesGrow(s.tickets, s'.tickets, q + 1);
  }

  // ---------------------------------------------------------------------------
  // Every step keeps the invariant
  // ---------------------------------------------------------------------------

  lemma AskTallies(ts: seq<Ticket>, t: Tid, desired: nat, f: Fate)
    requires f == Claimed || f == Counted
    ensures Count(ts + seq(desired, _ => Ticket(t, Pending)), f) == Count(ts, f)
  {
    var added := seq(desired, _ => Ticket(t, Pending));
    CountAppend(ts, added, f);
    CountUniform(added, Pending, f);
  }

  lemma AskKeepsInv(s: State, t: Tid)
    requires Inv(s) && t in s.threads && s.threads[t].Asking?
    ensures Inv(Advanced(s, t))
  {
    hide Count, WinJustified;
    var s' := Advanced(s, t);
    var Asking(over, desired) := s.threads[t];
    assert SnapshotSound(s, t);
    AskTallies(s.tickets, t, desired, Claimed);
    AskTallies(s.tickets, t, desired, Counted);
    assert s'.tickets[..|s.tickets|] == s.tickets;
    OthersKeep(s, s', t);
    forall q | 0 <= q < |s'.tickets| && IsWin(s'.tickets[q]) ensures WinJustified(s', q) {
      WinsStayJustified(s, s', q);
    }
  }

  /** Thread t re-fates tickets of its own that were not losses: what the other threads and
      the other tickets rely on stays. */
  lemma OwnRefateKeepsRest(s: State, s': State, t: Tid, lo: nat, hi: nat)
    requires Inv(s) && t in s.threads && lo <= hi <= |s.tickets| == |s'.tickets|
    requires forall q :: lo <= q < hi ==> s.tickets[q].owner == t == s'.tickets[q].owner
    requires forall q :: 0 <= q < |s.tickets| && !(lo <= q < hi) ==> s'.tickets[q] == s.tickets[q]
    requires forall q :: lo <= q < hi && IsLoss(s.tickets[q]) ==> IsLoss(s'.tickets[q])
    requires s'.threads.Keys == s.threads.Keys && s'.tail == s.tail
    requires forall u :: u in s.threads && u != t ==> s'.threads[u] == s.threads[u]
    requires forall q :: 0 <= q < |s.tickets| && Unsettled(s'.tickets[q].fate) ==>
               (lo <= q < hi || Settles(s.threads[t], q)) ==> Settles(s'.threads[t], q)
    ensures forall u :: u in s.threads && u != t ==> OwnsInterval(s', u) && SnapshotSound(s', u)
    ensures NoneForgotten(s')
    ensures forall q :: 0 <= q < |s.tickets| && IsWin(s.tickets[q]) ==> WinJustified(s', q)
  {
    OthersKeep(s, s', t);
    forall q | 0 <= q < |s'.tickets| && IsWin(s.tickets[q]) ensures WinJustified(s', q) {
      WinsStayJustified(s, s', q);
    }
  }

  /** The second look at the tail settles nothing yet. */
  lemma DecideTallies(ts: seq<Ticket>, t: Tid, mine: nat, a: nat, desired: nat, f: Fate)
    requires a <= desired && Holds(ts, mine, mine + desired, t, Pending)
    requires f == Claimed || f == Counted
    ensures Count(Resolve(Resolve(ts, mine, mine + a, Won), mine + a, mine + desired, Lost), f) == Count(ts, f)
  {
    hide Count, Resolve;
    var mid := Resolve(ts, mine, mine + a, Won);
    assert Holds(mid, mine + a, mine + desired, t, Pending);
    CountResolve(ts, mine, mine + a, Pending, Won, f);
    CountResolve(mid, mine + a, mine + desired, Pending, Lost, f);
  }

  /** A ticket granted by the second look at the tail is justified: the overcommit value the
      thread carries may be old, but it only counts losses older than the ticket. */
  lemma GrantIsJustified(s: State, s': State, mine: nat, over: nat, q: nat)
    requires mine <= q < |s.tickets| == |s'.tickets| && s'.tail == s.tail
    requires over <= Losses(s.tickets[..mine])
    requires q - over < s.tail
    requires forall k :: 0 <= k < |s.tickets| && IsLoss(s.tickets[k]) ==> IsLoss(s'.tickets[k])
    ensures WinJustified(s', q)
  {
    LossesGrow(s.tickets, s'.tickets, mine);
    assert s'.tickets[..q + 1][..mine] == s'.tickets[..mine];
    LossesPrefix(s'.tickets[..q + 1], mine);
  }

  /** The decision: of the desired tickets from mine on, the first a are granted. */
  lemma DecisionKeepsInv(s: State, s': State, t: Tid, over: nat, desired: nat, mine: nat, a: nat)
    requires Inv(s) && t in s.threads && s.threads[t] == Ticketed(over, desired, mine)
    requires a <= desired && (a > 0 ==> a <= s.tail - (mine - over))
    requires s'.tickets == Resolve(Resolve(s.tickets, mine, mine + a, Won), mine + a, mine + desired, Lost)
    requires s' == s.(tickets := s'.tickets, threads := s.threads[t :=
               if a == 0 then Refused(desired, mine)
               else if a < desired then Granted(mine, a, desired - a) else Claiming(mine, a)])
    ensures Inv(s')
  {
    assert OwnsInterval(s, t) && SnapshotSound(s, t);
    assert CountersTally(s') by {
      DecideTallies(s.tickets, t, mine, a, desired, Claimed);
      DecideTallies(s.tickets, t, mine, a, desired, Counted);
    }
    DecisionLeavesRest(s, s', t, over, desired, mine, a);
    forall q | 0 <= q < |s'.tickets| && IsWin(s'.tickets[q]) ensures WinJustified(s', q) {
      if mine <= q < mine + desired {
        GrantIsJustified(s, s', mine, over, q);
      }
    }
  }

  lemma DecisionLeavesRest(s: State, s': State, t: Tid, over: nat, desired: nat, mine: nat, a: nat)
    requires Inv(s) && t in s.threads && s.threads[t] == Ticketed(over, desired, mine)
    requires a <= desired
    requires s'.tickets == Resolve(Resolve(s.tickets, mine, mine + a, Won), mine + a, mine + desired, Lost)
    requires s' == s.(tickets := s'.tickets, threads := s.threads[t :=
               if a == 0 then Refused(desired, mine)
               else if a < desired then Granted(mine, a, desired - a) else Claiming(mine, a)])
    ensures ThreadsSound(s') && NoneForgotten(s')
    ensures forall q :: 0 <= q < |s.tickets| && IsWin(s.tickets[q]) ==> WinJustified(s', q)
  {
    assert OwnsInterval(s, t) && SnapshotSound(s, t);
    OwnRefateKeepsRest(s, s', t, mine, mine + desired);
    assert OwnsInterval(s', t);
  }

  lemma DecideKeepsInv(s: State, t: Tid)
    requires Inv(s) && t in s.threads && s.threads[t].Ticketed?
    ensures Inv(Advanced(s, t))
  {
    var Ticketed(over, desired, mine) := s.threads[t];
    assert OwnsInterval(s, t);
    var actual := s.tail - (mine - over);
    var a := if 0 < actual then Min(desired, actual) else 0;
    var none := Resolve(s.tickets, mine, mine, Won);
    assert none == s.tickets;
    DecisionKeepsInv(s, Advanced(s, t), t, over, desired, mine, a);
  }

  /** Settling: tickets lo..hi of thread t go from fate f0 to f1, and the thread moves on to p. */
  lemma SettleKeepsInv(s: State, s': State, t: Tid, lo: nat, hi: nat, f0: Fate, f1: Fate, p: Pc)
    requires Inv(s) && t in s.threads
    requires Holds(s.tickets, lo, hi, t, f0) && (f0, f1) in {(Lost, Counted), (Won, Claimed)}
    requires s'.tickets == Resolve(s.tickets, lo, hi, f1)
    requires s'.tail == s.tail && s'.threads == s.threads[t := p] && s'.optimistic == s.optimistic
    requires s'.head == s.head + (if f1 == Claimed then hi - lo else 0) == |s'.claims|
    requires s'.overcommit == s.overcommit + (if f1 == Counted then hi - lo else 0)
    requires OwnsInterval(s', t) && !p.TailRead? && !p.OverRead? && !p.Asking? && !p.Ticketed?
    requires forall q: nat :: Settles(s.threads[t], q) && !(lo <= q < hi) ==> Settles(p, q)
    ensures Inv(s')
  {
    assert CountersTally(s') by {
      CountResolve(s.tickets, lo, hi, f0, f1, Claimed);
      CountResolve(s.tickets, lo, hi, f0, f1, Counted);
    }
    OwnRefateKeepsRest(s, s', t, lo, hi);
  }

  /** The loads before the optimistic add only move the thread. */
  lemma LoadKeepsInv(s: State, s': State, t: Tid, p: Pc)
    requires Inv(s) && t in s.threads && s' == s.(threads := s.threads[t := p])
    requires s.threads[t].Idle? || s.threads[t].TailRead? || s.threads[t].OverRead?
    requires p.Idle? || p.TailRead? || p.OverRead? || p.Asking?
    requires SnapshotSound(s', t)
    ensures Inv(s')
  {
    OthersKeep(s, s', t);
    forall q | 0 <= q < |s.tickets| && IsWin(s.tickets[q]) ensures WinJustified(s', q) {
      WinsStayJustified(s, s', q);
    }
  }

  lemma PublishKeepsInv(s: State, count: nat)
    requires Inv(s)
    ensures Inv(s.(tail := s.tail + count))
  {
    var s' := s.(tail := s.tail + count);
    forall q | 0 <= q < |s.tickets| && IsWin(s.tickets[q]) ensures WinJustified(s', q) {
      WinsStayJustified(s, s', q);
    }
    forall t | t in s'.threads ensures OwnsInterval(s', t) && SnapshotSound(s', t) {
      assert OwnsInterval(s, t) && SnapshotSound(s, t);
    }
  }

  lemma OvercommitCountsLosses(s: State)
    requires Inv(s)
    ensures s.overcommit <= Losses(s.tickets)
  {
  }

  lemma SettlesKeepInv(s: State, t: Tid)
    requires Inv(s) && t in s.threads
    requires s.threads[t].Granted? || s.threads[t].Claiming? || s.threads[t].Refused?
    ensures Inv(Advanced(s, t))
  {
    assert OwnsInterval(s, t);
    match s.threads[t]
    case Granted(mine, actual, excess) =>
      SettleKeepsInv(s, Advanced(s, t), t, mine + actual, mine + actual + excess, Lost, Counted,
                     Claiming(mine, actual));
    case Claiming(mine, actual) =>
      SettleKeepsInv(s, Advanced(s, t), t, mine, mine + actual, Won, Claimed, Idle);
    case Refused(desired, mine) =>
      SettleKeepsInv(s, Advanced(s, t), t, mine, mine + desired, Lost, Counted, Idle);
  }

  lemma LoadsKeepInv(s: State, t: Tid)
    requires Inv(s) && t in s.threads && (s.threads[t].TailRead? || s.threads[t].OverRead?)
    ensures Inv(Advanced(s, t))
  {
    assert SnapshotSound(s, t);
    OvercommitCountsLosses(s);
    var s' := Advanced(s, t);
    LoadKeepsInv(s, s', t, s'.threads[t]);
  }

  lemma StepKeepsInv(s: State, a: Action)
    requires Inv(s) && Enabled(s, a)
    ensures Inv(Apply(s, a))
  {
    hide CountersTally, ThreadsSound, NoneForgotten, WinsJustified, Resolve;
    match a
    case Publish(count) => PublishKeepsInv(s, count);
    case Begin(t, max) => LoadKeepsInv(s, Apply(s, a), t, TailRead(max, s.tail));
    case Advance(t) =>
      if s.threads[t].TailRead? || s.threads[t].OverRead? {
        LoadsKeepInv(s, t);
      } else if s.threads[t].Asking? {
        AskKeepsInv(s, t);
      } else if s.threads[t].Ticketed? {
        DecideKeepsInv(s, t);
      } else {
        SettlesKeepInv(s, t);
      }
  }

  // ---------------------------------------------------------------------------
  // Runs
  // ---------------------------------------------------------------------------

  /** s' can follow s. */
  ghost predicate Next(s: State, s': State) {
    exists a: Action :: Enabled(s, a) && s' == Apply(s, a)
  }

  ghost predicate IsRun(run: seq<State>, threads: set<Tid>) {
    && |run| > 0 && run[0] == Init(threads)
    && forall i :: 0 <= i < |run| - 1 ==> Next(run[i], run[i + 1])
  }

  lemma {:induction false} RunInv(run: seq<State>, threads: set<Tid>, i: nat)
    requires IsRun(run, threads) && i < |run|
    ensures Inv(run[i])
  {
    if i == 0 {
      InitInv(threads);
    } else {
      RunInv(run, threads, i - 1);
      assert Next(run[i - 1], run[i - 1 + 1]);
      var a: Action :| Enabled(run[i - 1], a) && run[i] == Apply(run[i - 1], a);
      StepKeepsInv(run[i - 1], a);
    }
  }

  /** No over-claim, in every state of every run: the slots handed out, together with those a
      thread is about to take, never pass the tail. */
  lemma NoOverclaim(run: seq<State>, threads: set<Tid>, i: nat)
    requires IsRun(run, threads) && i < |run|
    ensures run[i].head <= run[i].tail
    ensures forall t :: t in run[i].threads && run[i].threads[t].Claiming? ==>
              run[i].head + run[i].threads[t].actual <= run[i].tail
  {
    RunInv(run, threads, i);
    ClaimFits(run[i]);
  }

  lemma ClaimFits(s: State)
    requires Inv(s)
    ensures s.head <= s.tail
    ensures forall t :: t in s.threads && s.threads[t].Claiming? ==> s.head + s.threads[t].actual <= s.tail
    ensures forall t :: t in s.threads && s.threads[t].Granted? ==> s.head + s.threads[t].actual <= s.tail
  {
    WinsBelowTail(s);
    forall t | t in s.threads && (s.threads[t].Claiming? || s.threads[t].Granted?)
      ensures s.head + s.threads[t].actual <= s.tail
    {
      assert OwnsInterval(s, t);
      CountAtLeast(s.tickets, s.threads[t].mine, s.threads[t].mine + s.threads[t].actual, Won);
    }
  }

  /** An index, once won, stays with its winner for the rest of the run: it is won exactly once. */
  lemma {:induction false} ClaimsAreForever(run: seq<State>, threads: set<Tid>, i: nat, j: nat)
    requires IsRun(run, threads) && i <= j < |run|
    ensures run[i].claims <= run[j].claims
    ensures run[i].tail <= run[j].tail
  {
    if i < j {
      ClaimsAreForever(run, threads, i, j - 1);
      assert Next(run[j - 1], run[j - 1 + 1]);
    }
  }

  /** When no thread is inside a dequeue, head is exactly optimistic minus overcommit. */
  lemma IdleBalance(s: State)
    requires Inv(s)
    requires forall t :: t in s.threads ==> s.threads[t].Idle?
    ensures s.head == s.optimistic - s.overcommit
  {
    forall q | 0 <= q < |s.tickets| ensures !Unsettled(s.tickets[q].fate) {
      var k := s.tickets[q];
      assert k.owner in s.threads ==> !Settles(s.threads[k.owner], q);
    }
    AllSettled(s.tickets);
  }

  lemma {:induction false} AllSettled(ts: seq<Ticket>)
    requires forall q :: 0 <= q < |ts| ==> !Unsettled(ts[q].fate)
    ensures Count(ts, Claimed) + Count(ts, Counted) == |ts|
  {
    if ts != [] { AllSettled(ts[..|ts| - 1]); }
  }

  /** The three loads of thread t, run without interference, and then the fourth step. */
  function Attempt(s: State, t: Tid, max: nat): State
    requires t in s.threads && s.threads[t].Idle? && max >= 1
  {
    Advanced(Advanced(Apply(s, Begin(t, max)), t), t)
  }

  /** From a state with nobody else inside, a dequeue attempt gives up exactly when nothing is
      left, and otherwise asks for as much as there is, up to its maximum. */
  lemma LoneDequeueFailsOnlyWhenEmpty(s: State, t: Tid, max: nat)
    requires Inv(s) && t in s.threads && max >= 1
    requires forall u :: u in s.threads ==> s.threads[u].Idle?
    ensures Attempt(s, t, max).threads[t].Idle? <==> s.head == s.tail
    ensures s.head < s.tail ==>
              Attempt(s, t, max).threads[t] == Asking(s.overcommit, Min(s.tail - s.head, max))
  {
    IdleBalance(s);
    ClaimFits(s);
  }

  /** How many steps an attempt has left at most. */
  function Order(p: Pc): nat {
    match p
    case Idle => 0
    case Claiming(_, _) => 1
    case Refused(_, _) => 1
    case Granted(_, _, _) => 2
    case Ticketed(_, _, _) => 3
    case Asking(_, _) => 4
    case OverRead(_, _, _) => 5
    case TailRead(_, _) => 6
  }

  lemma Descends(s: State, t: Tid)
    requires t in s.threads && !s.threads[t].Idle?
    ensures t in Advanced(s, t).threads && Order(Advanced(s, t).threads[t]) < Order(s.threads[t])
  {
    hide Resolve;
  }

  /** The attempt of t run to its end, nobody else moving. */
  function Finished(s: State, t: Tid): State
    requires t in s.threads
    decreases Order(s.threads[t])
  {
    if s.threads[t].Idle? then s
    else
      Descends(s, t);
      Finished(Advanced(s, t), t)
  }

  /** The second half of an undisturbed attempt: as many tickets as asked for, all of them granted,
      turned into claims. */
  lemma AskingGetsAll(s: State, t: Tid, desired: nat)
    requires t in s.threads && s.threads[t] == Asking(s.overcommit, desired)
    requires s.head == s.optimistic - s.overcommit && 1 <= desired <= s.tail - s.head
    ensures var s' := Finished(s, t);
            && s'.head == s.head + desired && s'.claims == s.claims + seq(desired, _ => t) && s'.tail == s.tail
            && s'.overcommit == s.overcommit && s'.threads == s.threads[t := Idle]
  {
    hide Resolve;
    var s1 := Advanced(s, t);
    var s2 := Advanced(s1, t);
    assert s1.threads[t] == Ticketed(s.overcommit, desired, s.optimistic);
    assert s2.threads[t] == Claiming(s.optimistic, desired);
    assert Finished(s2, t) == Finished(Advanced(s2, t), t) == Advanced(s2, t);
  }

  /** An undisturbed dequeue wins exactly as many of the remaining elements as it may, the first ones,
      and puts all counters in balance again. */
  lemma LoneDequeueTakesAll(s: State, t: Tid, max: nat)
    requires Inv(s) && t in s.threads && max >= 1
    requires forall u :: u in s.threads ==> s.threads[u].Idle?
    ensures s.head <= s.tail
    ensures var s', n := Finished(Apply(s, Begin(t, max)), t), Min(s.tail - s.head, max);
            && s'.head == s.head + n && s'.claims == s.claims + seq(n, _ => t) && s'.tail == s.tail
            && s'.overcommit == s.overcommit && s'.threads == s.threads
  {
    ClaimFits(s);
    IdleBalance(s);
    LoneDequeueFailsOnlyWhenEmpty(s, t, max);
    hide Inv;
    var s0 := Apply(s, Begin(t, max));
    var s1 := Advanced(s0, t);
    var s2 := Advanced(s1, t);
    assert s2 == Attempt(s, t, max);
    assert Finished(s0, t) == Finished(s1, t) == Finished(s2, t);
    assert s2 == s.(threads := s.threads[t := s2.threads[t]]);
    assert s.threads[t := Idle] == s.threads;
    if s.head < s.tail { AskingGetsAll(s2, t, Min(s.tail - s.head, max)); }
  }

  /** Also among others: by the second look at the tail a ticket is granted exactly if, less the losses
      the thread knew of, it lies below the tail as it is then; only if none of its tickets does is the
      thread refused. */
  lemma SecondLookExactly(s: State, t: Tid)
    requires Inv(s) && t in s.threads && s.threads[t].Ticketed?
    ensures var s', over, mine, desired := Advanced(s, t), s.threads[t].over, s.threads[t].mine, s.threads[t].desired;
            && t in s'.threads && mine + desired <= |s'.tickets|
            && (forall q :: mine <= q < mine + desired ==>
                  s'.tickets[q].fate == if q - over < s.tail then Won else Lost)
            && (s'.threads[t].Refused? <==> s.tail <= mine - over)
  {
    assert OwnsInterval(s, t);
  }
}
