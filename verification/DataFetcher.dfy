/** The fetcher of one Interest: it expresses the Interest, retries on Nacks and timeouts a bounded
    number of times, and fulfils its task with the Data or an error. */
module DataFetcher {
  import opened Numbers

  const MAX_RETRIES_NACK: nat := 16
  const MAX_RETRIES_TIMEOUT: nat := 32
  const MAX_CONGESTION_BACKOFF: nat := 10_000
  const NO_ROUTE_BACKOFF: nat := 2_000
  const TIMEOUT_BACKOFF: nat := 500

  datatype NackReason = Duplicate | NoRoute | Congestion | OtherReason

  /** What the task is fulfilled with. */
  datatype Result = Success | Cancelled | Unreachable | TimedOut

  /** What the face and the scheduler call a fetcher with; `ok` is about the expression it leads to. */
  datatype Event =
    | Begin(ok: bool)
    | RetryDue(ok: bool)
    | DataArrives
    | NackArrives(reason: NackReason, ok: bool)
    | TimesOut
    | StopCalled

  function Pow2(n: nat): nat { if n == 0 then 1 else 2 * Pow2(n - 1) }

  /** `pending` and `scheduled` are what the face and the scheduler hold for this fetcher.  History:
      whether it has begun (or been stopped before), how often the Interest was expressed, what
      the task was fulfilled with, whether an expression failed, and what was notified. */
  class DataFetcher {
    var nNacks: nat
    var nCongestionRetries: nat
    var nTimeouts: nat
    var error: bool
    var stopped: bool
    var pending: bool
    var scheduled: bool
    var delay: nat
    var started: bool
    ghost var expressions: nat
    ghost var results: seq<Result>
    ghost var abandoned: bool
    ghost var successes: nat
    ghost var failures: nat

    /** At every moment exactly one thing holds: not begun, an Interest pending, a retry
        scheduled, the task fulfilled, or the last expression failed. */
    ghost predicate Valid()
      reads this
    {
      && One(!started) + One(pending) + One(scheduled) + One(results != []) + One(abandoned) == 1
      && |results| <= 1 && (results != [] <==> error || stopped) && !(error && stopped)
      && nNacks <= MAX_RETRIES_NACK && nTimeouts <= MAX_RETRIES_TIMEOUT && (!started ==> nNacks == nTimeouts == 0)
      && expressions + One(scheduled) <= One(started) + nNacks + nTimeouts
      && (results == [] ==> expressions + One(scheduled) == One(started) + nNacks + nTimeouts)
      && (pending ==> nCongestionRetries == 0)
      && successes == One(results == [Success]) && failures == One(results == [Unreachable] || results == [TimedOut])
    }

    constructor ()
      ensures Valid() && !started && results == [] && expressions == 0
    {
      nNacks, nCongestionRetries, nTimeouts, error, stopped := 0, 0, 0, false, false;
      pending, scheduled, delay := false, false, 0;
      started, expressions, results, abandoned, successes, failures := false, 0, [], false, 0, 0;
    }

    predicate IsFetching()
      reads this
    {
      !stopped && !error
    }

    /** Runs the packaged task, which would throw if it had run before. */
    method Fulfil(r: Result)
      requires results == []
      modifies this`results
      ensures results == [r]
    {
      results := [r];
    }

    /** `ok` says whether the face took the Interest; an exception is swallowed. */
    method ExpressInterest(ok: bool)
      requires !pending && !scheduled && results == [] && !abandoned
      modifies this`nCongestionRetries, this`pending, this`expressions, this`abandoned
      ensures nCongestionRetries == 0 && pending == ok && abandoned == !ok && expressions == old(expressions) + 1
    {
      nCongestionRetries := 0;
      expressions := expressions + 1;
      if ok { pending := true; } else { abandoned := true; }
    }

    method Fetch(ok: bool)
      requires Valid() && !started && IsFetching()
      modifies this
      ensures Valid() && started && expressions == 1 && pending == ok
    {
      started := true;
      ExpressInterest(ok);
    }

    /** The scheduler runs the retry. */
    method Fire(ok: bool)
      requires Valid() && scheduled
      modifies this
      ensures Valid() && !scheduled && pending == ok && expressions == old(expressions) + 1
      ensures nNacks == old(nNacks) && nTimeouts == old(nTimeouts)
    {
      scheduled := false;
      ExpressInterest(ok);
    }

    method Stop()
      requires Valid()
      modifies this
      ensures Valid() && !IsFetching() && !pending && !scheduled
      ensures results == (if old(IsFetching()) then [Cancelled] else old(results)) && expressions == old(expressions)
    {
      if IsFetching() {
        stopped := true;
        pending := false;
        scheduled := false;
        started, abandoned := true, false;
        Fulfil(Cancelled);
      }
    }

    method HandleData()
      requires Valid() && pending
      modifies this
      ensures Valid() && results == [Success] && successes == 1 && failures == 0 && expressions == old(expressions)
    {
      pending := false;
      if !IsFetching() { return; }
      stopped := true;
      Fulfil(Success);
      successes := successes + 1;
    }

    method Fail(r: Result)
      requires results == [] && (r.Unreachable? || r.TimedOut?)
      modifies this`error, this`results, this`failures
      ensures error && results == [r] && failures == old(failures) + 1
    {
      error := true;
      Fulfil(r);
      failures := failures + 1;
    }

    method Schedule(after: nat)
      modifies this`scheduled, this`delay
      ensures scheduled && delay == after
    {
      scheduled := true;
      delay := after;
    }

    /** `ok` is about the immediate retry after a duplicate.  The back-off on congestion never
        grows: the retry count it is computed from is reset by every expression, so it is always
        one millisecond. */
    method HandleNack(reason: NackReason, ok: bool)
      requires Valid() && pending
      modifies this
      ensures Valid() && nTimeouts == old(nTimeouts)
      ensures results == [Unreachable] <==> old(nNacks) >= 16 || reason.OtherReason?
      ensures results == [] || results == [Unreachable]
      ensures results == [] ==> nNacks == old(nNacks) + 1
      ensures results == [] && reason.Duplicate? ==> pending == ok && expressions == old(expressions) + 1
      ensures results == [] && !reason.Duplicate? ==> scheduled && expressions == old(expressions)
      ensures results == [] && reason.NoRoute? ==> delay == 2_000
      ensures results == [] && reason.Congestion? ==> delay == 1
    {
      pending := false;
      if nNacks >= MAX_RETRIES_NACK {
        Fail(Unreachable);
        return;
      }
      nNacks := nNacks + 1;
      match reason
      case Duplicate => ExpressInterest(ok);
      case NoRoute => Schedule(NO_ROUTE_BACKOFF);
      case Congestion =>
        var backOffTime := Pow2(nCongestionRetries);
        if backOffTime > MAX_CONGESTION_BACKOFF {
          backOffTime := MAX_CONGESTION_BACKOFF;
        } else {
          nCongestionRetries := nCongestionRetries + 1;
        }
        Schedule(backOffTime);
      case OtherReason => Fail(Unreachable);
    }

    method HandleTimeout()
      requires Valid() && pending
      modifies this
      ensures Valid() && nNacks == old(nNacks) && expressions == old(expressions)
      ensures results == [TimedOut] <==> old(nTimeouts) >= 32
      ensures results == [] ==> scheduled && delay == 500 && nTimeouts == old(nTimeouts) + 1
      ensures results == [] || results == [TimedOut]
    {
      pending := false;
      if nTimeouts >= MAX_RETRIES_TIMEOUT {
        Fail(TimedOut);
        return;
      }
      nTimeouts := nTimeouts + 1;
      Schedule(TIMEOUT_BACKOFF);
    }

    /** The face answers only what is pending and the scheduler runs only what is scheduled. */
    predicate CanHappen(e: Event)
      reads this
    {
      match e
      case Begin(_) => !started && IsFetching()
      case RetryDue(_) => scheduled
      case StopCalled => true
      case _ => pending
    }

    /** However Data, Nacks, timeouts, retries and stops follow each other, the Interest goes out at
        most 1 + 16 + 32 times, the task is fulfilled at most once and keeps its result, and it has been
        fulfilled unless something is still in flight, nothing has begun or an expression has failed;
        after a stop it has been in any case. */
    method Process(events: seq<Event>)
      requires Valid()
      modifies this
      ensures Valid()
      ensures expressions <= 1 + 16 + 32 && |results| <= 1
      ensures old(results) != [] ==> results == old(results) && expressions == old(expressions)
      ensures started && !abandoned && results == [] ==> pending != scheduled
      ensures results != [] || StopCalled in events ==> results != [] && !pending && !scheduled
    {
      for k := 0 to |events|
        invariant Valid()
        invariant old(results) != [] ==> results == old(results) && expressions == old(expressions)
        invariant StopCalled in events[..k] ==> results != []
      {
        if CanHappen(events[k]) {
          match events[k]
          case Begin(ok) => Fetch(ok);
          case RetryDue(ok) => Fire(ok);
          case DataArrives => HandleData();
          case NackArrives(reason, ok) => HandleNack(reason, ok);
          case TimesOut => HandleTimeout();
          case StopCalled => Stop();
        }
      }
    }
  }
}
