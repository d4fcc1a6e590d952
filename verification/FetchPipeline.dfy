/** The fixed window of fetchers behind the XRootD consumer.  `insert` holds a mutex from its check
    of the window to its return and counts its fetcher only after fetching has begun; completion
    callbacks run on another thread without the mutex, so a fetcher may complete before it is
    counted and the unsigned 64-bit count may wrap around for a moment.

    `unfinished`, `leaving`, `failing` and `skipped` are history: fetchers whose task is not
    fulfilled, fetchers whose task is fulfilled and whose callback has still to give the slot back,
    or to stop the pipeline, and slots never given back because the pipeline has stopped. */
module FetchPipeline {
  import opened ModArithmetic
  import opened Numbers

  type Tid = nat

  /** Who holds the mutex, and how far it is in `insert`. */
  datatype Holder =
    | Nobody
    | Checking(tid: Tid)
    | Admitted(tid: Tid)
    | Fetching(tid: Tid)

  datatype State = State(
    size: nat, windowSize: nat, stopped: bool, holder: Holder,
    unfinished: nat, leaving: nat, failing: nat, skipped: nat)

  function Init(size: nat): State { State(size, 0, false, Nobody, 0, 0, 0, 0) }

  datatype Action =
    | Insert(tid: Tid)
    | Advance
    | Succeed
    | GiveBack(sawStop: bool)
    | Fail
    | FailureCallback
    | Stop

  predicate Enabled(s: State, a: Action) {
    match a
    case Insert(_) => s.holder.Nobody?
    case Advance => !s.holder.Nobody?
    case Succeed => s.unfinished > 0
    case GiveBack(sawStop) => s.leaving > 0 && (sawStop ==> s.stopped)
    case Fail => s.unfinished > 0
    case FailureCallback => s.failing > 0
    case Stop => true
  }

  /** A thread that must wait releases the mutex and comes back with `Insert`. */
  function Advanced(s: State): State
    requires Enabled(s, Advance)
  {
    match s.holder
    case Checking(t) => s.(holder := if s.windowSize < s.size && !s.stopped then Admitted(t) else Nobody)
    case Admitted(t) => s.(unfinished := s.unfinished + 1, holder := Fetching(t))
    case Fetching(_) => s.(windowSize := (s.windowSize + 1) % WORD, holder := Nobody)
  }

  function Apply(s: State, a: Action): State
    requires Enabled(s, a)
  {
    match a
    case Insert(t) => s.(holder := Checking(t))
    case Advance => Advanced(s)
    case Succeed => s.(unfinished := s.unfinished - 1, leaving := s.leaving + 1)
    case GiveBack(sawStop) =>
      if sawStop then s.(leaving := s.leaving - 1, skipped := s.skipped + 1)
      else s.(leaving := s.leaving - 1, windowSize := (s.windowSize - 1) % WORD)
    case Fail => s.(unfinished := s.unfinished - 1, failing := s.failing + 1)
    case FailureCallback => s.(failing := s.failing - 1, skipped := s.skipped + 1, stopped := true)
    case Stop => s.(stopped := true)
  }

  /** Slots taken in truth. */
  function Taken(s: State): nat { s.unfinished + s.leaving + s.failing + s.skipped }

  /** The count lags behind by the fetcher that is being let go. */
  function Lag(s: State): nat { if s.holder.Fetching? then 1 else 0 }

  predicate Inv(s: State) {
    && s.size < WORD && Taken(s) <= s.size
    && s.windowSize == (Taken(s) - Lag(s)) % WORD
    && (s.holder.Admitted? ==> Taken(s) < s.size)
    && (s.skipped > 0 ==> s.stopped)
  }

  lemma InitInv(size: nat)
    requires size < WORD
    ensures Inv(Init(size))
  {
  }

  /** Counting a fetcher or giving its slot back moves the wrapped count along with the true one. */
  lemma WrappedStep(n: int, d: int)
    ensures (n % WORD + d) % WORD == (n + d) % WORD
  {
    ModAddLeft(n, d, WORD);
  }

  lemma StepKeepsInv(s: State, a: Action)
    requires Inv(s) && Enabled(s, a)
    ensures Inv(Apply(s, a))
  {
    if a.Advance? {
      AdvanceKeepsInv(s);
    } else {
      WrappedStep(Taken(s) - Lag(s), -1);
    }
  }

  lemma AdvanceKeepsInv(s: State)
    requires Inv(s) && !s.holder.Nobody?
    ensures Inv(Advanced(s))
  {
    WrappedStep(Taken(s) - Lag(s), 1);
    if s.holder.Checking? { WrappedSmall(Taken(s)); }
  }

  lemma WrappedSmall(n: nat)
    requires n < WORD
    ensures n % WORD == n
  {
  }

  ghost predicate Next(s: State, s': State) {
    exists a: Action :: Enabled(s, a) && s' == Apply(s, a)
  }

  ghost predicate IsRun(run: seq<State>, size: nat) {
    && |run| > 0 && run[0] == Init(size) && size < WORD
    && forall i :: 0 <= i < |run| - 1 ==> Next(run[i], run[i + 1])
  }

  lemma {:induction false} RunInv(run: seq<State>, size: nat, i: nat)
    requires IsRun(run, size) && i < |run|
    ensures Inv(run[i]) && run[i].size == size
  {
    hide Inv, Enabled, Apply;
    if i == 0 {
      InitInv(size);
    } else {
      RunInv(run, size, i - 1);
      assert Next(run[i - 1], run[i - 1 + 1]);
      var a: Action :| Enabled(run[i - 1], a) && run[i] == Apply(run[i - 1], a);
      StepKeepsInv(run[i - 1], a);
      SameSize(run[i - 1], a);
    }
  }

  lemma SameSize(s: State, a: Action)
    requires Enabled(s, a)
    ensures Apply(s, a).size == s.size
  {
  }

  /** The window is never overrun: at every moment at most `size` Interests are unfinished, although
      a fetcher is counted only after it has been let go. */
  lemma WindowNeverOverrun(run: seq<State>, size: nat, i: nat)
    requires IsRun(run, size) && i < |run|
    ensures run[i].unfinished <= size
  {
    RunInv(run, size, i);
  }

  /** The count wraps around exactly while the only fetcher has completed, its slot has been given
      back and its inserter has yet to count it; every check sees the true number. */
  lemma CountIsExact(run: seq<State>, size: nat, i: nat)
    requires IsRun(run, size) && i < |run| && size < WORD - 1
    ensures run[i].windowSize == WORD - 1 <==> Taken(run[i]) == 0 && run[i].holder.Fetching?
    ensures !run[i].holder.Fetching? ==> run[i].windowSize == Taken(run[i])
  {
    RunInv(run, size, i);
  }

  /** The four steps of an `insert` by t, as far as it gets at once. */
  function Inserted(s: State, t: Tid): State
    requires s.holder.Nobody?
  {
    var s1 := Advanced(Apply(s, Insert(t)));
    if s1.holder.Nobody? then s1 else Advanced(Advanced(s1))
  }

  /** An insert lets its fetcher go exactly if fewer slots are taken than there are and nobody has
      stopped the pipeline, and then the count is the number of slots taken with it; otherwise it
      changes nothing and must wait. */
  lemma InsertOutcome(s: State, t: Tid)
    requires Inv(s) && s.holder.Nobody?
    ensures var s' := Inserted(s, t);
            if Taken(s) < s.size && !s.stopped
            then s' == s.(unfinished := s.unfinished + 1, windowSize := Taken(s) + 1)
            else s' == s
  {
    WrappedSmall(Taken(s));
    if Taken(s) < s.size { WrappedSmall(Taken(s) + 1); }
  }

  /** A fetcher that completes frees its slot for the next. */
  lemma CompletionOutcome(s: State)
    requires Inv(s) && s.holder.Nobody? && s.unfinished > 0
    ensures Apply(Apply(s, Succeed), GiveBack(false)) == s.(unfinished := s.unfinished - 1, windowSize := Taken(s) - 1)
  {
    WrappedSmall(Taken(s));
    WrappedSmall(Taken(s) - 1);
  }

  /** A fetcher that fails keeps its slot and stops the pipeline for all. */
  lemma FailureOutcome(s: State, t: Tid)
    requires Inv(s) && s.holder.Nobody? && s.unfinished > 0
    ensures var s' := Apply(Apply(s, Fail), FailureCallback);
            s'.stopped && Taken(s') == Taken(s) && s'.windowSize == s.windowSize && Inserted(s', t) == s'
  {
  }
}
