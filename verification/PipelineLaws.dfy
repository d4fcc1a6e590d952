/** What holds in every run of the Interest pipeline, however applications, worker and network
    interleave. */
module PipelineLaws {
  import opened Options
  import opened MapSum
  import opened Numbers
  import opened WindowControl
  import opened Pipeline
  import opened PipelineInvariant

  ghost predicate Next(s: State, s': State) {
    exists e: Event :: Enabled(s, e) && s' == Apply(s, e)
  }

  ghost predicate IsRun(run: seq<State>, control: Control, initial: nat, clock: int) {
    && |run| > 0 && run[0] == Init(control, clock) && ControlFits(control, initial)
    && forall i :: 0 <= i < |run| - 1 ==> Next(run[i], run[i + 1])
  }

  lemma {:induction false} RunInv(run: seq<State>, control: Control, initial: nat, clock: int, i: nat)
    requires IsRun(run, control, initial, clock) && i < |run|
    ensures Inv(run[i], initial)
  {
    hide Inv, Enabled, Apply;
    if i == 0 {
      InitInv(control, initial, clock);
    } else {
      RunInv(run, control, initial, clock, i - 1);
      assert Next(run[i - 1], run[i - 1 + 1]);
      var e: Event :| Enabled(run[i - 1], e) && run[i] == Apply(run[i - 1], e);
      StepKeepsInv(run[i - 1], e, initial);
    }
  }

  // ---------------------------------------------------------------------------
  // Exactly-once answers
  // ---------------------------------------------------------------------------

  ghost predicate InQueue(s: State, id: RequestId) { exists p :: p in s.requests && p.id == id }

  ghost predicate InBatch(s: State, id: RequestId) { exists k :: 0 <= k < |s.batch| && s.batch[k].id == id }

  ghost predicate InPit(s: State, id: RequestId) { exists token :: token in s.pit && s.pit[token].id == id }

  ghost predicate IsAnswered(s: State, id: RequestId) {
    exists k :: 0 <= k < |s.past.answers| && s.past.answers[k].id == id
  }

  /** An accepted request is in exactly one of the request queue, the unsent batch, the PIT and
      the answers, and a request that was never accepted is in none. */
  lemma ExactlyOnePlace(s: State, id: RequestId)
    requires Core(s)
    ensures One(InQueue(s, id)) + One(InBatch(s, id)) + One(InPit(s, id)) + One(IsAnswered(s, id))
            == One(id < s.past.accepted)
  {
    hide TokensDiffer;
    if id in s.past.tracks {
      assert TrackFits(s, id);
      match s.past.tracks[id].place {
        case Queued(p) => assert InQueue(s, id);
        case Batched(p) => assert InBatch(s, id);
        case Pending(p) => assert InPit(s, id);
        case Answered(at) => assert IsAnswered(s, id);
      }
    }
    if InQueue(s, id) { var p :| p in s.requests && p.id == id; assert IsAt(s, id, Queued(p)); }
    if InPit(s, id) { var token :| token in s.pit && s.pit[token].id == id; assert IsAt(s, id, Pending(s.pit[token])); }
    if InBatch(s, id) {
      var k :| 0 <= k < |s.batch| && s.batch[k].id == id;
      assert IsAt(s, id, Batched(s.batch[k]));
    }
    if IsAnswered(s, id) {
      var k :| 0 <= k < |s.past.answers| && s.past.answers[k].id == id;
      assert IsAt(s, id, Answered(k));
    }
  }

  /** It is there once: no two entries anywhere are for the same request. */
  lemma NoDuplicates(s: State)
    requires Core(s)
    ensures forall p, q :: p in s.requests && q in s.requests && p.id == q.id ==> p == q && s.requests[p] == 1
    ensures forall i, k :: 0 <= i < k < |s.batch| ==> s.batch[i].id != s.batch[k].id
    ensures forall t, u :: t in s.pit && u in s.pit && s.pit[t].id == s.pit[u].id ==> t == u
    ensures forall i, k :: 0 <= i < k < |s.past.answers| ==> s.past.answers[i].id != s.past.answers[k].id
  {
    hide TokensDiffer, TracksFit;
    forall i, k | 0 <= i < k < |s.past.answers| ensures s.past.answers[i].id != s.past.answers[k].id {
      assert IsAt(s, s.past.answers[i].id, Answered(i)) && IsAt(s, s.past.answers[k].id, Answered(k));
    }
    forall t, u | t in s.pit && u in s.pit && s.pit[t].id == s.pit[u].id ensures t == u {
      assert IsAt(s, s.pit[t].id, Pending(s.pit[t])) && IsAt(s, s.pit[u].id, Pending(s.pit[u]));
    }
    forall p, q | p in s.requests && q in s.requests && p.id == q.id ensures p == q && s.requests[p] == 1 {
      assert IsAt(s, p.id, Queued(p)) && IsAt(s, q.id, Queued(q));
    }
  }

  /** The conservation law over runs, and every answer is for the consumer that asked. */
  lemma AnsweredExactlyOnce(run: seq<State>, control: Control, initial: nat, clock: int, i: nat, id: RequestId)
    requires IsRun(run, control, initial, clock) && i < |run| && id < run[i].past.accepted
    ensures One(InQueue(run[i], id)) + One(InBatch(run[i], id)) + One(InPit(run[i], id)) + One(IsAnswered(run[i], id)) == 1
    ensures id in run[i].past.tracks
    ensures forall k :: 0 <= k < |run[i].past.answers| && run[i].past.answers[k].id == id ==>
              run[i].past.answers[k].consumer == run[i].past.tracks[id].owner
              && forall l :: 0 <= l < |run[i].past.answers| && run[i].past.answers[l].id == id ==> l == k
  {
    var s := run[i];
    RunInv(run, control, initial, clock, i);
    ExactlyOnePlace(s, id);
    hide TokensDiffer, Ordered, Heard, Balanced, FlightFits, HalvingsFit, ControlFits;
    assert TrackFits(s, id);
    forall k | 0 <= k < |s.past.answers| && s.past.answers[k].id == id ensures IsAt(s, id, Answered(k)) {
      assert IsAt(s, s.past.answers[k].id, Answered(k));
    }
  }

  /** What never changes again: who asked for a request, the answers given, the tokens issued and
      the tokens superseded. */
  ghost predicate Later(s: State, s': State) {
    && s.past.accepted <= s'.past.accepted && s.past.answers <= s'.past.answers
    && s.past.superseded <= s'.past.superseded && s.issued <= s'.issued && (s.closed ==> s'.closed)
    && (forall id :: id in s.past.tracks ==> SameOwner(s, s', id))
  }

  predicate SameOwner(s: State, s': State, id: RequestId)
    requires id in s.past.tracks
  {
    && id in s'.past.tracks && s'.past.tracks[id].owner == s.past.tracks[id].owner
    && s'.past.tracks[id].lifetime == s.past.tracks[id].lifetime
  }

  lemma LaterComposes(s: State, s': State, s'': State)
    requires Later(s, s') && Later(s', s'')
    ensures Later(s, s'')
  {
    forall id | id in s.past.tracks ensures SameOwner(s, s'', id) {
      assert SameOwner(s, s', id) && SameOwner(s', s'', id);
    }
  }

  lemma {:induction false} AdmitAllLater(s: State, c: Consumer, lifetimes: seq<nat>, tokens: seq<Token>)
    requires |lifetimes| == |tokens| && TracksFit(s)
    ensures var s' := AdmittedAll(s, c, lifetimes, tokens);
            && Later(s, s') && (forall id: RequestId :: id in s'.past.tracks <==> id < s'.past.accepted)
            && forall id :: id in s.past.tracks ==> s'.past.tracks[id] == s.past.tracks[id]
    decreases |tokens|
  {
    hide TrackFits;
    if tokens != [] {
      var n := |tokens| - 1;
      AdmitAllLater(s, c, lifetimes[..n], tokens[..n]);
    }
  }

  lemma {:induction false} TakeAllLater(s: State, picks: seq<PendingInterest>)
    requires Known(s, picks)
    ensures Later(s, TakenAll(s, picks))
    decreases |picks|
  {
    if picks != [] {
      var n := |picks| - 1;
      TakeAllLater(s, picks[..n]);
      assert Later(TakenAll(s, picks[..n]), TakenAll(s, picks));
      LaterComposes(s, TakenAll(s, picks[..n]), TakenAll(s, picks));
    }
  }

  lemma {:induction false} ExpressAllLater(s: State, times: seq<int>)
    requires |times| <= |s.batch| && Known(s, s.batch)
    ensures Later(s, ExpressedAll(s, times))
    decreases |times|
  {
    if times != [] {
      var n := |times| - 1;
      ExpressAllLater(s, times[..n]);
      assert Later(ExpressedAll(s, times[..n]), ExpressedAll(s, times));
      LaterComposes(s, ExpressedAll(s, times[..n]), ExpressedAll(s, times));
    }
  }

  lemma AnswerLater(s: State, token: Token, data: Option<nat>)
    requires token in s.pit && s.pit[token].id in s.past.tracks
    ensures Later(s, AnsweredWith(s, token, data))
  {
  }

  lemma RefreshLater(s: State, token: Token, newToken: Token, timeoutReason: bool)
    requires token in s.pit && s.pit[token].id in s.past.tracks
    ensures Later(s, Refreshed(s, token, newToken, timeoutReason))
  {
  }

  /** Counters, clock, window and PIQ do not matter. */
  lemma LaterAside(s: State, s': State, s'': State)
    requires Later(s, s') && s''.past.accepted == s'.past.accepted && s''.past.answers == s'.past.answers
    requires s''.past.superseded == s'.past.superseded && s''.issued == s'.issued && s''.closed == s'.closed
    requires s''.past.tracks == s'.past.tracks
    ensures Later(s, s'')
  {
    LaterItself(s');
    forall id | id in s'.past.tracks ensures SameOwner(s', s'', id) {
    }
    LaterComposes(s, s', s'');
  }

  lemma DataLater(s: State, token: Token, data: nat, marked: bool, now: int)
    requires Traced(s, token)
    ensures Later(s, OnData(s, token, data, marked, now))
  {
    hide Later, AnsweredWith, Decreased, Increased;
    LaterItself(s);
    if token !in s.pit {
      LaterAside(s, s, OnData(s, token, data, marked, now));
    } else {
      var s1 := s.(clock := now, counters := s.counters.(rx := s.counters.rx + 1));
      var s2 := if marked then Halved(s1, now) else s1;
      LaterAside(s, s, s2);
      AnswerLater(s2, token, Some(data));
      LaterComposes(s, s2, AnsweredWith(s2, token, Some(data)));
      LaterAside(s, AnsweredWith(s2, token, Some(data)), OnData(s, token, data, marked, now));
    }
  }

  lemma NackLater(s: State, token: Token, reason: NackReason, newToken: Token)
    requires Traced(s, token)
    ensures Later(s, OnNack(s, token, reason, newToken))
  {
    hide Later, AnsweredWith, Refreshed;
    LaterItself(s);
    var s1 := s.(counters := s.counters.(nack := s.counters.nack + 1));
    LaterAside(s, s, s1);
    if token !in s.pit || reason.NoReason? {
      LaterAside(s, s, OnNack(s, token, reason, newToken));
    } else if reason.Duplicate? {
      var s2 := Refreshed(s1, token, newToken, false);
      RefreshLater(s1, token, newToken, false);
      RefreshCounts(s1, token, newToken, false);
      LaterComposes(s, s1, s2);
      if token in s2.pit {
        AnswerLater(s2, token, None);
        LaterComposes(s, s2, AnsweredWith(s2, token, None));
      }
    } else {
      AnswerLater(s1, token, None);
      LaterComposes(s, s1, AnsweredWith(s1, token, None));
    }
  }

  lemma TurnLater(s: State, now: int, later: int, newToken: Token)
    requires s.piq != [] && Traced(s, s.piq[0])
    ensures Later(s, TimeoutTurn(s, now, later, newToken))
  {
    hide Later, AnsweredWith, Refreshed, Decreased;
    var front := s.piq[0];
    var s' := TimeoutTurn(s, now, later, newToken);
    LaterItself(s);
    if front !in s.pit || !s.pit[front].IsExpired(now) {
      LaterAside(s, s, s');
    } else {
      var s1 := s.(clock := now, counters := s.counters.(timeout := s.counters.timeout + 1));
      if s.pit[front].HasReachedMaximumNumOfRetries() {
        LaterAside(s, s, s1);
        AnswerLater(s1, front, None);
        LaterComposes(s, s1, s');
      } else {
        var s2 := Halved(s1.(clock := later), later);
        LaterAside(s, s, s2);
        RefreshLater(s2, front, newToken, true);
        RefreshCounts(s2, front, newToken, true);
        var s3 := Refreshed(s2, front, newToken, true);
        LaterComposes(s, s2, s3);
        if front in s3.pit {
          AnswerLater(s3, front, None);
          LaterComposes(s, s3, AnsweredWith(s3, front, None));
          LaterAside(s, AnsweredWith(s3, front, None), s');
        } else {
          LaterAside(s, s3, s');
        }
      }
    }
  }

  lemma BatchOrSendLater(s: State, e: Event)
    requires Enabled(s, e) && (e.NextBatch? || e.Send?)
    ensures Later(s, Apply(s, e))
  {
    hide Fresh, Increasing;
    LaterItself(s);
    match e
    case NextBatch(picks) =>
      var s1 := s.(past := s.past.(limit := s.control.size));
      LaterAside(s, s, s1);
      TakeAllLater(s1, picks);
      LaterComposes(s, s1, TakenAll(s1, picks));
    case Send(sent, times) =>
      if sent >= 0 {
        var s1 := s.(counters := s.counters.(tx := s.counters.tx + sent));
        LaterAside(s, s, s1);
        ExpressAllLater(s1, times);
        LaterComposes(s, s1, ExpressedAll(s1, times));
      }
  }

  lemma StepLater(s: State, e: Event)
    requires TracksFit(s) && Enabled(s, e)
    ensures Later(s, Apply(s, e))
  {
    hide TrackFits, OnData, OnNack, TimeoutTurn, Fresh;
    match e
    case PushBulk(c, lifetimes, tokens) =>
      AdmitAllLater(s, c, lifetimes, tokens);
    case NextBatch(_) => BatchOrSendLater(s, e);
    case Send(_, _) => BatchOrSendLater(s, e);
    case DataArrives(token, data, marked, now) => DataLater(s, token, data, marked, now);
    case NackArrives(token, reason, newToken) => NackLater(s, token, reason, newToken);
    case CheckTimeout(now, later, newToken) => TurnLater(s, now, later, newToken);
    case _ =>
  }

  lemma {:induction false} RunLater(run: seq<State>, control: Control, initial: nat, clock: int, i: nat, j: nat)
    requires IsRun(run, control, initial, clock) && i <= j < |run|
    ensures Later(run[i], run[j])
  {
    hide Enabled, Apply, Later;
    if i < j {
      RunLater(run, control, initial, clock, i, j - 1);
      RunInv(run, control, initial, clock, j - 1);
      assert Next(run[j - 1], run[j - 1 + 1]);
      var e: Event :| Enabled(run[j - 1], e) && run[j] == Apply(run[j - 1], e);
      StepLater(run[j - 1], e);
      LaterComposes(run[i], run[j - 1], run[j]);
    } else {
      LaterItself(run[i]);
    }
  }

  lemma LaterItself(s: State)
    ensures Later(s, s)
  {
  }

  /** Data and Nacks under a token that a refresh has superseded, now or at any earlier time, are
      never matched: they only count as unexpected. */
  lemma SupersededNeverMatched(run: seq<State>, control: Control, initial: nat, clock: int, i: nat, j: nat,
                               token: Token, data: nat, marked: bool, now: int)
    requires IsRun(run, control, initial, clock) && i <= j < |run| && token in run[i].past.superseded
    ensures token !in run[j].pit
    ensures var s := run[j];
            OnData(s, token, data, marked, now) ==
              s.(clock := now, counters := s.counters.(rx := s.counters.rx + 1, rxUnexpected := s.counters.rxUnexpected + 1))
  {
    hide Core, IsRun;
    RunLater(run, control, initial, clock, i, j);
    RunInv(run, control, initial, clock, j);
    if token in run[j].pit { PendingFacts(run[j], token); }
  }

  // ---------------------------------------------------------------------------
  // Retries, window and counters
  // ---------------------------------------------------------------------------

  /** A request waiting in the PIT has been sent exactly once, once more per retry and once more
      per duplicate Nack, and it has retried at most eight times. */
  lemma RetriesBounded(run: seq<State>, control: Control, initial: nat, clock: int, i: nat, token: Token)
    requires IsRun(run, control, initial, clock) && i < |run| && token in run[i].pit
    ensures var p := run[i].pit[token];
            && p.token == token && p.retries <= MAX_RETRIES && p.id in run[i].past.tracks
            && p.consumer == run[i].past.tracks[p.id].owner && p.lifetime == run[i].past.tracks[p.id].lifetime
            && run[i].past.tracks[p.id].sends == 1 + p.retries + run[i].past.tracks[p.id].duplicates
  {
    RunInv(run, control, initial, clock, i);
    PendingFacts(run[i], token);
  }

  /** A request given up at a timeout has been sent nine times, not counting duplicate Nacks. */
  lemma GivenUpAfterNine(s: State, initial: nat, now: int, later: int, newToken: Token)
    requires Inv(s, initial) && Enabled(s, CheckTimeout(now, later, newToken))
    requires var s' := TimeoutTurn(s, now, later, newToken); |s'.past.answers| > |s.past.answers|
    ensures var p := s.pit[s.piq[0]];
            && s.piq[0] in s.pit && p.retries == MAX_RETRIES && p.IsExpired(now)
            && s.past.tracks[p.id].sends == 9 + s.past.tracks[p.id].duplicates
            && TimeoutTurn(s, now, later, newToken).past.answers == s.past.answers + [Answer(p.id, p.consumer, None)]
  {
    hide Ordered, Heard, Core, Refreshed;
    if s.piq[0] in s.pit {
      PendingFacts(s, s.piq[0]);
      RefreshCounts(Halved(s.(clock := later, counters := s.counters.(timeout := s.counters.timeout + 1)), later),
                    s.piq[0], newToken, true);
    }
  }

  /** In flight and about to fly never exceed the window: the fixed one at all times, the adaptive
      one as it was when the worker last fetched a batch. */
  lemma InFlightBound(run: seq<State>, control: Control, initial: nat, clock: int, i: nat)
    requires IsRun(run, control, initial, clock) && i < |run|
    ensures |run[i].pit| + |run[i].batch| <= run[i].past.limit
    ensures run[i].control.Fixed? ==> |run[i].pit| + |run[i].batch| <= initial
  {
    RunInv(run, control, initial, clock, i);
  }

  lemma WindowBounds(run: seq<State>, control: Control, initial: nat, clock: int, i: nat)
    requires IsRun(run, control, initial, clock) && i < |run| && run[i].control.Aimd?
    ensures MIN_WINDOW <= run[i].control.size <= Max(MAX_WINDOW, initial)
    ensures run[i].control.counter < run[i].control.size
    ensures Spaced(run[i].past.halvings)
  {
    RunInv(run, control, initial, clock, i);
  }

  /** How many answers have carried Data. */
  function DataAnswers(log: seq<Answer>): nat {
    if log == [] then 0 else DataAnswers(log[..|log| - 1]) + if log[|log| - 1].data.Some? then 1 else 0
  }

  /** The event is neither marked Data nor a retry at a timeout. */
  predicate LossFree(s: State, e: Event) {
    match e
    case DataArrives(_, _, marked, _) => !marked
    case CheckTimeout(now, _, _) =>
      s.piq == [] || s.piq[0] !in s.pit || !s.pit[s.piq[0]].IsExpired(now)
      || s.pit[s.piq[0]].HasReachedMaximumNumOfRetries()
    case _ => true
  }

  lemma OneMoreAnswer(log: seq<Answer>, a: Answer)
    ensures DataAnswers(log + [a]) == DataAnswers(log) + if a.data.Some? then 1 else 0
  {
    assert (log + [a])[..|log|] == log;
  }

  /** Taking and sending leave window and answers alone. */
  lemma WorkerLeavesWindow(s: State, e: Event, initial: nat)
    requires Inv(s, initial) && Enabled(s, e) && (e.NextBatch? || e.Send? || e.PushBulk?)
    ensures Apply(s, e).control == s.control && Apply(s, e).past.answers == s.past.answers
  {
    hide Good, Fresh, Increasing, ControlFits, HalvingsFit;
    match e
    case PushBulk(c, lifetimes, tokens) =>
      if !s.closed && c in s.responses {
        AdmittedAnswers(s, c, lifetimes, tokens);
      }
    case NextBatch(picks) =>
      var s1 := s.(past := s.past.(limit := s.control.size));
      TakenAnswers(s1, picks);
    case Send(sent, times) =>
      if sent >= 0 {
        ExpressedAnswers(s.(counters := s.counters.(tx := s.counters.tx + sent)), times);
      }
  }

  lemma {:induction false} AdmittedAnswers(s: State, c: Consumer, lifetimes: seq<nat>, tokens: seq<Token>)
    requires |lifetimes| == |tokens|
    ensures var s' := AdmittedAll(s, c, lifetimes, tokens); s'.control == s.control && s'.past.answers == s.past.answers
    decreases |tokens|
  {
    if tokens != [] { AdmittedAnswers(s, c, lifetimes[..|tokens| - 1], tokens[..|tokens| - 1]); }
  }

  lemma {:induction false} TakenAnswers(s: State, picks: seq<PendingInterest>)
    requires Known(s, picks)
    ensures var s' := TakenAll(s, picks); s'.control == s.control && s'.past.answers == s.past.answers
    decreases |picks|
  {
    if picks != [] { TakenAnswers(s, picks[..|picks| - 1]); }
  }

  lemma {:induction false} ExpressedAnswers(s: State, times: seq<int>)
    requires |times| <= |s.batch| && Known(s, s.batch)
    ensures var s' := ExpressedAll(s, times); s'.control == s.control && s'.past.answers == s.past.answers
    decreases |times|
  {
    if times != [] { ExpressedAnswers(s, times[..|times| - 1]); }
  }

  /** Loss: a marked Data answer and a retry at a timeout each try to halve the window, at most once
      per round trip; the answer then still counts as an increase. */
  lemma LossStep(s: State, e: Event, initial: nat)
    requires Inv(s, initial) && Enabled(s, e) && !s.closed
    ensures e.DataArrives? && e.marked && e.token in s.pit && s.pit[e.token].consumer in s.responses ==>
              Apply(s, e).control == Increased(Decreased(s.control, e.now))
    ensures e.CheckTimeout? && s.piq[0] in s.pit && TurnContinues(s, e.now) ==>
              Apply(s, e).control == Decreased(s.control, e.later)
  {
    hide Good, Fresh, Increased, Decreased, ControlFits, HalvingsFit, Balanced, FlightFits;
  }

  /** Without loss the window moves exactly by one increase per Data answer. */
  lemma LossFreeStep(s: State, e: Event, initial: nat)
    requires Inv(s, initial) && Enabled(s, e) && LossFree(s, e)
    ensures var s' := Apply(s, e);
            var gained := DataAnswers(s'.past.answers) - DataAnswers(s.past.answers);
            0 <= gained <= 1 && s'.control == if gained == 1 then Increased(s.control) else s.control
  {
    hide Good, Fresh, Increased, Refreshed, DataAnswers, ControlFits, HalvingsFit, Balanced, FlightFits;
    match e
    case DataArrives(token, data, _, now) =>
      if Accepts(s, if token in s.pit then s.pit[token].consumer else 0) && token in s.pit {
        OneMoreAnswer(s.past.answers, Answer(s.pit[token].id, s.pit[token].consumer, Some(data)));
      }
    case NackArrives(token, reason, newToken) =>
      if token in s.pit { FailedAnswers(s, token, newToken); }
    case CheckTimeout(now, later, newToken) =>
      if s.piq[0] in s.pit {
        OneMoreAnswer(s.past.answers, Answer(s.pit[s.piq[0]].id, s.pit[s.piq[0]].consumer, None));
      }
    case NextBatch(_) => WorkerLeavesWindow(s, e, initial);
    case Send(_, _) => WorkerLeavesWindow(s, e, initial);
    case PushBulk(_, _, _) => WorkerLeavesWindow(s, e, initial);
    case _ =>
  }

  lemma FailedAnswers(s: State, token: Token, newToken: Token)
    requires token in s.pit && s.pit[token].id in s.past.tracks
    ensures var s1 := s.(counters := s.counters.(nack := s.counters.nack + 1));
            var s2 := RefreshedOrFailed(s1, token, newToken, false);
            && s2.control == s.control && DataAnswers(s2.past.answers) == DataAnswers(s.past.answers)
            && DataAnswers(AnsweredWith(s1, token, None).past.answers) == DataAnswers(s.past.answers)
  {
    hide DataAnswers;
    OneMoreAnswer(s.past.answers, Answer(s.pit[token].id, s.pit[token].consumer, None));
  }

  ghost predicate LossFreeNext(s: State, s': State) {
    exists e: Event :: Enabled(s, e) && LossFree(s, e) && s' == Apply(s, e)
  }

  lemma {:induction false} IncreaseOnceMore(c: Control, k: nat)
    ensures Increased(IncreasedTimes(c, k)) == IncreasedTimes(c, k + 1)
  {
  }

  /** Over a stretch of any run without marks and timeout retries, whatever else happens, the window
      is that after as many increases as Data answers were given; `AvoidanceGrowth` and
      `SlowStartGrowth` then give it in closed form. */
  lemma {:induction false} LossFreeGrowth(run: seq<State>, initial: nat)
    requires |run| > 0 && Inv(run[0], initial)
    requires forall i :: 0 <= i < |run| - 1 ==> LossFreeNext(run[i], run[i + 1])
    ensures Inv(run[|run| - 1], initial)
    ensures var gained := DataAnswers(run[|run| - 1].past.answers) - DataAnswers(run[0].past.answers);
            gained >= 0 && run[|run| - 1].control == IncreasedTimes(run[0].control, gained)
  {
    hide Inv, Enabled, Apply, LossFree, DataAnswers;
    if |run| > 1 {
      var n := |run| - 2;
      LossFreeGrowth(run[..n + 1], initial);
      assert LossFreeNext(run[n], run[n + 1]);
      var e: Event :| Enabled(run[n], e) && LossFree(run[n], e) && run[n + 1] == Apply(run[n], e);
      StepKeepsInv(run[n], e, initial);
      LossFreeStep(run[n], e, initial);
      IncreaseOnceMore(run[0].control, DataAnswers(run[n].past.answers) - DataAnswers(run[0].past.answers));
    }
  }

  /** While the pipeline is open, everything sent is accounted for. */
  lemma CounterLedger(run: seq<State>, control: Control, initial: nat, clock: int, i: nat)
    requires IsRun(run, control, initial, clock) && i < |run| && !run[i].closed
    ensures var c := run[i].counters;
            c.tx + c.rxUnexpected + run[i].past.ignored == |run[i].pit| + c.rx + c.nack + c.timeout
  {
    RunInv(run, control, initial, clock, i);
  }

  /** What a consumer has in its queue are its own answers, in order, none twice and none missing. */
  lemma QueuesHoldOwnAnswers(run: seq<State>, control: Control, initial: nat, clock: int, i: nat, c: Consumer)
    requires IsRun(run, control, initial, clock) && i < |run| && c in run[i].responses
    ensures QueueFits(run[i], c)
    ensures forall k :: 0 <= k < |run[i].responses[c]| ==> run[i].responses[c][k].consumer == c
  {
    RunInv(run, control, initial, clock, i);
    var due := AnswersFor(run[i].past.answers[run[i].past.since[c]..], c);
    AnswersForOwn(run[i].past.answers[run[i].past.since[c]..], c);
    assert forall k :: 0 <= k < |run[i].responses[c]| ==> run[i].responses[c][k] == due[k + run[i].past.popped[c]];
  }

  lemma {:induction false} AnswersForOwn(log: seq<Answer>, c: Consumer)
    ensures forall k :: 0 <= k < |AnswersFor(log, c)| ==> AnswersFor(log, c)[k].consumer == c
  {
    if log != [] { AnswersForOwn(log[..|log| - 1], c); }
  }

  // ---------------------------------------------------------------------------
  // No lost timeout
  // ---------------------------------------------------------------------------

  ghost predicate SameLifetimes(s: State, lifetime: nat) {
    forall token :: token in s.pit ==> s.pit[token].lifetime == lifetime
  }

  ghost predicate NoneExpired(s: State) {
    forall token :: token in s.pit ==> !s.pit[token].IsExpired(s.clock)
  }

  /** If the oldest live entry has not expired, none has. */
  lemma OldestFirst(s: State, lifetime: nat, token: Token)
    requires Ordered(s) && SameLifetimes(s, lifetime) && s.piq != [] && s.piq[0] in s.pit
    requires !s.pit[s.piq[0]].IsExpired(s.clock) && token in s.pit
    ensures !s.pit[token].IsExpired(s.clock)
  {
    hide UnsentFits;
    var k :| 0 <= k < |s.piq| && s.piq[k] == token;
    if k > 0 {
      assert InOrder(s, 0, k);
      DivMonotone(s.clock - s.pit[token].expressedAt, s.clock - s.pit[s.piq[0]].expressedAt);
    }
  }

  lemma DivMonotone(a: int, b: int)
    requires a <= b
    ensures a / TICKS_PER_MILLISECOND <= b / TICKS_PER_MILLISECOND
  {
  }

  /** If all lifetimes are equal, `onTimeout` fails one request that has reached its retry limit,
      finds the pipeline closed, or leaves no expired entry in the PIT. */
  lemma {:induction false} TimeoutOutcome(s: State, readings: seq<Reading>, s': State, initial: nat, lifetime: nat)
    requires Inv(s, initial) && SameLifetimes(s, lifetime) && Loops(s, readings, s')
    ensures Inv(s', initial)
    ensures s'.closed || NoneExpired(s') || |s'.past.answers| == |s.past.answers| + 1
    decreases |readings|
  {
    hide Inv, TimeoutTurn, Ordered, Core, TurnContinues;
    InvGood(s, initial);
    if readings != [] {
      var r := readings[0];
      StepKeepsInv(s, Check(r), initial);
      var s1 := Apply(s, Check(r));
      TurnFacts(s, r.now, r.later, r.newToken, initial);
      if TurnContinues(s, r.now) {
        TimeoutOutcome(s1, readings[1..], s', initial, lifetime);
      } else if !s1.closed && |s1.past.answers| != |s.past.answers| + 1 {
        InvGood(s1, initial);
        forall token | token in s1.pit ensures !s1.pit[token].IsExpired(s1.clock) {
          OldestFirst(s1, lifetime, token);
        }
      }
    }
  }

  lemma InvGood(s: State, initial: nat)
    requires Inv(s, initial)
    ensures Ordered(s) && Core(s) && (s.piq == [] ==> s.pit == map[])
  {
  }

  /** One turn: it ends at a live entry that has not expired, answers one at its limit, or goes on
      without answering anybody. */
  lemma TurnFacts(s: State, now: int, later: int, newToken: Token, initial: nat)
    requires Inv(s, initial) && Enabled(s, CheckTimeout(now, later, newToken))
    ensures var s' := TimeoutTurn(s, now, later, newToken);
            && (forall token :: token in s'.pit ==> token in s.pit && s'.pit[token] == s.pit[token])
            && (TurnContinues(s, now) ==> s'.past.answers == s.past.answers && s'.piq == s.piq[1..])
            && (!TurnContinues(s, now) ==>
                  || s'.closed || |s'.past.answers| == |s.past.answers| + 1
                  || (s' == s.(clock := now) && s.piq[0] in s.pit && !s.pit[s.piq[0]].IsExpired(now)))
  {
    hide Ordered, Heard, Core;
  }

  // ---------------------------------------------------------------------------
  // A silent network
  // ---------------------------------------------------------------------------

  /** How far a request is from its answer when nothing arrives any more. */
  function Distance(t: Track): nat {
    match t.place
    case Queued(p) => if p.retries <= MAX_RETRIES then 3 * (MAX_RETRIES - p.retries) + 3 else 0
    case Batched(p) => if p.retries <= MAX_RETRIES then 3 * (MAX_RETRIES - p.retries) + 2 else 0
    case Pending(p) => if p.retries <= MAX_RETRIES then 3 * (MAX_RETRIES - p.retries) + 1 else 0
    case Answered(_) => 0
  }

  ghost function Rank(s: State): nat {
    2 * Total(s.past.tracks, Distance) + |s.piq|
  }

  /** A worker step that gets something done: it fetches something, sends something, drops a dead
      PIQ entry or acts on an expired one. */
  predicate Effective(s: State, e: Event) {
    match e
    case NextBatch(picks) => picks != []
    case Send(sent, _) => sent > 0
    case CheckTimeout(now, _, _) => s.piq != [] && (s.piq[0] in s.pit ==> s.pit[s.piq[0]].IsExpired(now))
    case _ => false
  }

  lemma MoveRank(s: State, s': State, id: RequestId)
    requires id in s.past.tracks && MovedOnly(s, s', id)
    ensures Total(s'.past.tracks, Distance)
         == Total(s.past.tracks, Distance) - Distance(s.past.tracks[id]) + Distance(s'.past.tracks[id])
  {
    TotalUpdate(s.past.tracks, Distance, id, s'.past.tracks[id]);
  }

  lemma {:induction false} TakeAllRank(s: State, picks: seq<PendingInterest>)
    requires Good(s) && multiset(picks) <= s.requests && Known(s, picks)
    ensures Rank(TakenAll(s, picks)) == Rank(s) - 2 * |picks|
    decreases |picks|
  {
    hide Good, Total, Aside;
    if picks != [] {
      var n := |picks| - 1;
      SplitLast(picks);
      TakeAllRank(s, picks[..n]);
      TakeAllGood(s, picks[..n]);
      var s1 := TakenAll(s, picks[..n]);
      assert picks[n] in s1.requests;
      TakeRank(s1, picks[n]);
    }
  }

  lemma TakeRank(s: State, p: PendingInterest)
    requires Good(s) && p in s.requests && p.id in s.past.tracks
    ensures Rank(Taken(s, p)) == Rank(s) - 2
  {
    hide Core, Ordered, Heard, Total;
    QueuedFacts(s, p);
    MoveRank(s, Taken(s, p), p.id);
  }

  lemma {:induction false} ExpressAllRank(s: State, times: seq<int>)
    requires Good(s) && |times| <= |s.batch| && Known(s, s.batch) && Increasing(s.clock, times)
    ensures Rank(ExpressedAll(s, times)) == Rank(s) - |times|
    decreases |times|
  {
    hide Good, Total, Aside;
    if times != [] {
      var n := |times| - 1;
      ExpressAllRank(s, times[..n]);
      ExpressAllGood(s, times[..n]);
      ExpressRank(ExpressedAll(s, times[..n]), times[n]);
    }
  }

  lemma ExpressRank(s: State, now: int)
    requires Good(s) && s.batch != [] && s.batch[0].id in s.past.tracks
    ensures Rank(Expressed(s, now)) == Rank(s) - 1
  {
    hide Core, Ordered, Heard, Total;
    BatchedFacts(s, 0);
    MoveRank(s, Expressed(s, now), s.batch[0].id);
  }

  /** An expired request that is not at its last retry comes one retry closer, and one that is gets
      answered. */
  lemma TurnDistance(s: State, now: int, later: int, newToken: Token, initial: nat)
    requires Inv(s, initial) && Enabled(s, CheckTimeout(now, later, newToken)) && s.piq != [] && s.piq[0] in s.pit
    requires s.pit[s.piq[0]].IsExpired(now) && !TimeoutTurn(s, now, later, newToken).closed
    ensures var s', id := TimeoutTurn(s, now, later, newToken), s.pit[s.piq[0]].id;
            && id in s.past.tracks && id in s'.past.tracks && MovedOnly(s, s', id) && |s'.piq| <= |s.piq|
            && Distance(s'.past.tracks[id]) < Distance(s.past.tracks[id])
  {
    hide Core, Ordered, Heard, Total;
    PendingFacts(s, s.piq[0]);
  }

  lemma TurnRank(s: State, now: int, later: int, newToken: Token, initial: nat)
    requires Inv(s, initial) && Enabled(s, CheckTimeout(now, later, newToken))
    requires Effective(s, CheckTimeout(now, later, newToken)) && !TimeoutTurn(s, now, later, newToken).closed
    ensures Rank(TimeoutTurn(s, now, later, newToken)) < Rank(s)
  {
    hide Core, Ordered, Heard, Total, Distance, MovedOnly, RefreshedOrFailed, AnsweredWith, Halved;
    var front := s.piq[0];
    if front in s.pit {
      TurnDistance(s, now, later, newToken, initial);
      MoveRank(s, TimeoutTurn(s, now, later, newToken), s.pit[front].id);
    }
  }

  lemma BatchRank(s: State, picks: seq<PendingInterest>)
    requires Good(s) && multiset(picks) <= s.requests && Known(s, picks)
    ensures Rank(TakenAll(s.(past := s.past.(limit := s.control.size)), picks)) == Rank(s) - 2 * |picks|
  {
    hide Good, Total;
    var s1 := s.(past := s.past.(limit := s.control.size));
    SameGood(s, s1);
    TakeAllRank(s1, picks);
  }

  lemma SendRank(s: State, times: seq<int>)
    requires Good(s) && |times| <= |s.batch| && Known(s, s.batch) && Increasing(s.clock, times)
    ensures Rank(ExpressedAll(s.(counters := s.counters.(tx := s.counters.tx + |times|)), times)) == Rank(s) - |times|
  {
    hide Good, Total, Increasing;
    var s1 := s.(counters := s.counters.(tx := s.counters.tx + |times|));
    SameGood(s, s1);
    ExpressAllRank(s1, times);
  }

  /** While the pipeline stays open, every effective worker step brings the unanswered requests
      strictly closer to their answers. */
  lemma SilenceRanksDown(s: State, e: Event, initial: nat)
    requires Inv(s, initial) && Enabled(s, e) && Effective(s, e) && !Apply(s, e).closed
    ensures Rank(Apply(s, e)) < Rank(s)
  {
    hide Good, Rank, TimeoutTurn, Increasing, Fresh, FlightFits, Balanced, ControlFits, HalvingsFit;
    match e
    case NextBatch(picks) => if !s.closed { BatchRank(s, picks); }
    case Send(sent, times) => SendRank(s, times);
    case CheckTimeout(now, later, newToken) => TurnRank(s, now, later, newToken, initial);
  }

  ghost predicate EffectiveNext(s: State, s': State) {
    exists e: Event :: Enabled(s, e) && Effective(s, e) && s' == Apply(s, e)
  }

  /** A silent network with an open pipeline: the worker can take no more effective steps than the
      rank says. */
  lemma {:induction false} SilenceEnds(run: seq<State>, initial: nat)
    requires |run| > 0 && Inv(run[0], initial)
    requires forall i :: 0 <= i < |run| ==> !run[i].closed
    requires forall i :: 0 <= i < |run| - 1 ==> EffectiveNext(run[i], run[i + 1])
    ensures |run| - 1 + Rank(run[|run| - 1]) <= Rank(run[0]) && Inv(run[|run| - 1], initial)
  {
    hide Inv, Rank, Enabled, Apply, Effective;
    if |run| > 1 {
      var n := |run| - 2;
      SilenceEnds(run[..n + 1], initial);
      assert EffectiveNext(run[n], run[n + 1]);
      var e: Event :| Enabled(run[n], e) && Effective(run[n], e) && run[n + 1] == Apply(run[n], e);
      StepKeepsInv(run[n], e, initial);
      SilenceRanksDown(run[n], e, initial);
    }
  }

  /** And as long as anything is unanswered there is an effective step to take, once what is in the
      PIT has expired. */
  lemma SilenceMakesProgress(s: State, id: RequestId, now: int, newToken: Token, initial: nat) returns (e: Event)
    requires Inv(s, initial) && !s.closed && id in s.past.tracks && !s.past.tracks[id].place.Answered?
    requires s.clock <= now && newToken !in s.issued && s.control.size > 0
    requires forall token :: token in s.pit ==> s.pit[token].IsExpired(now)
    ensures Enabled(s, e) && Effective(s, e)
  {
    hide Core, Ordered, Heard, FlightFits, Balanced, ControlFits, HalvingsFit;
    if s.pit != map[] {
      e := CheckTimeout(now, now, newToken);
      FrontTraced(s);
    } else if s.batch != [] {
      e := Send(1, [now]);
      BatchKnown(s);
    } else {
      var p := WaitingRequest(s, id);
      e := NextBatch([p]);
    }
  }

  lemma WaitingRequest(s: State, id: RequestId) returns (p: PendingInterest)
    requires Core(s) && id in s.past.tracks && !s.past.tracks[id].place.Answered? && s.pit == map[] && s.batch == []
    ensures p in s.requests && multiset([p]) <= s.requests && Known(s, [p])
  {
    assert TrackFits(s, id);
    p := s.past.tracks[id].place.request;
  }

  lemma FrontTraced(s: State)
    requires Good(s) && s.pit != map[]
    ensures s.piq != [] && Traced(s, s.piq[0])
  {
    var token :| token in s.pit;
    if s.piq[0] in s.pit { PendingFacts(s, s.piq[0]); }
  }

  lemma BatchKnown(s: State)
    requires Core(s)
    ensures Known(s, s.batch)
  {
    forall k | 0 <= k < |s.batch| ensures s.batch[k].id in s.past.tracks {
      BatchedFacts(s, k);
    }
  }
}
