/** What each event of the Interest pipeline comes to, told from its arguments and the state before
    it, and where the answers in the log come from. */
module PipelineOutcomes {
  import opened Numbers
  import opened Options
  import opened WindowControl
  import opened Pipeline
  import opened PipelineInvariant
  import PipelineLaws

  // ---------------------------------------------------------------------------
  // The network
  // ---------------------------------------------------------------------------

  /** From s to s' the request under this token has been answered: its answer is the last of the log
      and of its consumer's queue, and its PIT entry is gone. */
  ghost predicate Answers(s: State, s': State, token: Token, data: Option<nat>)
    requires token in s.pit && s.pit[token].consumer in s.responses
  {
    var p := s.pit[token];
    var a := Answer(p.id, p.consumer, data);
    && s'.past.answers == s.past.answers + [a] && s'.pit == s.pit - {token}
    && s'.responses == s.responses[p.consumer := s.responses[p.consumer] + [a]]
    && s' == s.(clock := s'.clock, counters := s'.counters, control := s'.control, responses := s'.responses,
                pit := s'.pit, past := s'.past)
  }

  /** From s to s' the answer to a request has been refused: the pipeline is closed and nothing else has
      happened to requests and answers. */
  ghost predicate Refuses(s: State, s': State) {
    && s' == s.(closed := true, clock := s'.clock, counters := s'.counters, control := s'.control, past := s'.past)
    && s'.past.answers == s.past.answers
  }

  lemma AnswerOutcome(s: State, token: Token, data: Option<nat>)
    requires token in s.pit && s.pit[token].id in s.past.tracks
    ensures var s', c := AnsweredWith(s, token, data), s.pit[token].consumer;
            && s'.clock == s.clock && s'.counters == s.counters && s'.control == s.control
            && if s.closed || c !in s.responses then Refuses(s, s') else Answers(s, s', token, data)
  {
  }

  /** Data under a token of the PIT answers its request with the Data that has arrived, if its consumer
      is registered; other Data only counts. */
  lemma DataOutcome(s: State, token: Token, data: nat, marked: bool, now: int)
    requires Enabled(s, DataArrives(token, data, marked, now))
    ensures var s', c := Apply(s, DataArrives(token, data, marked, now)), s.counters;
            && s'.clock == now
            && if token !in s.pit then
                 s' == s.(clock := now, counters := c.(rx := c.rx + 1, rxUnexpected := c.rxUnexpected + 1))
               else
                 var before := if marked then Decreased(s.control, now) else s.control;
                 && s'.counters == c.(rx := c.rx + 1)
                 && if s.closed || s.pit[token].consumer !in s.responses then Refuses(s, s') && s'.control == before
                    else Answers(s, s', token, Some(data)) && s'.control == Increased(before)
  {
    hide AnsweredWith, Decreased, Increased;
    if token in s.pit {
      var s1 := s.(clock := now, counters := s.counters.(rx := s.counters.rx + 1));
      AnswerOutcome(if marked then Halved(s1, now) else s1, token, Some(data));
    }
  }

  /** From s to s' this entry of the PIT has gone back to the request queue as p. */
  ghost predicate Requeues(s: State, s': State, token: Token, p: PendingInterest) {
    && s'.requests == s.requests + multiset{p} && s'.pit == s.pit - {token} && s'.issued == s.issued + {p.token}
    && s' == s.(issued := s'.issued, requests := s'.requests, pit := s'.pit, clock := s'.clock, counters := s'.counters,
                piq := s'.piq, control := s'.control, past := s'.past)
    && s'.past.answers == s.past.answers
  }

  lemma RefreshOutcome(s: State, token: Token, newToken: Token, timeoutReason: bool)
    requires token in s.pit && s.pit[token].id in s.past.tracks
    ensures var s', p := RefreshedOrFailed(s, token, newToken, timeoutReason), s.pit[token];
            && s'.clock == s.clock && s'.counters == s.counters && s'.control == s.control && s'.piq == s.piq
            && if s.closed then Refuses(s.(issued := s.issued + {newToken}), s')
               else Requeues(s, s', token, p.(token := newToken, retries := p.retries + if timeoutReason then 1 else 0))
  {
    if s.closed { AnswerOutcome(s.(issued := s.issued + {newToken}), token, None); }
  }

  /** A Nack for a duplicate puts its request back unchanged under a new token, one for any other reason
      fails the request, and one without a reason only counts. */
  lemma NackOutcome(s: State, token: Token, reason: NackReason, newToken: Token)
    requires Enabled(s, NackArrives(token, reason, newToken))
    ensures var s', c := Apply(s, NackArrives(token, reason, newToken)), s.counters;
            && s'.clock == s.clock && s'.control == s.control && s'.piq == s.piq
            && if token !in s.pit then s' == s.(counters := c.(nack := c.nack + 1, rxUnexpected := c.rxUnexpected + 1))
               else
                 && s'.counters == c.(nack := c.nack + 1)
                 && match reason
                    case NoReason =>
                      s' == s.(counters := s'.counters, past := s'.past) && s'.past.answers == s.past.answers
                    case Duplicate =>
                      if s.closed then Refuses(s.(issued := s.issued + {newToken}), s')
                      else Requeues(s, s', token, s.pit[token].(token := newToken))
                    case OtherReason =>
                      if s.closed || s.pit[token].consumer !in s.responses then Refuses(s, s')
                      else Answers(s, s', token, None)
  {
    hide AnsweredWith, RefreshedOrFailed;
    if token in s.pit {
      var s1 := s.(counters := s.counters.(nack := s.counters.nack + 1));
      if reason.Duplicate? { RefreshOutcome(s1, token, newToken, false); }
      if reason.OtherReason? { AnswerOutcome(s1, token, None); }
    }
  }

  // ---------------------------------------------------------------------------
  // Timeouts
  // ---------------------------------------------------------------------------

  /** A request expires one whole millisecond after its lifetime. */
  lemma ExpiresExactly(p: PendingInterest, now: int)
    ensures p.IsExpired(now) <==> now - p.expressedAt >= (p.lifetime + 1) * 1_000_000
  {
  }

  /** One turn of the timeout loop: a dead front is dropped, a live one that has not expired ends the
      loop, an expired one is put back with one more retry and lowers the window, and one that has been
      retried eight times fails. */
  lemma TurnOutcome(s: State, now: int, later: int, newToken: Token)
    requires Enabled(s, CheckTimeout(now, later, newToken))
    ensures var s', c, front := Apply(s, CheckTimeout(now, later, newToken)), s.counters, s.piq[0];
            if front !in s.pit then s' == s.(piq := s.piq[1..])
            else if now - s.pit[front].expressedAt < (s.pit[front].lifetime + 1) * 1_000_000 then s' == s.(clock := now)
            else
              && s'.counters == c.(timeout := c.timeout + 1)
              && var p := s.pit[front];
                 if p.retries >= 8 then
                   && s'.clock == now && s'.control == s.control
                   && if s.closed || p.consumer !in s.responses then Refuses(s, s') else Answers(s, s', front, None)
                 else
                   && s'.clock == later && s'.control == Decreased(s.control, later)
                   && if s.closed then Refuses(s.(issued := s.issued + {newToken}), s')
                      else
                        && s'.piq == s.piq[1..]
                        && Requeues(s, s', front, p.(token := newToken, retries := p.retries + 1))
  {
    hide AnsweredWith, RefreshedOrFailed, Decreased;
    var front := s.piq[0];
    if front in s.pit {
      ExpiresExactly(s.pit[front], now);
      var s1 := s.(clock := now, counters := s.counters.(timeout := s.counters.timeout + 1));
      AnswerOutcome(s1, front, None);
      RefreshOutcome(Halved(s1.(clock := later), later), front, newToken, true);
    }
  }

  // ---------------------------------------------------------------------------
  // The applications
  // ---------------------------------------------------------------------------

  /** The pending Interests of a bulk push: numbered on, each under its token, not yet retried. */
  function NewRequests(from: nat, c: Consumer, lifetimes: seq<nat>, tokens: seq<Token>): seq<PendingInterest>
    requires |lifetimes| == |tokens|
    ensures |NewRequests(from, c, lifetimes, tokens)| == |tokens|
  {
    seq(|tokens|, i requires 0 <= i < |tokens| => PendingInterest(from + i, tokens[i], c, 0, lifetimes[i], 0))
  }

  lemma AdmittedFields(s: State, c: Consumer, lifetime: nat, token: Token)
    ensures var s', p := Admitted(s, c, lifetime, token), PendingInterest(s.past.accepted, token, c, 0, lifetime, 0);
            && s' == s.(requests := s.requests + multiset{p}, issued := s.issued + {token}, past := s'.past)
            && s'.past.answers == s.past.answers && s'.past.accepted == s.past.accepted + 1
  {
  }

  lemma OneMoreRequest(from: nat, c: Consumer, lifetimes: seq<nat>, tokens: seq<Token>)
    requires |lifetimes| == |tokens| > 0
    ensures var n := |tokens| - 1;
            && (set t | t in tokens) == (set t | t in tokens[..n]) + {tokens[n]}
            && multiset(NewRequests(from, c, lifetimes, tokens))
               == multiset(NewRequests(from, c, lifetimes[..n], tokens[..n]))
                  + multiset{PendingInterest(from + n, tokens[n], c, 0, lifetimes[n], 0)}
  {
    var n := |tokens| - 1;
    assert tokens == tokens[..n] + [tokens[n]];
    assert NewRequests(from, c, lifetimes, tokens)
        == NewRequests(from, c, lifetimes[..n], tokens[..n]) + [PendingInterest(from + n, tokens[n], c, 0, lifetimes[n], 0)];
  }

  lemma {:induction false} AdmitOutcome(s: State, c: Consumer, lifetimes: seq<nat>, tokens: seq<Token>)
    requires |lifetimes| == |tokens|
    ensures var s' := AdmittedAll(s, c, lifetimes, tokens);
            && s' == s.(requests := s.requests + multiset(NewRequests(s.past.accepted, c, lifetimes, tokens)),
                        issued := s.issued + (set t | t in tokens), past := s'.past)
            && s'.past.answers == s.past.answers && s'.past.accepted == s.past.accepted + |tokens|
    decreases |tokens|
  {
    hide Admitted, NewRequests;
    if tokens == [] {
      assert NewRequests(s.past.accepted, c, lifetimes, tokens) == [];
    } else {
      var n := |tokens| - 1;
      AdmitOutcome(s, c, lifetimes[..n], tokens[..n]);
      AdmittedFields(AdmittedAll(s, c, lifetimes[..n], tokens[..n]), c, lifetimes[n], tokens[n]);
      OneMoreRequest(s.past.accepted, c, lifetimes, tokens);
    }
  }

  /** A bulk push by a registered consumer adds exactly its requests, one by an unknown consumer closes
      the pipeline, and one into a closed pipeline does nothing. */
  lemma PushOutcome(s: State, c: Consumer, lifetimes: seq<nat>, tokens: seq<Token>)
    requires Enabled(s, PushBulk(c, lifetimes, tokens))
    ensures var s' := Apply(s, PushBulk(c, lifetimes, tokens));
            if s.closed then s' == s
            else if c !in s.responses then s' == s.(closed := true)
            else
              && s' == s.(requests := s.requests + multiset(NewRequests(s.past.accepted, c, lifetimes, tokens)),
                          issued := s.issued + (set t | t in tokens), past := s'.past)
              && s'.past.answers == s.past.answers && s'.past.accepted == s.past.accepted + |tokens|
  {
    AdmitOutcome(s, c, lifetimes, tokens);
  }

  /** A pop takes as many answers as wait and fit, from the front of the consumer's own queue. */
  lemma PopOutcome(s: State, c: Consumer, max: nat)
    requires Enabled(s, PopBulk(c, max))
    ensures var s' := Apply(s, PopBulk(c, max));
            if s.closed then s' == s
            else if c !in s.responses then s' == s.(closed := true)
            else
              && PopCount(s, c, max) == Min(max, |s.responses[c]|)
              && s' == s.(responses := s.responses[c := s.responses[c][Min(max, |s.responses[c]|)..]], past := s'.past)
              && s'.past.answers == s.past.answers
  {
  }

  // ---------------------------------------------------------------------------
  // The worker
  // ---------------------------------------------------------------------------

  lemma TakenFields(s: State, p: PendingInterest)
    requires p.id in s.past.tracks
    ensures var s' := Taken(s, p);
            && s' == s.(requests := s.requests - multiset{p}, batch := s.batch + [p], past := s'.past)
            && s'.past.accepted == s.past.accepted
  {
  }

  lemma LessLast<T>(all: multiset<T>, xs: seq<T>)
    requires xs != []
    ensures all - multiset(xs[..|xs| - 1]) - multiset{xs[|xs| - 1]} == all - multiset(xs)
    ensures xs[..|xs| - 1] + [xs[|xs| - 1]] == xs
  {
    SplitLast(xs);
  }

  lemma TakenLast(s: State, s1: State, s2: State, picks: seq<PendingInterest>)
    requires picks != []
    requires var n := |picks| - 1;
             && s1 == s.(requests := s.requests - multiset(picks[..n]), batch := s.batch + picks[..n], past := s1.past)
             && s2 == s1.(requests := s1.requests - multiset{picks[n]}, batch := s1.batch + [picks[n]], past := s2.past)
    ensures s2 == s.(requests := s.requests - multiset(picks), batch := s.batch + picks, past := s2.past)
  {
    LessLast(s.requests, picks);
    assert s2.batch == s.batch + (picks[..|picks| - 1] + [picks[|picks| - 1]]);
  }

  lemma {:induction false} TakenAllFields(s: State, picks: seq<PendingInterest>)
    requires Known(s, picks)
    ensures var s' := TakenAll(s, picks);
            && s' == s.(requests := s.requests - multiset(picks), batch := s.batch + picks, past := s'.past)
            && s'.past.accepted == s.past.accepted
    decreases |picks|
  {
    hide Taken;
    if picks != [] {
      var n := |picks| - 1;
      TakenAllFields(s, picks[..n]);
      TakenFields(TakenAll(s, picks[..n]), picks[n]);
      TakenLast(s, TakenAll(s, picks[..n]), TakenAll(s, picks), picks);
    }
  }

  /** A batch is what the request queue has handed out, at most 64 and no more than the window has room
      for. */
  lemma BatchOutcome(s: State, picks: seq<PendingInterest>)
    requires Enabled(s, NextBatch(picks))
    ensures |picks| <= 64 && |s.pit| + |picks| <= s.control.size
    ensures var s' := Apply(s, NextBatch(picks));
            && s' == s.(batch := picks, requests := s.requests - multiset(picks), past := s'.past)
            && s'.past.answers == s.past.answers
  {
    if !s.closed {
      TakenAllFields(s.(past := s.past.(limit := s.control.size)), picks);
      TakenAnswersNobody(s.(past := s.past.(limit := s.control.size)), picks);
    } else {
      assert s.requests - multiset(picks) == s.requests;
    }
  }

  lemma {:induction false} TakenAnswersNobody(s: State, picks: seq<PendingInterest>)
    requires Known(s, picks)
    ensures TakenAll(s, picks).past.answers == s.past.answers
    decreases |picks|
  {
    if picks != [] { TakenAnswersNobody(s, picks[..|picks| - 1]); }
  }

  /** The tokens of a batch, in order. */
  function TokensOf(batch: seq<PendingInterest>): seq<Token> {
    seq(|batch|, k requires 0 <= k < |batch| => batch[k].token)
  }

  /** The first n requests of the batch have gone out at these times: each is in the PIT under its token,
      and the tokens are at the end of the PIQ in the same order. */
  ghost predicate Sends(s: State, s': State, times: seq<int>)
    requires |times| <= |s.batch|
  {
    var n := |times|;
    && s' == s.(clock := s'.clock, batch := s.batch[n..], pit := s'.pit, piq := s.piq + TokensOf(s.batch[..n]),
                past := s'.past)
    && s'.past.answers == s.past.answers && s'.clock == (if n == 0 then s.clock else times[n - 1])
    && Entered(s.pit, s'.pit, s.batch[..n], times)
  }

  predicate SentAs(pit: map<Token, PendingInterest>, p: PendingInterest, now: int) {
    p.token in pit && pit[p.token] == p.(expressedAt := now)
  }

  /** Tokens of the batch are its own; the invariant says so. */
  predicate OwnTokens(s: State) {
    && (forall k :: 0 <= k < |s.batch| ==> s.batch[k].token !in s.pit)
    && (forall i, k :: 0 <= i < k < |s.batch| ==> s.batch[i].token != s.batch[k].token)
  }

  lemma ExpressedFields(s: State, now: int)
    requires s.batch != [] && s.batch[0].id in s.past.tracks
    ensures var s', p := Expressed(s, now), s.batch[0].(expressedAt := now);
            && s' == s.(clock := now, batch := s.batch[1..], pit := s.pit[p.token := p], piq := s.piq + [p.token],
                        past := s'.past)
            && s'.past.accepted == s.past.accepted && s'.past.answers == s.past.answers
  {
  }

  /** These requests have been put into the PIT, each under its token. */
  ghost predicate Entered(pit: map<Token, PendingInterest>, pit': map<Token, PendingInterest>,
                          batch: seq<PendingInterest>, times: seq<int>) {
    && |batch| == |times| && pit'.Keys == pit.Keys + (set t | t in TokensOf(batch))
    && (forall k :: 0 <= k < |batch| ==> SentAs(pit', batch[k], times[k]))
    && (forall t :: t in pit ==> t in pit' && pit'[t] == pit[t])
  }

  lemma OneMoreEntered(pit: map<Token, PendingInterest>, pit1: map<Token, PendingInterest>,
                       batch: seq<PendingInterest>, times: seq<int>, p: PendingInterest, now: int)
    requires Entered(pit, pit1, batch, times) && p.token !in pit
    requires forall k :: 0 <= k < |batch| ==> batch[k].token != p.token
    ensures Entered(pit, pit1[p.token := p.(expressedAt := now)], batch + [p], times + [now])
    ensures TokensOf(batch + [p]) == TokensOf(batch) + [p.token]
  {
    var pit' := pit1[p.token := p.(expressedAt := now)];
    assert TokensOf(batch + [p]) == TokensOf(batch) + [p.token];
    assert (set t | t in TokensOf(batch + [p])) == (set t | t in TokensOf(batch)) + {p.token};
    forall k | 0 <= k < |batch| + 1 ensures SentAs(pit', (batch + [p])[k], (times + [now])[k]) {
      if k < |batch| { assert SentAs(pit1, batch[k], times[k]); }
    }
  }

  lemma SendsOneMore(s: State, s1: State, s': State, times: seq<int>)
    requires times != [] && |times| <= |s.batch| && OwnTokens(s) && Sends(s, s1, times[..|times| - 1])
    requires var p := s.batch[|times| - 1].(expressedAt := times[|times| - 1]);
             && s' == s1.(clock := times[|times| - 1], batch := s1.batch[1..], pit := s1.pit[p.token := p],
                          piq := s1.piq + [p.token], past := s'.past)
             && s'.past.answers == s1.past.answers
    ensures Sends(s, s', times)
  {
    hide Entered;
    var n := |times| - 1;
    OneMoreEntered(s.pit, s1.pit, s.batch[..n], times[..n], s.batch[n], times[n]);
    assert s.batch[..n] + [s.batch[n]] == s.batch[..n + 1] && times[..n] + [times[n]] == times;
    assert s.batch[n..][1..] == s.batch[n + 1..];
    assert s.piq + TokensOf(s.batch[..n + 1]) == s.piq + TokensOf(s.batch[..n]) + [s.batch[n].token];
  }

  lemma {:induction false} ExpressOutcome(s: State, times: seq<int>)
    requires |times| <= |s.batch| && Known(s, s.batch) && OwnTokens(s)
    ensures Sends(s, ExpressedAll(s, times), times)
    decreases |times|
  {
    hide Expressed, Sends, OwnTokens;
    if times == [] {
      SendsNothing(s);
    } else {
      var n := |times| - 1;
      ExpressOutcome(s, times[..n]);
      ExpressedFields(ExpressedAll(s, times[..n]), times[n]);
      SendsOneMore(s, ExpressedAll(s, times[..n]), ExpressedAll(s, times), times);
    }
  }

  lemma SendsNothing(s: State)
    ensures Sends(s, s, [])
  {
    assert TokensOf([]) == [];
  }

  lemma BatchAndPitDiffer(s: State, k: nat, token: Token)
    requires Core(s) && k < |s.batch| && token in s.pit
    ensures s.batch[k].token != token
  {
    assert IsAt(s, s.batch[k].id, Batched(s.batch[k]));
    assert IsAt(s, s.pit[token].id, Pending(s.pit[token]));
    assert Differ(s, s.batch[k].id, s.pit[token].id);
  }

  lemma TokensAreOwn(s: State)
    requires Core(s)
    ensures OwnTokens(s)
  {
    forall k, token | 0 <= k < |s.batch| && token in s.pit ensures s.batch[k].token != token {
      BatchAndPitDiffer(s, k, token);
    }
    forall i, k | 0 <= i < k < |s.batch| ensures s.batch[i].token != s.batch[k].token {
      assert IsAt(s, s.batch[i].id, Batched(s.batch[i])) && IsAt(s, s.batch[k].id, Batched(s.batch[k]));
      assert Differ(s, s.batch[i].id, s.batch[k].id);
    }
  }

  /** A send that fails closes the pipeline and records nothing; one that gets n packets out records
      exactly the first n of the batch, with the times they went out, and keeps the rest. */
  lemma SendOutcome(s: State, sent: int, times: seq<int>)
    requires Core(s) && Enabled(s, Send(sent, times))
    ensures var s' := Apply(s, Send(sent, times));
            if sent < 0 then s' == s.(closed := true)
            else |times| == sent && Sends(s.(counters := s.counters.(tx := s.counters.tx + sent)), s', times)
  {
    hide Core, Sends, Increasing;
    TokensAreOwn(s);
    if sent >= 0 { ExpressOutcome(s.(counters := s.counters.(tx := s.counters.tx + sent)), times); }
  }

  // ---------------------------------------------------------------------------
  // Where answers come from
  // ---------------------------------------------------------------------------

  /** A run together with its events. */
  ghost predicate IsTrace(run: seq<State>, events: seq<Event>, control: Control, initial: nat, clock: int) {
    && |run| == |events| + 1 && run[0] == Init(control, clock) && ControlFits(control, initial)
    && forall i :: 0 <= i < |events| ==> Leads(run[i], events[i], run[i + 1])
  }

  lemma TraceIsRun(run: seq<State>, events: seq<Event>, control: Control, initial: nat, clock: int)
    requires IsTrace(run, events, control, initial, clock)
    ensures PipelineLaws.IsRun(run, control, initial, clock)
  {
    hide Enabled, Apply;
    forall i | 0 <= i < |run| - 1 ensures PipelineLaws.Next(run[i], run[i + 1]) {
      assert Leads(run[i], events[i], run[i + 1]);
    }
  }

  /** In state s this event answers with `a`: Data with the packet that arrives, for the request under its
      token; a Nack that is none for a duplicate, or the ninth timeout, with nothing. */
  predicate Causes(s: State, e: Event, a: Answer) {
    match e
    case DataArrives(token, data, _, _) => a.data == Some(data) && IsFor(s, token, a)
    case NackArrives(token, reason, _) => a.data == None && reason.OtherReason? && IsFor(s, token, a)
    case CheckTimeout(now, _, _) =>
      && a.data == None && s.piq != [] && IsFor(s, s.piq[0], a) && s.pit[s.piq[0]].retries >= 8
      && now - s.pit[s.piq[0]].expressedAt >= (s.pit[s.piq[0]].lifetime + 1) * 1_000_000
    case _ => false
  }

  /** The answer is for the request that waits under this token, and for whoever asked. */
  predicate IsFor(s: State, token: Token, a: Answer) {
    token in s.pit && a.id == s.pit[token].id && a.consumer == s.pit[token].consumer
  }

  /** An event adds at most one answer to the log, and only one it causes. */
  lemma StepAnswers(s: State, e: Event)
    requires Core(s) && Enabled(s, e)
    ensures var log, log' := s.past.answers, Apply(s, e).past.answers;
            log' == log || (|log'| == |log| + 1 && log'[..|log|] == log && Causes(s, e, log'[|log|]))
  {
    hide Core, Apply, Fresh, Increasing, Known;
    match e
    case PushBulk(c, lifetimes, tokens) => PushOutcome(s, c, lifetimes, tokens);
    case PopBulk(c, max) => PopOutcome(s, c, max);
    case DataArrives(token, data, marked, now) => DataOutcome(s, token, data, marked, now);
    case NackArrives(token, reason, newToken) => NackOutcome(s, token, reason, newToken);
    case CheckTimeout(now, later, newToken) => TurnOutcome(s, now, later, newToken);
    case NextBatch(picks) => BatchOutcome(s, picks);
    case Send(sent, times) => SendOutcome(s, sent, times);
    case _ => AdminOutcome(s, e);
  }

  /** Registration empties the consumer's queue, removal drops it, and closing only closes. */
  lemma AdminOutcome(s: State, e: Event)
    requires Enabled(s, e) && (e.Register? || e.Unregister? || e.Close?)
    ensures var s' := Apply(s, e);
            && s'.past.answers == s.past.answers
            && match e
               case Register(c) => s' == s.(responses := s.responses[c := []], past := s'.past)
               case Unregister(c) => s' == s.(responses := s.responses - {c})
               case _ => s' == s.(closed := true)
  {
  }

  /** The k-th answer of the log was given at an earlier event of the trace, which caused it. */
  ghost predicate CausedEarlier(run: seq<State>, events: seq<Event>, i: nat, k: nat, a: Answer)
    requires i <= |events| < |run|
  {
    exists j :: 0 <= j < i && |run[j].past.answers| == k && Causes(run[j], events[j], a)
  }

  /** In every run, every answer has been caused by an event of its own: whoever gets a packet gets one
      that arrived under the token its request had then, and a failure follows a Nack or nine timeouts. */
  lemma {:induction false} AnswersHaveCauses(run: seq<State>, events: seq<Event>, control: Control, initial: nat, clock: int,
                                             i: nat, k: nat)
    requires IsTrace(run, events, control, initial, clock) && i < |run| && k < |run[i].past.answers|
    ensures CausedEarlier(run, events, i, k, run[i].past.answers[k])
  {
    hide Causes, Inv, Apply, Enabled;
    if i > 0 {
      TraceIsRun(run, events, control, initial, clock);
      PipelineLaws.RunInv(run, control, initial, clock, i - 1);
      InvCore(run[i - 1], initial);
      assert Leads(run[i - 1], events[i - 1], run[i - 1 + 1]);
      StepAnswers(run[i - 1], events[i - 1]);
      var log, log' := run[i - 1].past.answers, run[i].past.answers;
      if k < |log| {
        assert log'[k] == log[k];
        AnswersHaveCauses(run, events, control, initial, clock, i - 1, k);
      } else {
        assert |run[i - 1].past.answers| == k && Causes(run[i - 1], events[i - 1], log'[k]);
      }
    }
  }

  lemma InvCore(s: State, initial: nat)
    requires Inv(s, initial)
    ensures Core(s) && Heard(s)
  {
  }

  lemma {:induction false} DueIsLogged(log: seq<Answer>, c: Consumer, m: nat) returns (k: nat)
    requires m < |AnswersFor(log, c)|
    ensures k < |log| && log[k] == AnswersFor(log, c)[m] && log[k].consumer == c
  {
    var n := |log| - 1;
    if m < |AnswersFor(log[..n], c)| { k := DueIsLogged(log[..n], c, m); } else { k := n; }
  }

  /** The m-th answer that waits for consumer c is an entry of the log, and its own. */
  lemma WaitingIsLogged(s: State, c: Consumer, m: nat) returns (k: nat)
    requires Heard(s) && c in s.responses && m < |s.responses[c]|
    ensures k < |s.past.answers| && s.past.answers[k] == s.responses[c][m] && s.responses[c][m].consumer == c
  {
    assert QueueFits(s, c);
    k := DueIsLogged(s.past.answers[s.past.since[c]..], c, s.past.popped[c] + m);
    k := s.past.since[c] + k;
  }

  /** Every packet that a consumer pops arrived earlier, as Data under the token its request had then. */
  lemma PoppedHasArrived(run: seq<State>, events: seq<Event>, control: Control, initial: nat, clock: int, i: nat,
                         c: Consumer, m: nat)
    requires IsTrace(run, events, control, initial, clock) && i < |run|
    requires c in run[i].responses && m < |run[i].responses[c]| && run[i].responses[c][m].data.Some?
    ensures exists j :: 0 <= j < i && Arrives(run[j], events[j], run[i].responses[c][m]) && run[i].responses[c][m].consumer == c
  {
    hide Inv, Apply, Enabled, Heard;
    TraceIsRun(run, events, control, initial, clock);
    PipelineLaws.RunInv(run, control, initial, clock, i);
    InvCore(run[i], initial);
    var k := WaitingIsLogged(run[i], c, m);
    AnswersHaveCauses(run, events, control, initial, clock, i, k);
    var j :| 0 <= j < i && |run[j].past.answers| == k && Causes(run[j], events[j], run[i].responses[c][m]);
    assert Arrives(run[j], events[j], run[i].responses[c][m]);
  }

  /** With this event the packet of the answer arrives, under the token of the request it answers. */
  predicate Arrives(s: State, e: Event, a: Answer) {
    e.DataArrives? && a.data == Some(e.data) && IsFor(s, e.token, a)
  }
}
