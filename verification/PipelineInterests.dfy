/** The pipeline as the program keeps it: an object whose methods update its queues, tables,
    counters and window in place, proved against the events of `Pipeline`.

    One class stands for the fixed and the adaptive pipeline, whose handlers differ only in that
    the adaptive one calls `DecreaseWindow` and `IncreaseWindow`.  The request queue hands out
    its elements in any order.  `past` is history; `accepted` numbers the Interests and stands
    for the packets themselves. */
module PipelineInterests {
  import opened Numbers
  import opened Options
  import opened WindowControl
  import opened Pipeline
  import opened PipelineInvariant
  import opened PipelineOutcomes

  class PipelineInterests {
    var closed: bool
    var clock: int
    var issued: set<Token>
    var accepted: nat
    var responseQueues: map<Consumer, seq<Answer>>
    var requestQueue: multiset<PendingInterest>
    var pendingInterests: seq<PendingInterest>
    var index: nat
    var size: nat
    var pit: map<Token, PendingInterest>
    var piq: seq<Token>
    var counters: Counters
    const fixed: bool
    var windowSize: nat
    var ssthresh: nat
    var windowIncCounter: nat
    var lastDecrease: int
    ghost const initial: nat
    ghost var past: Past

    ghost predicate Shape()
      reads this
    {
      index + size <= |pendingInterests| && accepted == past.accepted
    }

    /** The part of the batch that has not gone out. */
    function Unsent(): seq<PendingInterest>
      requires index + size <= |pendingInterests|
      reads this`pendingInterests, this`index, this`size
    {
      pendingInterests[index..index + size]
    }

    function Window(): Control
      reads this`windowSize, this`ssthresh, this`windowIncCounter, this`lastDecrease
    {
      if fixed then Fixed(windowSize) else Aimd(windowSize, ssthresh, windowIncCounter, lastDecrease)
    }

    ghost function View(): State
      requires Shape()
      reads this
    {
      State(closed, clock, issued, responseQueues, requestQueue, Unsent(),
            pit, piq, counters, Window(), past)
    }

    ghost predicate Valid()
      reads this
    {
      Shape() && Inv(View(), initial)
    }

    constructor (fixed: bool, windowSize: nat, now: int)
      ensures Valid() && this.fixed == fixed && initial == windowSize
      ensures View() == Init(if fixed then Fixed(windowSize) else Aimd(MIN_WINDOW, windowSize, 0, now), now)
    {
      closed, clock, issued, accepted := false, now, {}, 0;
      responseQueues, requestQueue := map[0 := []], multiset{};
      pendingInterests, index, size := [], 0, 0;
      pit, piq, counters := map[], [], Counters(0, 0, 0, 0, 0);
      this.fixed := fixed;
      this.windowSize := if fixed then windowSize else MIN_WINDOW;
      ssthresh, windowIncCounter, lastDecrease := windowSize, 0, now;
      initial := windowSize;
      past := Init(Fixed(windowSize), now).past;
      new;
      InitInv(Window(), windowSize, now);
    }

    /** The token generator never repeats itself. */
    method Generate() returns (token: Token)
      requires Shape()
      modifies this`issued
      ensures token !in old(issued) && issued == old(issued) + {token}
      ensures Shape() && View() == old(View()).(issued := issued)
    {
      UnusedToken(issued);
      token :| token !in issued;
      issued := issued + {token};
    }

    /** The steady clock. */
    method Now() returns (now: int)
      requires Shape()
      modifies this`clock
      ensures Shape() && clock == now >= old(clock) && View() == old(View()).(clock := now)
    {
      var elapsed: int := *;
      if elapsed > 0 { clock := clock + elapsed; }
      now := clock;
    }

    // -------------------------------------------------------------------------
    // Called by the applications
    // -------------------------------------------------------------------------

    method Close()
      requires Valid()
      modifies this`closed
      ensures Valid() && Leads(old(View()), Event.Close, View())
    {
      hide Inv, Unsent;
      StepKeepsInv(View(), Event.Close, initial);
      if !closed { closed := true; }
    }

    method RegisterConsumer(consumer: Consumer)
      requires Valid()
      modifies this`responseQueues, this`past
      ensures Valid() && Leads(old(View()), Register(consumer), View())
    {
      hide Inv, Unsent;
      StepKeepsInv(View(), Register(consumer), initial);
      responseQueues := responseQueues[consumer := []];
      past := past.(since := past.since[consumer := |past.answers|], popped := past.popped[consumer := 0]);
    }

    method UnregisterConsumer(consumer: Consumer)
      requires Valid()
      modifies this`responseQueues
      ensures Valid() && Leads(old(View()), Unregister(consumer), View())
    {
      hide Inv, Unsent;
      StepKeepsInv(View(), Unregister(consumer), initial);
      responseQueues := responseQueues - {consumer};
    }

    method PushInterestBulk(consumer: Consumer, lifetimes: seq<nat>) returns (ok: bool, ghost tokens: seq<Token>)
      requires Valid()
      modifies this`closed, this`issued, this`accepted, this`requestQueue, this`past
      ensures Valid()
      ensures Leads(old(View()), PushBulk(consumer, lifetimes, tokens), View())
      ensures ok <==> Accepts(old(View()), consumer)
    {
      hide Inv, AdmittedAll;
      ghost var s := View();
      ok := false;
      if closed || consumer !in responseQueues {
        tokens := UnusedTokens(issued, |lifetimes|);
        if !closed { closed := true; }
      } else {
        tokens := EnqueueBulk(consumer, lifetimes);
        ok := true;
      }
      StepKeepsInv(s, PushBulk(consumer, lifetimes, tokens), initial);
    }

    /** The part of a push behind its checks: one pending Interest per packet, enqueued in bulk. */
    method EnqueueBulk(consumer: Consumer, lifetimes: seq<nat>) returns (ghost tokens: seq<Token>)
      requires Shape()
      modifies this`issued, this`accepted, this`requestQueue, this`past
      ensures Shape() && |tokens| == |lifetimes| && Fresh(old(View()), tokens)
      ensures View() == AdmittedAll(old(View()), consumer, lifetimes, tokens)
    {
      hide Inv, Unsent, Window, Prepared, AdmittedAll, Fresh;
      ghost var s := View();
      var newPendingInterests;
      newPendingInterests, tokens := Prepare(s, consumer, lifetimes);
      PreparedAll(s, consumer, lifetimes, tokens, newPendingInterests, issued);
      requestQueue := requestQueue + multiset(newPendingInterests);
      accepted, past := accepted + |lifetimes|, AdmittedAll(s, consumer, lifetimes, tokens).past;
    }

    method Prepare(ghost s: State, consumer: Consumer, lifetimes: seq<nat>)
      returns (newPendingInterests: seq<PendingInterest>, ghost tokens: seq<Token>)
      requires Shape() && issued == s.issued && accepted == s.past.accepted
      modifies this`issued
      ensures Shape() && Prepared(s, consumer, lifetimes, tokens, newPendingInterests, issued)
      ensures View() == old(View()).(issued := issued)
    {
      hide Prepared, View, Inv;
      Fields();
      newPendingInterests, tokens := [], [];
      PrepareNone(s, consumer);
      for i := 0 to |lifetimes|
        invariant |tokens| == i && Prepared(s, consumer, lifetimes[..i], tokens, newPendingInterests, issued)
        invariant Shape() && View() == old(View()).(issued := issued)
      {
        ghost var before := issued;
        var token := Generate();
        PrepareNext(s, consumer, lifetimes[..i], tokens, newPendingInterests, before, lifetimes[i], token);
        assert lifetimes[..i + 1] == lifetimes[..i] + [lifetimes[i]];
        newPendingInterests := newPendingInterests + [PendingInterest(accepted + i, token, consumer, 0, lifetimes[i], 0)];
        tokens := tokens + [token];
      }
      assert lifetimes[..|lifetimes|] == lifetimes;
    }

    method PopDataBulk(consumer: Consumer, max: nat) returns (pkts: seq<Answer>)
      requires Valid()
      modifies this`closed, this`responseQueues, this`past
      ensures Valid()
      ensures Leads(old(View()), PopBulk(consumer, max), View())
      ensures pkts == if old(!closed && consumer in responseQueues)
                      then old(responseQueues[consumer])[..Min(max, |old(responseQueues[consumer])|)] else []
    {
      hide Inv, Unsent;
      QueueKnown(View(), consumer, initial);
      StepKeepsInv(View(), PopBulk(consumer, max), initial);
      pkts := [];
      if closed { return; }
      if consumer !in responseQueues {
        closed := true;
        return;
      }
      var n := if max < |responseQueues[consumer]| then max else |responseQueues[consumer]|;
      pkts := responseQueues[consumer][..n];
      responseQueues := responseQueues[consumer := responseQueues[consumer][n..]];
      past := past.(popped := past.popped[consumer := past.popped[consumer] + n]);
    }

    // -------------------------------------------------------------------------
    // Used by the worker's handlers
    // -------------------------------------------------------------------------

    /** Puts one answer into its consumer's queue; refuses when closed, and closes when there is no
        such queue. */
    method PushData(token: Token, consumer: Consumer, data: Option<nat>) returns (ok: bool)
      requires Shape() && token in pit && pit[token].consumer == consumer && pit[token].id in past.tracks
      modifies this`closed, this`responseQueues, this`past
      ensures Shape() && ok == Accepts(old(View()), consumer)
      ensures ok ==> View() == AnsweredWith(old(View()), token, data).(pit := pit)
      ensures !ok ==> View() == AnsweredWith(old(View()), token, data)
    {
      hide Inv, Unsent;
      if closed { return false; }
      if consumer !in responseQueues {
        closed := true;
        return false;
      }
      var id := pit[token].id;
      past := AnsweredWith(View(), token, data).past;
      responseQueues := responseQueues[consumer := responseQueues[consumer] + [Answer(id, consumer, data)]];
      return true;
    }

    /** Puts a request back into the request queue under a fresh token, unless closed. */
    method RefreshPITEntry(key: Token, timeoutReason: bool) returns (ok: bool, ghost newToken: Token)
      requires Shape() && (key in pit ==> pit[key].id in past.tracks)
      modifies this`closed, this`issued, this`pit, this`requestQueue, this`past
      ensures Shape() && newToken !in old(issued)
      ensures key in old(pit) ==>
                View() == Refreshed(old(View()), key, newToken, timeoutReason) && (ok <==> !old(closed)) && (ok <==> key !in pit)
      ensures key !in old(pit) ==> !ok && View() == old(View()).(closed := true)
    {
      hide Inv, View, Unsent, Window, Refreshed, PendingInterest.Refreshed;
      ghost var s := View();
      Fields();
      ok := false;
      if key in pit {
        var token := Generate();
        newToken := token;
        RefreshedFields(s, key, token, timeoutReason);
        var pendingInterest := pit[key].Refreshed(token, timeoutReason);
        if !closed {
          Erase(key);
          Requeue(pendingInterest, Refreshed(s, key, token, timeoutReason).past);
          ok := true;
        }
      } else {
        ghost var unused := UnusedTokens(issued, 1);
        newToken := unused[0];
        Fault();
      }
      Fields();
    }

    method Requeue(p: PendingInterest, ghost past': Past)
      requires Shape() && past'.accepted == past.accepted
      modifies this`requestQueue, this`past
      ensures Shape() && View() == old(View()).(requests := old(requestQueue) + multiset{p}, past := past')
    {
      requestQueue, past := requestQueue + multiset{p}, past';
    }

    /** At most one effective decrease per round trip; the fixed pipeline has no such method. */
    method DecreaseWindow()
      requires Shape() && !fixed
      modifies this`clock, this`windowSize, this`windowIncCounter, this`ssthresh, this`lastDecrease, this`past
      ensures Shape() && clock >= old(clock) && View() == Halved(old(View()).(clock := clock), clock)
    {
      hide Inv, Unsent, Halved;
      ghost var s := View();
      var now := Now();
      HalvedFields(s.(clock := now), now);
      if now - lastDecrease >= MAX_RTT {
        windowSize := windowSize / 2;
        windowIncCounter := 0;
        windowSize := Max(windowSize, MIN_WINDOW);
        ssthresh := windowSize;
        lastDecrease := now;
        past := past.(halvings := past.halvings + [now]);
      }
    }

    method IncreaseWindow()
      requires Shape() && !fixed
      modifies this`windowSize, this`windowIncCounter
      ensures Shape() && View() == old(View()).(control := Increased(old(Window())))
    {
      hide Inv, Unsent;
      if windowSize < ssthresh {
        windowSize := windowSize + 1;
        return;
      }
      windowIncCounter := windowIncCounter + 1;
      if windowIncCounter >= windowSize {
        windowSize := windowSize + 1;
        windowIncCounter := 0;
        windowSize := Min(windowSize, MAX_WINDOW);
      }
    }

    method Erase(token: Token)
      requires Shape()
      modifies this`pit
      ensures Shape() && View() == old(View()).(pit := old(pit) - {token})
    {
      pit := pit - {token};
    }

    method Count(nack: nat, timeout: nat, rx: nat, unexpected: nat)
      requires Shape()
      modifies this`counters
      ensures Shape() && View() == old(View()).(counters := Added(old(counters), nack, timeout, rx, unexpected))
    {
      counters := Added(counters, nack, timeout, rx, unexpected);
    }

    /** Null marks the error. */
    method Fail(token: Token)
      requires Shape() && token in pit && pit[token].id in past.tracks
      modifies this`closed, this`responseQueues, this`past, this`pit
      ensures Shape() && View() == AnsweredWith(old(View()), token, None)
    {
      hide Inv, AnsweredWith, Window, Unsent;
      AnswerErases(View(), token, None);
      var ok := PushData(token, pit[token].consumer, None);
      if ok { Erase(token); }
    }

    // -------------------------------------------------------------------------
    // The handlers
    // -------------------------------------------------------------------------

    lemma Fields()
      requires Shape()
      ensures View().pit == pit && View().piq == piq && View().past == past && View().closed == closed
      ensures View().issued == issued && View().clock == clock && View().control == Window()
      ensures View().counters == counters && View().batch == Unsent() && View().requests == requestQueue
      ensures Window().Fixed? == fixed && Window().size == windowSize
      ensures View().responses == responseQueues
      ensures |Unsent()| == size && (size > 0 ==> Unsent()[0] == pendingInterests[index])
    {
    }

    method OnData(pitKey: Token, data: nat, marked: bool)
      requires Valid()
      modifies this
      ensures Valid() && Leads(old(View()), DataArrives(pitKey, data, marked, clock), View())
      ensures old(pitKey in pit && !closed && pit[pitKey].consumer in responseQueues) ==>
                Answers(old(View()), View(), pitKey, Some(data))
    {
      hide Inv, Window, View, AnsweredWith, Increased, Halved;
      ghost var s := View();
      InvTraces(s, pitKey, initial);
      Fields();
      Count(0, 0, 1, 0);
      Fields();
      if pitKey !in pit {
        Count(0, 0, 0, 1);
        var now := Now();
      } else {
        Deliver(pitKey, data, marked);
      }
      Fields();
      assert Leads(s, DataArrives(pitKey, data, marked, clock), View());
      DataOutcome(s, pitKey, data, marked, clock);
      StepKeepsInv(s, DataArrives(pitKey, data, marked, clock), initial);
    }

    /** The matched part of `onData`. */
    method Deliver(pitKey: Token, data: nat, marked: bool)
      requires Shape() && pitKey in pit && pit[pitKey].id in past.tracks
      modifies this
      ensures Shape() && clock >= old(clock)
      ensures View() == Delivered(old(View()).(clock := clock), pitKey, data, marked, clock)
    {
      hide Inv, Window, View, AnsweredWith, Increased, Halved;
      ghost var s := View();
      Fields();
      if marked && !fixed { DecreaseWindow(); } else { var now := Now(); }
      FixedHalved(s.(clock := clock), clock);
      HalvedIsAside(s.(clock := clock), clock);
      Fields();
      AnswerErases(View(), pitKey, Some(data));
      var ok := PushData(pitKey, pit[pitKey].consumer, Some(data));
      Fields();
      if ok {
        Erase(pitKey);
        Fields();
        FixedIncreased(Window());
        if !fixed { IncreaseWindow(); }
      }
    }

    method OnNack(pitKey: Token, reason: NackReason) returns (ghost newToken: Token)
      requires Valid()
      modifies this
      ensures Valid() && Leads(old(View()), NackArrives(pitKey, reason, newToken), View())
    {
      hide Inv, Window, View, AnsweredWith, Refreshed, Unsent;
      ghost var s := View();
      InvTraces(s, pitKey, initial);
      Fields();
      newToken := UnusedTokens(issued, 1)[0];
      Count(1, 0, 0, 0);
      Fields();
      if pitKey !in pit {
        Count(0, 0, 0, 1);
      } else {
        match reason
        case NoReason => Ignore();
        case Duplicate =>
          var refreshed;
          refreshed, newToken := RefreshOrFail(pitKey, false);
        case OtherReason => Fail(pitKey);
      }
      assert Leads(s, NackArrives(pitKey, reason, newToken), View());
      StepKeepsInv(s, NackArrives(pitKey, reason, newToken), initial);
      Fields();
    }

    /** A Nack without a reason leaves everything as it is. */
    method Ignore()
      requires Shape()
      modifies this`past
      ensures Shape() && View() == old(View()).(past := old(past).(ignored := old(past).ignored + 1))
    {
      past := past.(ignored := past.ignored + 1);
    }

    method RefreshOrFail(pitKey: Token, timeoutReason: bool) returns (refreshed: bool, ghost newToken: Token)
      requires Shape() && pitKey in pit && pit[pitKey].id in past.tracks
      modifies this`closed, this`issued, this`pit, this`requestQueue, this`past, this`responseQueues
      ensures Shape() && newToken !in old(issued) && refreshed == !old(closed) && (refreshed ==> pitKey !in pit)
      ensures View() == RefreshedOrFailed(old(View()), pitKey, newToken, timeoutReason)
    {
      hide Inv, Window, View, AnsweredWith, Refreshed, Unsent;
      ghost var s := View();
      Fields();
      refreshed, newToken := RefreshPITEntry(pitKey, timeoutReason);
      Fields();
      if !refreshed {
        RefreshKeepsTrack(s, pitKey, newToken, timeoutReason);
        Fail(pitKey);
      }
    }

    /** Works off the expired front of the PIQ. */
    method OnTimeout() returns (ghost readings: seq<Reading>)
      requires Valid()
      modifies this
      ensures Valid() && Loops(old(View()), readings, View())
    {
      hide Inv, View, Window, Unsent, Apply, Enabled, Loops, LoopsThrough;
      readings := [];
      ghost var s := View();
      LoopsNowhere(s);
      while piq != []
        invariant Valid() && LoopsThrough(s, readings, View())
        decreases |piq|
      {
        ghost var before := View();
        Fields();
        var goesOn;
        ghost var r;
        goesOn, r := Turn();
        if !goesOn {
          LoopsToEnd(s, readings, before, [r], View());
          readings := readings + [r];
          return;
        }
        LoopsOn(s, readings, before, r, View());
        readings := readings + [r];
      }
      Fields();
      LoopsToEnd(s, readings, View(), [], View());
      assert readings + [] == readings;
    }

    /** One turn of the loop: whether it goes on, and what it has read. */
    method Turn() returns (goesOn: bool, ghost r: Reading)
      requires Valid() && piq != []
      modifies this
      ensures Valid() && Leads(old(View()), Check(r), View())
      ensures goesOn == TurnContinues(old(View()), r.now) && (goesOn ==> piq == old(piq)[1..])
    {
      hide Inv, View, Window, Unsent, AnsweredWith, RefreshedOrFailed, Halved;
      ghost var s := View();
      Fields();
      var front := piq[0];
      InvTraces(s, front, initial);
      r := Reading(clock, clock, UnusedTokens(issued, 1)[0]);
      if front !in pit {
        goesOn := true;
        DropFront();
      } else {
        var now := Now();
        Fields();
        r := Reading(now, now, r.newToken);
        if !pit[front].IsExpired(now) {
          goesOn := false;
        } else {
          ghost var newToken;
          goesOn, newToken := Expire(front, now);
          r := Reading(now, clock, newToken);
          ClockAgain(s, now, clock, newToken);
        }
      }
      StepKeepsInv(s, Check(r), initial);
    }

    /** Gives an expired request up or retries it. */
    method Expire(front: Token, now: int) returns (goesOn: bool, ghost newToken: Token)
      requires Shape() && piq != [] && piq[0] == front && front in pit && pit[front].id in past.tracks
      requires clock == now && pit[front].IsExpired(now)
      modifies this
      ensures Shape() && clock >= now && newToken !in old(issued)
      ensures goesOn == (!old(closed) && !old(pit[front]).HasReachedMaximumNumOfRetries())
      ensures goesOn ==> piq == old(piq)[1..]
      ensures View() == TimeoutTurn(old(View()), now, clock, newToken)
    {
      hide Inv, View, Window, Unsent, AnsweredWith, RefreshedOrFailed, Halved;
      ghost var s := View();
      Fields();
      Count(0, 1, 0, 0);
      Fields();
      if pit[front].HasReachedMaximumNumOfRetries() {
        goesOn, newToken := false, UnusedTokens(issued, 1)[0];
        Fail(front);
        Fields();
      } else {
        goesOn, newToken := Retry(front);
        TurnRetries(s, now, clock, newToken);
      }
    }

    method DropFront()
      requires Shape() && piq != []
      modifies this`piq
      ensures Shape() && piq == old(piq)[1..] && View() == old(View()).(piq := piq)
    {
      piq := piq[1..];
    }

    /** Retries an expired request under a fresh token. */
    method Retry(front: Token) returns (refreshed: bool, ghost newToken: Token)
      requires Shape() && piq != [] && piq[0] == front && front in pit && pit[front].id in past.tracks
      modifies this
      ensures Shape() && clock >= old(clock) && refreshed == !old(closed) && newToken !in old(issued)
      ensures refreshed ==> piq == old(piq)[1..]
      ensures var s1 := old(View()).(clock := clock);
              var s2 := RefreshedOrFailed(Halved(s1, clock), front, newToken, true);
              View() == if front in s2.pit then s2 else s2.(piq := old(piq)[1..])
    {
      hide Inv, View, Window, Unsent, AnsweredWith, RefreshedOrFailed, Halved;
      ghost var s := View();
      Fields();
      if !fixed { DecreaseWindow(); } else { var now := Now(); }
      FixedHalved(s.(clock := clock), clock);
      HalvedIsAside(s.(clock := clock), clock);
      Fields();
      refreshed, newToken := RefreshOrFail(front, true);
      Fields();
      if front !in pit { DropFront(); }
    }

    // -------------------------------------------------------------------------
    // The worker
    // -------------------------------------------------------------------------

    /** Fetches the next batch: as many requests as the window has room for, at most 64, in any
        order and, unless undisturbed, possibly fewer than there are. */
    method GetNextPendingInterests(undisturbed: bool) returns (ghost picks: seq<PendingInterest>)
      requires Valid() && size == 0 && |pit| < windowSize
      modifies this`requestQueue, this`pendingInterests, this`index, this`size, this`past
      ensures Valid() && Leads(old(View()), NextBatch(picks), View())
      ensures undisturbed && !old(closed) ==> |picks| == Min(Min(windowSize - |pit|, 64), |old(requestQueue)|)
    {
      hide Inv, View, Window, Unsent, TakenAll;
      ghost var s := View();
      Fields();
      var room := windowSize - |pit|;
      var n := if MAX_BATCH < room then MAX_BATCH else room;
      picks := [];
      if closed {
        Empty();
      } else {
        picks := PopPendingInterests(n, undisturbed);
      }
      StepKeepsInv(s, NextBatch(picks), initial);
    }

    method Empty()
      requires Shape() && size == 0
      modifies this`index
      ensures Shape() && View() == old(View())
    {
      index := 0;
    }

    method PopPendingInterests(n: nat, undisturbed: bool) returns (ghost picks: seq<PendingInterest>)
      requires Valid() && size == 0
      modifies this`requestQueue, this`pendingInterests, this`index, this`size, this`past
      ensures Shape() && |picks| <= n && multiset(picks) <= old(requestQueue) && Known(old(View()), picks)
      ensures undisturbed ==> |picks| == Min(n, |old(requestQueue)|)
      ensures View() == TakenAll(old(View()).(past := old(past).(limit := windowSize)), picks)
    {
      hide Inv, Window, TakenAll, Known, View, Unsent;
      ghost var s := View();
      Fields();
      var batch := TryDequeueBulk(n, undisturbed);
      QueueTraced(s, batch, initial);
      ghost var s1 := s.(past := s.past.(limit := windowSize));
      LimitKnown(s, batch, windowSize);
      TakenAllFields(s1, batch);
      Fields();
      Load(batch, TakenAll(s1, batch).past);
      picks := batch;
    }

    method Load(batch: seq<PendingInterest>, ghost past': Past)
      requires Shape() && size == 0 && past'.accepted == past.accepted
      modifies this`pendingInterests, this`index, this`size, this`past
      ensures Shape() && View() == old(View()).(batch := old(View()).batch + batch, past := past')
    {
      hide Inv, Window;
      pendingInterests, index, size, past := batch, 0, |batch|, past';
    }

    /** Any elements of the request queue, at most n; undisturbed, as many as there are up to n. */
    method TryDequeueBulk(n: nat, undisturbed: bool) returns (batch: seq<PendingInterest>)
      requires Shape()
      modifies this`requestQueue
      ensures |batch| <= n && multiset(batch) <= old(requestQueue) && accepted == old(accepted)
      ensures undisturbed ==> |batch| == Min(n, |old(requestQueue)|)
      ensures Shape() && View() == old(View()).(requests := old(requestQueue) - multiset(batch))
    {
      hide Inv, Window, Unsent;
      ghost var all := requestQueue;
      batch := [];
      while |batch| < n && |requestQueue| > 0
        invariant Shape() && |batch| <= n && requestQueue + multiset(batch) == all
      {
        if !undisturbed {
          var enough: bool := *;
          if enough { break; }
        }
        var p :| p in requestQueue;
        requestQueue := requestQueue - multiset{p};
        batch := batch + [p];
      }
      Parts(requestQueue, multiset(batch), all);
    }

    /** Hands what is left of the batch to the face and records what has gone out: nothing if the face
        reports an error, and otherwise as much as it `takes`. */
    method SendBatch(takes: int) returns (ghost sent: int, ghost times: seq<int>)
      requires Valid() && size > 0 && |pit| < windowSize
      modifies this
      ensures Valid() && Leads(old(View()), Send(sent, times), View())
      ensures sent == if takes < 0 then -1 else Min(takes, old(size))
    {
      hide Inv, View, Window, Unsent, Expressed, ExpressedAll, Known, Increasing;
      ghost var s := View();
      Fields();
      BatchTraced(s, initial);
      var n := if takes < 0 then -1 else if takes > size then size else takes;
      sent, times := n, [];
      NoTimes(s.clock);
      if n < 0 {
        Fault();
      } else {
        CountSent(n);
        CountKnown(s, View());
        times := Express(n);
      }
      StepKeepsInv(s, Send(sent, times), initial);
    }

    method Express(n: nat) returns (ghost times: seq<int>)
      requires Shape() && n <= size && Known(View(), View().batch)
      modifies this`clock, this`pendingInterests, this`index, this`size, this`pit, this`piq, this`past
      ensures Shape() && |times| == n && Increasing(old(clock), times) && n <= |old(View()).batch|
      ensures View() == ExpressedAll(old(View()), times)
    {
      hide Inv, View, Window, Unsent, Expressed, ExpressedAll;
      ghost var s := View();
      Fields();
      times := [];
      ExpressedNone(s);
      for i := 0 to n
        invariant Shape() && size == |s.batch| - i && |times| == i && clock >= s.clock
        invariant Increasing(s.clock, times) && (times != [] ==> clock == times[i - 1])
        invariant View() == ExpressedAll(s, times)
      {
        Fields();
        ExpressedFront(s, times);
        ExpressFront();
        ExpressedNext(s, times, clock);
        times := times + [clock];
      }
    }

    method Fault()
      requires Shape()
      modifies this`closed
      ensures Shape() && View() == old(View()).(closed := true)
    {
      closed := true;
    }

    method CountSent(n: nat)
      requires Shape()
      modifies this`counters
      ensures Shape() && View() == old(View()).(counters := old(counters).(tx := old(counters).tx + n))
    {
      counters := counters.(tx := counters.tx + n);
    }

    method ExpressFront()
      requires Shape() && size > 0 && pendingInterests[index].id in past.tracks
      modifies this`clock, this`pendingInterests, this`index, this`size, this`pit, this`piq, this`past
      ensures Shape() && clock >= old(clock) && size == old(size) - 1 && View() == Expressed(old(View()), clock)
    {
      hide Inv, Window, Expressed;
      ghost var s := View();
      var now := Now();
      ExpressedFields(s.(clock := now), now);
      ClockIsOverwritten(s, now);
      var p := pendingInterests[index].(expressedAt := now);
      pendingInterests := pendingInterests[index := p];
      piq := piq + [p.token];
      pit := pit[p.token := p];
      past := Expressed(s, now).past;
      index, size := index + 1, size - 1;
      assert Unsent() == s.batch[1..];
    }

    /** One pass of the worker's loop, apart from what the face delivers. */
    method Iterate(undisturbed: bool, takes: int) returns (ghost readings: seq<Reading>, ghost rested: State, ghost events: seq<Event>)
      requires Valid()
      modifies this
      ensures Valid() && Loops(old(View()), readings, rested) && Executes(rested, events, View())
      ensures IsPass(rested, events)
    {
      hide Inv, View, Window, Unsent, Apply, Enabled, Loops;
      readings := OnTimeout();
      rested, events := View(), [];
      Fields();
      if |pit| >= windowSize { return; }
      if size == 0 {
        ghost var picks := GetNextPendingInterests(undisturbed);
        events := [NextBatch(picks)];
        BatchOutcome(rested, picks);
        Fields();
        assert Executes(rested, events, View());
        if size == 0 { return; }
      }
      ghost var before := View();
      if |pit| < windowSize {
        ghost var sent, times := SendBatch(takes);
        ExecutesThen(rested, events, before, Send(sent, times), View());
        events := events + [Send(sent, times)];
      }
    }
  }

  lemma Parts<T>(a: multiset<T>, b: multiset<T>, all: multiset<T>)
    requires a + b == all
    ensures a == all - b && b <= all && |a| + |b| == |all|
  {
  }

  ghost function UnusedBound(issued: set<Token>): (n: Token)
    ensures forall t :: t in issued ==> t < n
  {
    if issued == {} then 0
    else
      var t :| t in issued;
      var n := UnusedBound(issued - {t});
      assert forall u :: u in issued ==> u == t || u in issued - {t};
      if t < n then n else t + 1
  }

  lemma UnusedToken(issued: set<Token>)
    ensures exists t: Token :: t !in issued
  {
    assert UnusedBound(issued) !in issued;
  }

  ghost function UnusedTokens(issued: set<Token>, n: nat): (tokens: seq<Token>)
    ensures |tokens| == n
    ensures forall i :: 0 <= i < n ==> tokens[i] !in issued
    ensures forall i, j :: 0 <= i < j < n ==> tokens[i] != tokens[j]
  {
    seq(n, i => UnusedBound(issued) + i)
  }

  /** These pending Interests under fresh tokens are what a bulk push admits. */
  ghost predicate Prepared(s: State, consumer: Consumer, lifetimes: seq<nat>, tokens: seq<Token>,
                           prepared: seq<PendingInterest>, issued: set<Token>)
  {
    && |lifetimes| == |tokens| && Fresh(s, tokens) && issued == s.issued + (set t | t in tokens)
    && var s' := AdmittedAll(s, consumer, lifetimes, tokens);
       && s'.past.accepted == s.past.accepted + |tokens|
       && s' == s.(requests := s.requests + multiset(prepared), issued := issued, past := s'.past)
  }

  lemma PrepareNone(s: State, consumer: Consumer)
    ensures Prepared(s, consumer, [], [], [], s.issued)
  {
  }

  lemma PrepareNext(s: State, consumer: Consumer, lifetimes: seq<nat>, tokens: seq<Token>,
                    prepared: seq<PendingInterest>, issued: set<Token>, lifetime: nat, token: Token)
    requires Prepared(s, consumer, lifetimes, tokens, prepared, issued) && token !in issued
    ensures Prepared(s, consumer, lifetimes + [lifetime], tokens + [token],
                     prepared + [PendingInterest(s.past.accepted + |tokens|, token, consumer, 0, lifetime, 0)],
                     issued + {token})
  {
    assert (lifetimes + [lifetime])[..|tokens|] == lifetimes && (tokens + [token])[..|tokens|] == tokens;
  }

  lemma PreparedAll(s: State, consumer: Consumer, lifetimes: seq<nat>, tokens: seq<Token>,
                    prepared: seq<PendingInterest>, issued: set<Token>)
    requires Prepared(s, consumer, lifetimes, tokens, prepared, issued)
    ensures |lifetimes| == |tokens| && Fresh(s, tokens)
    ensures var s' := AdmittedAll(s, consumer, lifetimes, tokens);
            && s'.past.accepted == s.past.accepted + |tokens|
            && s' == s.(requests := s.requests + multiset(prepared), issued := issued, past := s'.past)
  {
  }

  lemma HalvedFields(s: State, now: int)
    ensures if s.control.Aimd? && now - s.control.lastDecrease >= MAX_RTT then
              var size := Max(s.control.size / 2, MIN_WINDOW);
              Halved(s, now) == s.(control := Aimd(size, size, 0, now),
                                   past := s.past.(halvings := s.past.halvings + [now]))
            else Halved(s, now) == s
  {
  }

  lemma RefreshedFields(s: State, key: Token, newToken: Token, timeoutReason: bool)
    requires key in s.pit && s.pit[key].id in s.past.tracks
    ensures var s' := Refreshed(s, key, newToken, timeoutReason);
            if s.closed then s' == s.(issued := s.issued + {newToken})
            else s' == s.(issued := s.issued + {newToken}, pit := s.pit - {key}, past := s'.past,
                          requests := s.requests + multiset{s.pit[key].Refreshed(newToken, timeoutReason)})
                 && s'.past.accepted == s.past.accepted
  {
  }

  lemma QueueKnown(s: State, c: Consumer, initial: nat)
    requires Inv(s, initial)
    ensures c in s.responses ==> c in s.past.popped && s.past.popped.Keys >= {c}
  {
    if c in s.responses { assert QueueFits(s, c); }
  }

  lemma InvTraces(s: State, token: Token, initial: nat)
    requires Inv(s, initial)
    ensures Traced(s, token)
  {
    if token in s.pit { PendingFacts(s, token); }
  }

  /** The fixed window ignores marks and losses. */
  lemma FixedHalved(s: State, now: int)
    ensures s.control.Fixed? ==> Halved(s, now) == s
  {
  }

  /** The loop has come from s to mid with these readings and goes on from there. */
  ghost predicate LoopsThrough(s: State, readings: seq<Reading>, mid: State) {
    forall more, s': State :: Loops(mid, more, s') ==> Loops(s, readings + more, s')
  }

  lemma LoopsNowhere(s: State)
    ensures LoopsThrough(s, [], s)
  {
    assert forall more: seq<Reading> :: [] + more == more;
  }

  lemma LoopsToEnd(s: State, readings: seq<Reading>, mid: State, last: seq<Reading>, s': State)
    requires LoopsThrough(s, readings, mid)
    requires if last == [] then s' == mid && mid.piq == []
             else |last| == 1 && Leads(mid, Check(last[0]), s') && !TurnContinues(mid, last[0].now)
    ensures Loops(s, readings + last, s')
  {
    hide Apply, Enabled;
    assert Loops(mid, last, s');
  }

  lemma LoopsOn(s: State, readings: seq<Reading>, mid: State, r: Reading, next: State)
    requires LoopsThrough(s, readings, mid) && mid.piq != []
    requires Leads(mid, Check(r), next) && TurnContinues(mid, r.now)
    ensures LoopsThrough(s, readings + [r], next)
  {
    hide Apply, Enabled, TurnContinues;
    forall more, s': State | Loops(next, more, s') ensures Loops(s, readings + [r] + more, s') {
      assert ([r] + more)[1..] == more && readings + [r] + more == readings + ([r] + more);
      assert Loops(mid, [r] + more, s');
    }
  }

  lemma LimitKnown(s: State, picks: seq<PendingInterest>, limit: nat)
    requires Known(s, picks)
    ensures Known(s.(past := s.past.(limit := limit)), picks)
  {
  }

  lemma ClockIsOverwritten(s: State, now: int)
    requires s.batch != [] && s.batch[0].id in s.past.tracks
    ensures Expressed(s.(clock := now), now) == Expressed(s, now)
  {
  }

  lemma ClockAgain(s: State, now: int, later: int, newToken: Token)
    requires s.piq != [] && s.piq[0] in s.pit && s.pit[s.piq[0]].id in s.past.tracks && s.pit[s.piq[0]].IsExpired(now)
    ensures TimeoutTurn(s.(clock := now), now, later, newToken) == TimeoutTurn(s, now, later, newToken)
  {
    hide AnsweredWith, RefreshedOrFailed, Halved;
    HalvedIsAside(s.(clock := later, counters := s.counters.(timeout := s.counters.timeout + 1)), later);
  }

  lemma TurnRetries(s: State, now: int, later: int, newToken: Token)
    requires s.piq != [] && s.piq[0] in s.pit && s.pit[s.piq[0]].id in s.past.tracks
    requires s.pit[s.piq[0]].IsExpired(now) && !s.pit[s.piq[0]].HasReachedMaximumNumOfRetries()
    ensures var s1 := s.(clock := later, counters := Added(s.counters, 0, 1, 0, 0));
            var s2 := RefreshedOrFailed(Halved(s1, later), s.piq[0], newToken, true);
            && Halved(s1, later).past.tracks == s.past.tracks && Halved(s1, later).pit == s.pit
            && TimeoutTurn(s, now, later, newToken) == if s.piq[0] in s2.pit then s2 else s2.(piq := s.piq[1..])
  {
    hide RefreshedOrFailed, Decreased;
    RefreshedPiq(Halved(s.(clock := later, counters := Added(s.counters, 0, 1, 0, 0)), later), s.piq[0], newToken);
  }

  lemma RefreshedPiq(s: State, token: Token, newToken: Token)
    requires token in s.pit && s.pit[token].id in s.past.tracks
    ensures RefreshedOrFailed(s, token, newToken, true).piq == s.piq
  {
  }

  lemma FixedIncreased(c: Control)
    ensures c.Fixed? ==> Increased(c) == c
  {
  }

  lemma RefreshKeepsTrack(s: State, token: Token, newToken: Token, timeoutReason: bool)
    requires token in s.pit && s.pit[token].id in s.past.tracks
    ensures Traced(Refreshed(s, token, newToken, timeoutReason), token)
  {
  }

  lemma AnswerErases(s: State, token: Token, data: Option<nat>)
    requires token in s.pit && s.pit[token].id in s.past.tracks
    ensures var s' := AnsweredWith(s, token, data);
            && s'.pit == (if Accepts(s, s.pit[token].consumer) then s.pit - {token} else s.pit)
            && s'.control == s.control
  {
  }

  lemma HalvedIsAside(s: State, now: int)
    ensures var s' := Halved(s, now);
            s' == s.(control := s'.control, past := s'.past) && s'.past.tracks == s.past.tracks
  {
  }

  function Added(c: Counters, nack: nat, timeout: nat, rx: nat, unexpected: nat): Counters {
    c.(nack := c.nack + nack, timeout := c.timeout + timeout, rx := c.rx + rx, rxUnexpected := c.rxUnexpected + unexpected)
  }

  lemma QueueTraced(s: State, picks: seq<PendingInterest>, initial: nat)
    requires Inv(s, initial) && multiset(picks) <= s.requests
    ensures Known(s, picks)
  {
    forall i | 0 <= i < |picks| ensures picks[i].id in s.past.tracks {
      assert picks[i] in multiset(picks);
      QueuedFacts(s, picks[i]);
    }
  }

  lemma BatchTraced(s: State, initial: nat)
    requires Inv(s, initial)
    ensures Known(s, s.batch)
  {
    forall i | 0 <= i < |s.batch| ensures s.batch[i].id in s.past.tracks {
      BatchedFacts(s, i);
    }
  }

  lemma NoTimes(clock: int)
    ensures Increasing(clock, [])
  {
  }

  lemma CountKnown(s: State, s': State)
    requires Known(s, s.batch) && s'.batch == s.batch && s'.past == s.past
    ensures Known(s', s'.batch)
  {
  }

  lemma ExpressedNone(s: State)
    requires Known(s, s.batch)
    ensures ExpressedAll(s, []) == s
  {
  }

  lemma ExpressedFront(s: State, times: seq<int>)
    requires Known(s, s.batch) && |times| < |s.batch|
    ensures var s' := ExpressedAll(s, times); s'.batch != [] && s'.batch[0].id in s'.past.tracks
  {
  }

  lemma ExpressedNext(s: State, times: seq<int>, now: int)
    requires Known(s, s.batch) && |times| < |s.batch|
    requires var s' := ExpressedAll(s, times); s'.batch != [] && s'.batch[0].id in s'.past.tracks
    ensures ExpressedAll(s, times + [now]) == Expressed(ExpressedAll(s, times), now)
  {
    assert (times + [now])[..|times|] == times;
  }

  lemma {:induction false} ExecutesThen(s: State, events: seq<Event>, s': State, e: Event, s'': State)
    requires Executes(s, events, s') && Leads(s', e, s'')
    ensures Executes(s, events + [e], s'')
    decreases |events|
  {
    hide Apply, Enabled;
    if events == [] {
      assert (events + [e])[1..] == [];
    } else {
      ExecutesThen(Apply(s, events[0]), events[1..], s', e, s'');
      assert (events + [e])[1..] == events[1..] + [e];
    }
  }
}
