/** The Interest pipeline as a transition system over its events: application threads that
    register, push and pop, the worker that batches, sends and checks timeouts, and the network
    that delivers Data and Nacks.  A handler touches state shared with other threads only between
    its check of the closed flag and its critical section, so each handler, and each turn of the
    timeout loop, is one step; everything else may happen between two of them.

    Data packets are known by a number, Interests by the order in which they were accepted
    (`id`).  `past` is history: what became of every request, every answer in order, which
    tokens a refresh has superseded, and the window at the last batch. */
module Pipeline {
  import opened Numbers
  import opened Options
  import opened WindowControl

  type Token = nat
  type Consumer = nat
  type RequestId = nat

  const MAX_RETRIES: nat := 8
  const MAX_BATCH: nat := 64

  /** `PendingInterest`; it is copied, never shared.  The lifetime is in milliseconds. */
  datatype PendingInterest = PendingInterest(
    id: RequestId, token: Token, consumer: Consumer, retries: nat, lifetime: nat, expressedAt: int)
  {
    predicate HasReachedMaximumNumOfRetries() { retries >= MAX_RETRIES }

    predicate IsExpired(now: int) { (now - expressedAt) / TICKS_PER_MILLISECOND > lifetime }

    function Refreshed(newToken: Token, timeoutReason: bool): PendingInterest {
      this.(token := newToken, retries := if timeoutReason then retries + 1 else retries)
    }
  }

  /** `data` is `None` for the null that marks a failed request. */
  datatype Answer = Answer(id: RequestId, consumer: Consumer, data: Option<nat>)

  datatype Counters = Counters(nack: nat, timeout: nat, tx: nat, rx: nat, rxUnexpected: nat)

  /** Where a request is: in the request queue, in the unsent part of the worker's batch, in the
      PIT, or answered (by which entry of the answer log). */
  datatype Place =
    | Queued(request: PendingInterest)
    | Batched(request: PendingInterest)
    | Pending(request: PendingInterest)
    | Answered(at: nat)

  /** The whole story of one request. */
  datatype Track = Track(owner: Consumer, lifetime: nat, sends: nat, duplicates: nat, place: Place)

  datatype Past = Past(
    accepted: nat, tracks: map<RequestId, Track>, superseded: set<Token>, answers: seq<Answer>,
    since: map<Consumer, nat>, popped: map<Consumer, nat>, limit: nat, ignored: nat, halvings: seq<int>)

  datatype State = State(
    closed: bool, clock: int, issued: set<Token>,
    responses: map<Consumer, seq<Answer>>, requests: multiset<PendingInterest>, batch: seq<PendingInterest>,
    pit: map<Token, PendingInterest>, piq: seq<Token>, counters: Counters, control: Control, past: Past)

  /** A new pipeline; consumer 0 is registered at once. */
  function Init(control: Control, clock: int): State {
    State(false, clock, {}, map[0 := []], multiset{}, [], map[], [], Counters(0, 0, 0, 0, 0), control,
          Past(0, map[], {}, [], map[0 := 0], map[0 := 0], 0, 0, []))
  }

  // ---------------------------------------------------------------------------
  // The changes events are made of
  // ---------------------------------------------------------------------------

  function Moved(s: State, id: RequestId, sends: nat, duplicates: nat, place: Place): Past
    requires id in s.past.tracks
  {
    s.past.(tracks := s.past.tracks[id := s.past.tracks[id].(sends := sends, duplicates := duplicates, place := place)])
  }

  /** A request enters the request queue under a fresh token. */
  function Admitted(s: State, consumer: Consumer, lifetime: nat, token: Token): State {
    var p := PendingInterest(s.past.accepted, token, consumer, 0, lifetime, 0);
    s.(requests := s.requests + multiset{p}, issued := s.issued + {token},
       past := s.past.(accepted := s.past.accepted + 1,
                       tracks := s.past.tracks[p.id := Track(consumer, lifetime, 0, 0, Queued(p))]))
  }

  function AdmittedAll(s: State, consumer: Consumer, lifetimes: seq<nat>, tokens: seq<Token>): State
    requires |lifetimes| == |tokens|
    decreases |tokens|
  {
    if tokens == [] then s
    else
      var n := |tokens| - 1;
      Admitted(AdmittedAll(s, consumer, lifetimes[..n], tokens[..n]), consumer, lifetimes[n], tokens[n])
  }

  /** The worker takes one request out of the request queue. */
  function Taken(s: State, p: PendingInterest): State
    requires p.id in s.past.tracks
  {
    var t := s.past.tracks[p.id];
    s.(requests := s.requests - multiset{p}, batch := s.batch + [p],
       past := Moved(s, p.id, t.sends, t.duplicates, Batched(p)))
  }

  /** The history knows these requests; the invariant says it knows all. */
  predicate Known(s: State, ps: seq<PendingInterest>) {
    forall i :: 0 <= i < |ps| ==> ps[i].id in s.past.tracks
  }

  function TakenAll(s: State, picks: seq<PendingInterest>): (s': State)
    requires Known(s, picks)
    ensures s'.past.tracks.Keys == s.past.tracks.Keys
    decreases |picks|
  {
    if picks == [] then s
    else
      var n := |picks| - 1;
      Taken(TakenAll(s, picks[..n]), picks[n])
  }

  /** The first unsent request has gone out: into the PIT, its token at the end of the PIQ. */
  function Expressed(s: State, now: int): State
    requires s.batch != [] && s.batch[0].id in s.past.tracks
  {
    var p := s.batch[0].(expressedAt := now);
    var t := s.past.tracks[p.id];
    s.(clock := now, batch := s.batch[1..], pit := s.pit[p.token := p], piq := s.piq + [p.token],
       past := Moved(s, p.id, t.sends + 1, t.duplicates, Pending(p)))
  }

  function ExpressedAll(s: State, times: seq<int>): (s': State)
    requires |times| <= |s.batch| && Known(s, s.batch)
    ensures s'.batch == s.batch[|times|..] && Known(s', s'.batch)
    decreases |times|
  {
    if times == [] then s
    else
      var n := |times| - 1;
      Expressed(ExpressedAll(s, times[..n]), times[n])
  }

  /** `pushData` can put something into this consumer's response queue. */
  predicate Accepts(s: State, c: Consumer) { !s.closed && c in s.responses }

  /** `pushData` for the request under this token, and then erasing its PIT entry; a refusal
      closes the pipeline and leaves the entry. */
  function AnsweredWith(s: State, token: Token, data: Option<nat>): State
    requires token in s.pit && s.pit[token].id in s.past.tracks
  {
    var p := s.pit[token];
    if !Accepts(s, p.consumer) then s.(closed := true)
    else
      var a := Answer(p.id, p.consumer, data);
      var t := s.past.tracks[p.id];
      s.(responses := s.responses[p.consumer := s.responses[p.consumer] + [a]], pit := s.pit - {token},
         past := Moved(s, p.id, t.sends, t.duplicates, Answered(|s.past.answers|)).(answers := s.past.answers + [a]))
  }

  /** `refreshPITEntry`: a fresh token is generated in any case. */
  function Refreshed(s: State, token: Token, newToken: Token, timeoutReason: bool): State
    requires token in s.pit && s.pit[token].id in s.past.tracks
  {
    var s1 := s.(issued := s.issued + {newToken});
    if s.closed then s1
    else
      var p := s.pit[token].Refreshed(newToken, timeoutReason);
      var t := s.past.tracks[p.id];
      s1.(requests := s.requests + multiset{p}, pit := s.pit - {token},
          past := Moved(s, p.id, t.sends, if timeoutReason then t.duplicates else t.duplicates + 1, Queued(p))
                  .(superseded := s.past.superseded + {token}))
  }

  function Halved(s: State, now: int): State {
    s.(control := Decreased(s.control, now),
       past := s.past.(halvings := if DecreaseCounts(s.control, now) then s.past.halvings + [now] else s.past.halvings))
  }

  // ---------------------------------------------------------------------------
  // Events
  // ---------------------------------------------------------------------------

  datatype NackReason = NoReason | Duplicate | OtherReason

  /** Tokens, clock readings, the outcome of a send and what the request queue hands out are
      inputs.  A push of one Interest is a bulk push of one, and likewise for pops. */
  datatype Event =
    | Register(consumer: Consumer)
    | Unregister(consumer: Consumer)
    | PushBulk(consumer: Consumer, lifetimes: seq<nat>, tokens: seq<Token>)
    | PopBulk(consumer: Consumer, max: nat)
    | Close
    | DataArrives(token: Token, data: nat, marked: bool, now: int)
    | NackArrives(token: Token, reason: NackReason, newToken: Token)
    | CheckTimeout(now: int, later: int, newToken: Token)
    | NextBatch(picks: seq<PendingInterest>)
    | Send(sent: int, times: seq<int>)

  function Registered(s: State, c: Consumer): State {
    s.(responses := s.responses[c := []],
       past := s.past.(since := s.past.since[c := |s.past.answers|], popped := s.past.popped[c := 0]))
  }

  function Pushed(s: State, c: Consumer, lifetimes: seq<nat>, tokens: seq<Token>): State
    requires |lifetimes| == |tokens|
  {
    if s.closed then s
    else if c !in s.responses then s.(closed := true)
    else AdmittedAll(s, c, lifetimes, tokens)
  }

  /** How many answers a pop of at most `max` gets. */
  function PopCount(s: State, c: Consumer, max: nat): nat {
    if Accepts(s, c) then Min(max, |s.responses[c]|) else 0
  }

  function Popped(s: State, c: Consumer, max: nat): State
    requires c in s.responses ==> c in s.past.popped
  {
    if s.closed then s
    else if c !in s.responses then s.(closed := true)
    else
      var n := PopCount(s, c, max);
      s.(responses := s.responses[c := s.responses[c][n..]],
         past := s.past.(popped := s.past.popped[c := s.past.popped[c] + n]))
  }

  function Delivered(s: State, token: Token, data: nat, marked: bool, now: int): State
    requires token in s.pit && s.pit[token].id in s.past.tracks
  {
    var s' := AnsweredWith(if marked then Halved(s, now) else s, token, Some(data));
    if token in s'.pit then s' else s'.(control := Increased(s'.control))
  }

  function OnData(s: State, token: Token, data: nat, marked: bool, now: int): State
    requires token in s.pit ==> s.pit[token].id in s.past.tracks
  {
    var s1 := s.(clock := now, counters := s.counters.(rx := s.counters.rx + 1));
    if token !in s.pit then s1.(counters := s1.counters.(rxUnexpected := s1.counters.rxUnexpected + 1))
    else Delivered(s1, token, data, marked, now)
  }

  function OnNack(s: State, token: Token, reason: NackReason, newToken: Token): State
    requires token in s.pit ==> s.pit[token].id in s.past.tracks
  {
    var s1 := s.(counters := s.counters.(nack := s.counters.nack + 1));
    if token !in s.pit then s1.(counters := s1.counters.(rxUnexpected := s1.counters.rxUnexpected + 1))
    else
      match reason
      case NoReason => s1.(past := s1.past.(ignored := s1.past.ignored + 1))
      case Duplicate => RefreshedOrFailed(s1, token, newToken, false)
      case OtherReason => AnsweredWith(s1, token, None)
  }

  /** A refresh that is refused fails the request. */
  function RefreshedOrFailed(s: State, token: Token, newToken: Token, timeoutReason: bool): State
    requires token in s.pit && s.pit[token].id in s.past.tracks
  {
    var s' := Refreshed(s, token, newToken, timeoutReason);
    if token in s'.pit then AnsweredWith(s', token, None) else s'
  }

  /** One turn of the loop in `onTimeout`, on the front of the PIQ. */
  function TimeoutTurn(s: State, now: int, later: int, newToken: Token): State
    requires s.piq != [] && (s.piq[0] in s.pit ==> s.pit[s.piq[0]].id in s.past.tracks)
  {
    var front := s.piq[0];
    if front !in s.pit then s.(piq := s.piq[1..])
    else if !s.pit[front].IsExpired(now) then s.(clock := now)
    else
      var s1 := s.(clock := now, counters := s.counters.(timeout := s.counters.timeout + 1));
      if s.pit[front].HasReachedMaximumNumOfRetries() then AnsweredWith(s1, front, None)
      else
        var s2 := RefreshedOrFailed(Halved(s1.(clock := later), later), front, newToken, true);
        if front in s2.pit then s2 else s2.(piq := s2.piq[1..])
  }

  /** The loop goes on after this turn. */
  predicate TurnContinues(s: State, now: int)
    requires s.piq != []
  {
    s.piq[0] !in s.pit
    || (s.pit[s.piq[0]].IsExpired(now) && !s.pit[s.piq[0]].HasReachedMaximumNumOfRetries() && !s.closed)
  }

  /** The room of the next batch. */
  function Room(s: State): int { Min(s.control.size - |s.pit|, MAX_BATCH) }

  predicate Increasing(from: int, times: seq<int>) {
    && (forall i :: 0 <= i < |times| ==> from <= times[i])
    && (forall i, j :: 0 <= i < j < |times| ==> times[i] <= times[j])
  }

  predicate Fresh(s: State, tokens: seq<Token>) {
    && (forall i :: 0 <= i < |tokens| ==> tokens[i] !in s.issued)
    && (forall i, j :: 0 <= i < j < |tokens| ==> tokens[i] != tokens[j])
  }

  /** A token in the PIT whose request the history knows; the invariant says this is all of them. */
  predicate Traced(s: State, token: Token) {
    token in s.pit ==> s.pit[token].id in s.past.tracks
  }

  predicate Enabled(s: State, e: Event) {
    match e
    case Register(_) => true
    case Unregister(_) => true
    case PushBulk(c, lifetimes, tokens) => |lifetimes| == |tokens| && Fresh(s, tokens)
    case PopBulk(c, max) => c in s.responses ==> c in s.past.popped
    case Close => true
    case DataArrives(token, _, _, now) => s.clock <= now && Traced(s, token)
    case NackArrives(token, _, newToken) => Fresh(s, [newToken]) && Traced(s, token)
    case CheckTimeout(now, later, newToken) =>
      s.clock <= now <= later && Fresh(s, [newToken]) && s.piq != [] && Traced(s, s.piq[0])
    case NextBatch(picks) =>
      && s.batch == [] && |s.pit| < s.control.size && |picks| <= Room(s)
      && (s.closed ==> picks == []) && multiset(picks) <= s.requests && Known(s, picks)
    case Send(sent, times) =>
      && s.batch != [] && |s.pit| < s.control.size && -1 <= sent <= |s.batch|
      && |times| == (if sent < 0 then 0 else sent) && Increasing(s.clock, times) && Known(s, s.batch)
  }

  function Apply(s: State, e: Event): State
    requires Enabled(s, e)
  {
    match e
    case Register(c) => Registered(s, c)
    case Unregister(c) => s.(responses := s.responses - {c})
    case PushBulk(c, lifetimes, tokens) => Pushed(s, c, lifetimes, tokens)
    case PopBulk(c, max) => Popped(s, c, max)
    case Close => s.(closed := true)
    case DataArrives(token, data, marked, now) => OnData(s, token, data, marked, now)
    case NackArrives(token, reason, newToken) => OnNack(s, token, reason, newToken)
    case CheckTimeout(now, later, newToken) => TimeoutTurn(s, now, later, newToken)
    case NextBatch(picks) =>
      if s.closed then s else TakenAll(s.(past := s.past.(limit := s.control.size)), picks)
    case Send(sent, times) =>
      if sent < 0 then s.(closed := true)
      else ExpressedAll(s.(counters := s.counters.(tx := s.counters.tx + sent)), times)
  }

  /** Event e is possible in s and leads to s'. */
  ghost predicate Leads(s: State, e: Event, s': State) {
    Enabled(s, e) && s' == Apply(s, e)
  }

  // ---------------------------------------------------------------------------
  // The whole timeout loop
  // ---------------------------------------------------------------------------

  /** What one turn reads: the clock, the clock again, and a token. */
  datatype Reading = Reading(now: int, later: int, newToken: Token)

  function Check(r: Reading): Event { CheckTimeout(r.now, r.later, r.newToken) }

  /** `onTimeout` leads from s to s' with these readings, one per turn: it turns as long as turns
      go on and the PIQ has a front. */
  ghost predicate Loops(s: State, readings: seq<Reading>, s': State)
    decreases |readings|
  {
    if readings == [] then s' == s && s.piq == []
    else
      && Enabled(s, Check(readings[0]))
      && if TurnContinues(s, readings[0].now) then Loops(Apply(s, Check(readings[0])), readings[1..], s')
         else s' == Apply(s, Check(readings[0])) && |readings| == 1
  }

  /** These events, one after the other, lead from s to s'. */
  ghost predicate Executes(s: State, events: seq<Event>, s': State)
    decreases |events|
  {
    if events == [] then s' == s
    else Enabled(s, events[0]) && Executes(Apply(s, events[0]), events[1..], s')
  }

  /** What one pass of the worker does after its timeouts: nothing if the window has no room; otherwise
      it sends what is left of its batch, and if nothing is left it first fetches one. */
  predicate IsPass(s: State, events: seq<Event>) {
    if |s.pit| >= s.control.size then events == []
    else if s.batch != [] then |events| == 1 && events[0].Send?
    else
      && |events| > 0 && events[0].NextBatch?
      && if events[0].picks == [] then |events| == 1 else |events| == 2 && events[1].Send?
  }
}
