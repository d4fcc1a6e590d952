/** What every event of the Interest pipeline keeps. */
module PipelineInvariant {
  import opened Options
  import opened WindowControl
  import opened Pipeline

  // ---------------------------------------------------------------------------
  // Every request is in exactly one place
  // ---------------------------------------------------------------------------

  function Current(place: Place): Option<PendingInterest> {
    match place
    case Queued(p) => Some(p)
    case Batched(p) => Some(p)
    case Pending(p) => Some(p)
    case Answered(_) => None
  }

  /** A request keeps its consumer and its lifetime, has a live token, retries a bounded number of times, and has
      been sent once per retry and per duplicate Nack, and once more while it is in the PIT. */
  predicate Sound(s: State, id: RequestId, p: PendingInterest, out: nat)
    requires id in s.past.tracks
  {
    var t := s.past.tracks[id];
    && p.id == id && p.consumer == t.owner && p.lifetime == t.lifetime && p.retries <= MAX_RETRIES
    && p.token in s.issued && p.token !in s.past.superseded
    && t.sends == p.retries + t.duplicates + out
  }

  predicate TrackFits(s: State, id: RequestId)
    requires id in s.past.tracks
  {
    match s.past.tracks[id].place
    case Queued(p) => Sound(s, id, p, 0) && p in s.requests
    case Batched(p) => Sound(s, id, p, 0) && p in s.batch
    case Pending(p) => Sound(s, id, p, 1) && p.token in s.pit && s.pit[p.token] == p
    case Answered(at) =>
      && at < |s.past.answers| && s.past.answers[at].id == id
      && s.past.answers[at].consumer == s.past.tracks[id].owner
  }

  predicate IsAt(s: State, id: RequestId, place: Place) {
    id in s.past.tracks && s.past.tracks[id].place == place
  }

  ghost predicate TracksFit(s: State) {
    && (forall id :: id in s.past.tracks ==> TrackFits(s, id))
    && (forall id: RequestId :: id in s.past.tracks <==> id < s.past.accepted)
    && s.past.superseded <= s.issued
  }

  /** Nothing is in the request queue, the batch, the PIT or the answer log that is not there for
      the one request that has this place. */
  ghost predicate PlacesFit(s: State) {
    RequestsFit(s) && BatchFits(s) && PitFits(s) && LogFits(s)
  }

  ghost predicate RequestsFit(s: State) {
    forall p :: p in s.requests ==> s.requests[p] == 1 && IsAt(s, p.id, Queued(p))
  }

  ghost predicate BatchFits(s: State) {
    && (forall k :: 0 <= k < |s.batch| ==> IsAt(s, s.batch[k].id, Batched(s.batch[k])))
    && (forall i, k :: 0 <= i < k < |s.batch| ==> s.batch[i].id != s.batch[k].id)
  }

  ghost predicate PitFits(s: State) {
    forall token :: token in s.pit ==>
      s.pit[token].token == token && IsAt(s, s.pit[token].id, Pending(s.pit[token]))
  }

  ghost predicate LogFits(s: State) {
    forall k :: 0 <= k < |s.past.answers| ==> IsAt(s, s.past.answers[k].id, Answered(k))
  }

  predicate Differ(s: State, i: RequestId, j: RequestId)
    requires i in s.past.tracks && j in s.past.tracks
  {
    var p, q := Current(s.past.tracks[i].place), Current(s.past.tracks[j].place);
    p.Some? && q.Some? && i != j ==> p.value.token != q.value.token
  }

  ghost predicate TokensDiffer(s: State) {
    forall i, j :: i in s.past.tracks && j in s.past.tracks ==> Differ(s, i, j)
  }

  ghost predicate Core(s: State) {
    TracksFit(s) && PlacesFit(s) && TokensDiffer(s)
  }

  predicate HadToken(s: State, id: RequestId, token: Token) {
    && id in s.past.tracks && Current(s.past.tracks[id].place).Some?
    && Current(s.past.tracks[id].place).value.token == token
  }

  /** From s to s' only request id has changed. */
  ghost predicate OthersStay(s: State, s': State, id: RequestId) {
    && id in s'.past.tracks && (id in s.past.tracks || id == s.past.accepted)
    && s'.past.tracks == s.past.tracks[id := s'.past.tracks[id]]
    && s'.past.accepted == (if id in s.past.tracks then s.past.accepted else s.past.accepted + 1)
    && s.issued <= s'.issued && s.past.answers <= s'.past.answers
    && s'.past.superseded <= s'.issued
    && (forall token :: token in s'.past.superseded && token !in s.past.superseded ==> HadToken(s, id, token))
    && (forall p :: p in s.requests && p.id != id ==> p in s'.requests)
    && (forall p :: p in s.batch && p.id != id ==> p in s'.batch)
    && (forall token :: token in s.pit && s.pit[token].id != id ==> token in s'.pit && s'.pit[token] == s.pit[token])
  }

  lemma OtherTrackFits(s: State, s': State, id: RequestId, i: RequestId)
    requires Core(s) && OthersStay(s, s', id) && i in s.past.tracks && i != id
    ensures TrackFits(s', i)
  {
    hide PlacesFit;
    assert TrackFits(s, i);
    if id in s.past.tracks { assert Differ(s, i, id); }
  }

  /** The token of the changed request is its old one or a new one. */
  lemma TokensStayDifferent(s: State, s': State, id: RequestId)
    requires Core(s) && OthersStay(s, s', id)
    requires var q := Current(s'.past.tracks[id].place);
             q.None? || q.value.token !in s.issued || HadToken(s, id, q.value.token)
    ensures TokensDiffer(s')
  {
    hide PlacesFit;
    forall i, j | i in s'.past.tracks && j in s'.past.tracks ensures Differ(s', i, j) {
      if i in s.past.tracks && j in s.past.tracks { assert Differ(s, i, j); }
      if i in s.past.tracks { assert TrackFits(s, i); }
      if j in s.past.tracks { assert TrackFits(s, j); }
    }
  }

  lemma CoreKept(s: State, s': State, id: RequestId)
    requires Core(s) && OthersStay(s, s', id) && TrackFits(s', id) && PlacesFit(s')
    requires var q := Current(s'.past.tracks[id].place);
             q.None? || q.value.token !in s.issued || HadToken(s, id, q.value.token)
    ensures Core(s')
  {
    hide PlacesFit, TrackFits, TokensDiffer;
    forall i | i in s'.past.tracks ensures TrackFits(s', i) {
      if i != id { OtherTrackFits(s, s', id, i); }
    }
    TokensStayDifferent(s, s', id);
  }

  // Each place on its own, when only request id has moved

  ghost predicate MovedOnly(s: State, s': State, id: RequestId) {
    id in s'.past.tracks && s'.past.tracks == s.past.tracks[id := s'.past.tracks[id]]
  }

  lemma RequestsStay(s: State, s': State, id: RequestId)
    requires RequestsFit(s) && MovedOnly(s, s', id) && s'.requests == s.requests
    requires id in s.past.tracks ==> !s.past.tracks[id].place.Queued?
    ensures RequestsFit(s')
  {
  }

  lemma RequestsGain(s: State, s': State, id: RequestId, p: PendingInterest)
    requires RequestsFit(s) && MovedOnly(s, s', id) && s'.requests == s.requests + multiset{p}
    requires id in s.past.tracks ==> !s.past.tracks[id].place.Queued?
    requires p.id == id && s'.past.tracks[id].place == Queued(p)
    ensures RequestsFit(s')
  {
    forall q | q in s'.requests ensures s'.requests[q] == 1 && IsAt(s', q.id, Queued(q)) {
      if q in s.requests { assert IsAt(s, q.id, Queued(q)); }
    }
  }

  lemma RequestsLose(s: State, s': State, id: RequestId, p: PendingInterest)
    requires RequestsFit(s) && MovedOnly(s, s', id) && p in s.requests && p.id == id
    requires s'.requests == s.requests - multiset{p}
    ensures RequestsFit(s')
  {
    assert IsAt(s, id, Queued(p));
    forall q | q in s'.requests ensures s'.requests[q] == 1 && IsAt(s', q.id, Queued(q)) {
      assert q in s.requests && IsAt(s, q.id, Queued(q));
    }
  }

  lemma BatchStays(s: State, s': State, id: RequestId)
    requires BatchFits(s) && MovedOnly(s, s', id) && s'.batch == s.batch
    requires id in s.past.tracks ==> !s.past.tracks[id].place.Batched?
    ensures BatchFits(s')
  {
    forall k | 0 <= k < |s'.batch| ensures IsAt(s', s'.batch[k].id, Batched(s'.batch[k])) {
      assert IsAt(s, s.batch[k].id, Batched(s.batch[k]));
    }
  }

  lemma BatchGains(s: State, s': State, id: RequestId, p: PendingInterest)
    requires BatchFits(s) && MovedOnly(s, s', id) && s'.batch == s.batch + [p]
    requires id in s.past.tracks && !s.past.tracks[id].place.Batched?
    requires p.id == id && s'.past.tracks[id].place == Batched(p)
    ensures BatchFits(s')
  {
    forall k | 0 <= k < |s.batch| ensures IsAt(s', s.batch[k].id, Batched(s.batch[k])) && s.batch[k].id != id {
      assert IsAt(s, s.batch[k].id, Batched(s.batch[k]));
    }
  }

  lemma BatchLoses(s: State, s': State, id: RequestId)
    requires BatchFits(s) && MovedOnly(s, s', id) && s.batch != [] && s.batch[0].id == id && s'.batch == s.batch[1..]
    ensures BatchFits(s')
  {
    forall k | 0 <= k < |s'.batch| ensures IsAt(s', s'.batch[k].id, Batched(s'.batch[k])) {
      assert IsAt(s, s.batch[k + 1].id, Batched(s.batch[k + 1])) && s.batch[0].id != s.batch[k + 1].id;
    }
  }

  lemma PitStays(s: State, s': State, id: RequestId)
    requires PitFits(s) && MovedOnly(s, s', id) && s'.pit == s.pit
    requires id in s.past.tracks ==> !s.past.tracks[id].place.Pending?
    ensures PitFits(s')
  {
  }

  lemma PitGains(s: State, s': State, id: RequestId, p: PendingInterest)
    requires PitFits(s) && MovedOnly(s, s', id) && s'.pit == s.pit[p.token := p]
    requires id in s.past.tracks && !s.past.tracks[id].place.Pending?
    requires p.id == id && s'.past.tracks[id].place == Pending(p)
    ensures PitFits(s')
  {
  }

  lemma PitLoses(s: State, s': State, id: RequestId, token: Token)
    requires PitFits(s) && MovedOnly(s, s', id) && token in s.pit && s.pit[token].id == id && s'.pit == s.pit - {token}
    ensures PitFits(s')
  {
    assert IsAt(s, id, Pending(s.pit[token]));
    forall other | other in s'.pit ensures IsAt(s', s'.pit[other].id, Pending(s'.pit[other])) {
      assert IsAt(s, s.pit[other].id, Pending(s.pit[other]));
    }
  }

  lemma LogStays(s: State, s': State, id: RequestId)
    requires LogFits(s) && MovedOnly(s, s', id) && s'.past.answers == s.past.answers
    requires id in s.past.tracks ==> !s.past.tracks[id].place.Answered?
    ensures LogFits(s')
  {
    forall k | 0 <= k < |s'.past.answers| ensures IsAt(s', s'.past.answers[k].id, Answered(k)) {
      assert IsAt(s, s.past.answers[k].id, Answered(k));
    }
  }

  lemma LogGains(s: State, s': State, id: RequestId, a: Answer)
    requires LogFits(s) && MovedOnly(s, s', id) && s'.past.answers == s.past.answers + [a]
    requires id in s.past.tracks && !s.past.tracks[id].place.Answered?
    requires a.id == id && s'.past.tracks[id].place == Answered(|s.past.answers|)
    ensures LogFits(s')
  {
    forall k | 0 <= k < |s.past.answers| ensures IsAt(s', s.past.answers[k].id, Answered(k)) {
      assert IsAt(s, s.past.answers[k].id, Answered(k));
    }
  }

  // Each change keeps the core

  lemma AdmitKeepsCore(s: State, consumer: Consumer, lifetime: nat, token: Token)
    requires Core(s) && token !in s.issued
    ensures Core(Admitted(s, consumer, lifetime, token))
  {
    hide RequestsFit, BatchFits, PitFits, LogFits, TokensDiffer;
    var s', id := Admitted(s, consumer, lifetime, token), s.past.accepted;
    RequestsGain(s, s', id, PendingInterest(id, token, consumer, 0, lifetime, 0));
    BatchStays(s, s', id);
    PitStays(s, s', id);
    LogStays(s, s', id);
    CoreKept(s, s', id);
  }

  lemma TakeKeepsCore(s: State, p: PendingInterest)
    requires Core(s) && p in s.requests && p.id in s.past.tracks
    ensures Core(Taken(s, p))
  {
    hide RequestsFit, BatchFits, PitFits, LogFits, TokensDiffer, TracksFit;
    QueuedFacts(s, p);
    var s' := Taken(s, p);
    RequestsLose(s, s', p.id, p);
    BatchGains(s, s', p.id, p);
    PitStays(s, s', p.id);
    LogStays(s, s', p.id);
    SupersededIssued(s);
    CoreKept(s, s', p.id);
  }

  lemma SupersededIssued(s: State)
    requires TracksFit(s)
    ensures s.past.superseded <= s.issued
  {
  }

  lemma QueuedFacts(s: State, p: PendingInterest)
    requires Core(s) && p in s.requests
    ensures IsAt(s, p.id, Queued(p)) && TrackFits(s, p.id)
  {
  }

  lemma BatchedFacts(s: State, k: nat)
    requires Core(s) && k < |s.batch|
    ensures IsAt(s, s.batch[k].id, Batched(s.batch[k])) && TrackFits(s, s.batch[k].id)
  {
  }

  lemma PendingFacts(s: State, token: Token)
    requires Core(s) && token in s.pit
    ensures IsAt(s, s.pit[token].id, Pending(s.pit[token])) && TrackFits(s, s.pit[token].id)
    ensures s.pit[token].token == token
  {
  }

  lemma ExpressLeavesOthers(s: State, now: int)
    requires Core(s) && s.batch != [] && s.batch[0].id in s.past.tracks
    ensures OthersStay(s, Expressed(s, now), s.batch[0].id)
  {
    hide RequestsFit, LogFits;
    var s', id := Expressed(s, now), s.batch[0].id;
    BatchedFacts(s, 0);
    forall p | p in s.batch && p.id != id ensures p in s'.batch {
      var k :| 0 <= k < |s.batch| && s.batch[k] == p;
      assert s'.batch[k - 1] == p;
    }
    forall token | token in s.pit && s.pit[token].id != id ensures token in s'.pit && s'.pit[token] == s.pit[token] {
      PendingFacts(s, token);
      assert Differ(s, id, s.pit[token].id);
    }
  }

  lemma ExpressKeepsCore(s: State, now: int)
    requires Core(s) && s.batch != [] && s.batch[0].id in s.past.tracks
    ensures Core(Expressed(s, now))
  {
    hide RequestsFit, BatchFits, PitFits, LogFits, TokensDiffer, TracksFit, OthersStay;
    var s', id := Expressed(s, now), s.batch[0].id;
    BatchedFacts(s, 0);
    ExpressLeavesOthers(s, now);
    RequestsStay(s, s', id);
    BatchLoses(s, s', id);
    PitGains(s, s', id, s.batch[0].(expressedAt := now));
    LogStays(s, s', id);
    CoreKept(s, s', id);
  }

  lemma AnswerKeepsCore(s: State, token: Token, data: Option<nat>)
    requires Core(s) && token in s.pit && s.pit[token].id in s.past.tracks
    ensures Core(AnsweredWith(s, token, data))
  {
    hide RequestsFit, BatchFits, PitFits, LogFits, TokensDiffer, TracksFit;
    var s', id := AnsweredWith(s, token, data), s.pit[token].id;
    PendingFacts(s, token);
    if Accepts(s, s.pit[token].consumer) {
      RequestsStay(s, s', id);
      BatchStays(s, s', id);
      PitLoses(s, s', id, token);
      LogGains(s, s', id, Answer(id, s.pit[token].consumer, data));
      SupersededIssued(s);
      CoreKept(s, s', id);
    } else {
      SameCore(s, s');
    }
  }

  lemma RefreshKeepsCore(s: State, token: Token, newToken: Token, timeoutReason: bool)
    requires Core(s) && token in s.pit && s.pit[token].id in s.past.tracks && newToken !in s.issued
    requires timeoutReason ==> s.pit[token].retries < MAX_RETRIES
    ensures Core(Refreshed(s, token, newToken, timeoutReason))
  {
    hide RequestsFit, BatchFits, PitFits, LogFits, TokensDiffer, TracksFit;
    var s', id := Refreshed(s, token, newToken, timeoutReason), s.pit[token].id;
    PendingFacts(s, token);
    if s.closed {
      SameCore(s, s');
    } else {
      RequestsGain(s, s', id, s.pit[token].Refreshed(newToken, timeoutReason));
      BatchStays(s, s', id);
      PitLoses(s, s', id, token);
      LogStays(s, s', id);
      SupersededIssued(s);
      CoreKept(s, s', id);
    }
  }

  /** Whatever is not a place, a track or the log does not matter here. */
  ghost predicate SameCoreFields(s: State, s': State) {
    && s.issued <= s'.issued && s'.requests == s.requests && s'.batch == s.batch && s'.pit == s.pit
    && s'.past.tracks == s.past.tracks && s'.past.accepted == s.past.accepted
    && s'.past.superseded == s.past.superseded && s'.past.answers == s.past.answers
  }

  lemma SameCore(s: State, s': State)
    requires Core(s) && SameCoreFields(s, s')
    ensures Core(s')
  {
    SameTracks(s, s');
    hide TracksFit, TrackFits;
    forall i, j | i in s'.past.tracks && j in s'.past.tracks ensures Differ(s', i, j) {
      assert Differ(s, i, j);
    }
    assert LogFits(s') by { SameLog(s, s'); }
  }

  lemma SameTracks(s: State, s': State)
    requires TracksFit(s) && SameCoreFields(s, s')
    ensures TracksFit(s')
  {
    forall i | i in s'.past.tracks ensures TrackFits(s', i) {
      assert TrackFits(s, i);
    }
  }

  lemma SameLog(s: State, s': State)
    requires LogFits(s) && SameCoreFields(s, s')
    ensures LogFits(s')
  {
    forall k | 0 <= k < |s'.past.answers| ensures IsAt(s', s'.past.answers[k].id, Answered(k)) {
      assert IsAt(s, s.past.answers[k].id, Answered(k));
    }
  }

  // ---------------------------------------------------------------------------
  // The PIQ: no timeout is lost
  // ---------------------------------------------------------------------------

  /** A request that has not gone out under its token has no place in the PIQ. */
  predicate UnsentFits(s: State, id: RequestId)
    requires id in s.past.tracks
  {
    match s.past.tracks[id].place
    case Queued(p) => p.token !in s.piq
    case Batched(p) => p.token !in s.piq
    case _ => true
  }

  predicate InOrder(s: State, i: nat, j: nat)
    requires i < |s.piq| && j < |s.piq|
  {
    s.piq[i] in s.pit && s.piq[j] in s.pit ==> s.pit[s.piq[i]].expressedAt <= s.pit[s.piq[j]].expressedAt
  }

  /** Every PIT token occurs exactly once in the PIQ, and live entries are in order of expression. */
  ghost predicate Ordered(s: State) {
    && (forall i, j :: 0 <= i < j < |s.piq| ==> s.piq[i] != s.piq[j])
    && (forall k :: 0 <= k < |s.piq| ==> s.piq[k] in s.issued)
    && (forall token :: token in s.pit ==> token in s.piq && s.pit[token].expressedAt <= s.clock)
    && (forall id :: id in s.past.tracks ==> UnsentFits(s, id))
    && (forall i: nat, j: nat :: i < j < |s.piq| ==> InOrder(s, i, j))
  }

  /** Steps that express nothing, with at most request id moved. */
  lemma OrderStays(s: State, s': State, id: RequestId)
    requires Ordered(s) && s'.piq == s.piq && s.clock <= s'.clock && s.issued <= s'.issued
    requires s'.past.tracks == s.past.tracks || MovedOnly(s, s', id)
    requires forall token :: token in s'.pit ==> token in s.pit && s'.pit[token] == s.pit[token]
    requires id in s'.past.tracks ==> UnsentFits(s', id)
    ensures Ordered(s')
  {
    forall i: nat, j: nat | i < j < |s'.piq| ensures InOrder(s', i, j) {
      assert InOrder(s, i, j);
    }
    forall i | i in s'.past.tracks ensures UnsentFits(s', i) {
      if i != id { assert UnsentFits(s, i); }
    }
  }

  lemma ExpressKeepsOrder(s: State, now: int)
    requires Core(s) && Ordered(s) && s.batch != [] && s.batch[0].id in s.past.tracks && s.clock <= now
    ensures Ordered(Expressed(s, now))
  {
    hide RequestsFit, PitFits, LogFits;
    var s', p := Expressed(s, now), s.batch[0];
    BatchedFacts(s, 0);
    assert UnsentFits(s, p.id);
    forall i: nat, j: nat | i < j < |s'.piq| ensures InOrder(s', i, j) {
      if j < |s.piq| { assert InOrder(s, i, j); }
    }
    forall i | i in s'.past.tracks ensures UnsentFits(s', i) {
      if i != p.id { assert UnsentFits(s, i) && Differ(s, i, p.id); }
    }
  }

  /** A dead front may be dropped. */
  lemma DropKeepsOrder(s: State, s': State)
    requires Ordered(s) && s.piq != [] && s.piq[0] !in s.pit && s' == s.(piq := s.piq[1..])
    ensures Ordered(s')
  {
    forall token | token in s'.pit ensures token in s'.piq {
      var k :| 0 <= k < |s.piq| && s.piq[k] == token;
      assert s'.piq[k - 1] == token;
    }
    forall i: nat, j: nat | i < j < |s'.piq| ensures InOrder(s', i, j) {
      assert InOrder(s, i + 1, j + 1);
    }
    forall i | i in s'.past.tracks ensures UnsentFits(s', i) {
      assert UnsentFits(s, i);
    }
  }

  // ---------------------------------------------------------------------------
  // Answers reach their own consumer's queue, in order
  // ---------------------------------------------------------------------------

  function AnswersFor(log: seq<Answer>, c: Consumer): seq<Answer> {
    if log == [] then []
    else
      var n := |log| - 1;
      AnswersFor(log[..n], c) + if log[n].consumer == c then [log[n]] else []
  }

  /** A response queue holds exactly the answers for its consumer since it registered, in the
      order they were given, less those it has already popped. */
  ghost predicate QueueFits(s: State, c: Consumer)
    requires c in s.responses
  {
    && c in s.past.since && c in s.past.popped && s.past.since[c] <= |s.past.answers|
    && var due := AnswersFor(s.past.answers[s.past.since[c]..], c);
       s.past.popped[c] <= |due| && s.responses[c] == due[s.past.popped[c]..]
  }

  ghost predicate Heard(s: State) {
    forall c :: c in s.responses ==> QueueFits(s, c)
  }

  /** One more answer is due to its consumer alone. */
  lemma OneMoreDue(log: seq<Answer>, since: nat, a: Answer, c: Consumer)
    requires since <= |log|
    ensures AnswersFor((log + [a])[since..], c) == AnswersFor(log[since..], c) + if a.consumer == c then [a] else []
  {
    assert (log + [a])[since..] == log[since..] + [a];
    assert (log[since..] + [a])[..|log| - since] == log[since..];
  }

  lemma QueueStays(s: State, s': State, a: Answer, c: Consumer)
    requires c in s.responses && QueueFits(s, c) && c in s'.responses
    requires s'.past.since == s.past.since && s'.past.popped == s.past.popped && s'.past.answers == s.past.answers + [a]
    requires s'.responses[c] == s.responses[c] + if a.consumer == c then [a] else []
    ensures QueueFits(s', c)
  {
    hide AnswersFor;
    OneMoreDue(s.past.answers, s.past.since[c], a, c);
  }

  lemma AnswerKeepsQueues(s: State, token: Token, data: Option<nat>)
    requires Heard(s) && token in s.pit && s.pit[token].id in s.past.tracks
    ensures Heard(AnsweredWith(s, token, data))
  {
    hide AnswersFor;
    var s', p := AnsweredWith(s, token, data), s.pit[token];
    if Accepts(s, p.consumer) {
      hide QueueFits;
      forall c | c in s'.responses ensures QueueFits(s', c) {
        QueueStays(s, s', Answer(p.id, p.consumer, data), c);
      }
    }
  }

  lemma PopKeepsQueues(s: State, c: Consumer, max: nat)
    requires Heard(s) && (c in s.responses ==> c in s.past.popped)
    ensures Heard(Popped(s, c, max))
  {
    hide AnswersFor;
    var s' := Popped(s, c, max);
    forall d | d in s'.responses ensures QueueFits(s', d) {
      assert QueueFits(s, d);
    }
  }

  lemma RegisterKeepsQueues(s: State, c: Consumer)
    requires Heard(s)
    ensures Heard(Registered(s, c))
  {
    var s' := Registered(s, c);
    forall d | d in s'.responses ensures QueueFits(s', d) {
      if d != c { assert QueueFits(s, d); }
    }
  }

  lemma QueuesStay(s: State, s': State)
    requires Heard(s) && s'.responses.Keys <= s.responses.Keys
    requires forall c :: c in s'.responses ==> s'.responses[c] == s.responses[c]
    requires s'.past.since == s.past.since && s'.past.popped == s.past.popped && s'.past.answers == s.past.answers
    ensures Heard(s')
  {
    hide AnswersFor;
    forall c | c in s'.responses ensures QueueFits(s', c) {
      assert QueueFits(s, c);
    }
  }

  // ---------------------------------------------------------------------------
  // The invariant of the pipeline
  // ---------------------------------------------------------------------------

  ghost predicate Good(s: State) {
    Core(s) && Ordered(s) && Heard(s)
  }

  /** What is out or about to go out fits the window at the last batch. */
  predicate FlightFits(s: State) {
    && |s.pit| + |s.batch| <= s.past.limit
    && (s.control.Fixed? ==> s.past.limit <= s.control.size)
  }

  /** What the counters say has come in and gone out accounts for the PIT. */
  function Surplus(s: State): int {
    s.counters.tx + s.counters.rxUnexpected + s.past.ignored
    - s.counters.rx - s.counters.nack - s.counters.timeout - |s.pit|
  }

  predicate Balanced(s: State) { !s.closed ==> Surplus(s) == 0 }

  predicate HalvingsFit(s: State) {
    && Spaced(s.past.halvings)
    && (s.control.Aimd? && s.past.halvings != [] ==>
          s.past.halvings[|s.past.halvings| - 1] == s.control.lastDecrease)
  }

  ghost predicate Inv(s: State, initial: nat) {
    Good(s) && FlightFits(s) && Balanced(s) && ControlFits(s.control, initial) && HalvingsFit(s)
  }

  lemma InitInv(control: Control, initial: nat, clock: int)
    requires ControlFits(control, initial)
    ensures Inv(Init(control, clock), initial)
  {
  }

  // Each change, as far as places, order and queues are concerned

  ghost predicate Aside(s: State, s': State) {
    && s'.closed == s.closed && s'.responses == s.responses && s'.counters == s.counters && s'.control == s.control
    && s'.past.limit == s.past.limit && s'.past.ignored == s.past.ignored && s'.past.halvings == s.past.halvings
  }

  lemma AdmitGood(s: State, consumer: Consumer, lifetime: nat, token: Token)
    requires Good(s) && token !in s.issued
    ensures Good(Admitted(s, consumer, lifetime, token))
  {
    hide Core, Heard;
    var s' := Admitted(s, consumer, lifetime, token);
    AdmitKeepsCore(s, consumer, lifetime, token);
    OrderStays(s, s', s.past.accepted);
    QueuesStay(s, s');
  }

  lemma TakeGood(s: State, p: PendingInterest)
    requires Good(s) && p in s.requests && p.id in s.past.tracks
    ensures Good(Taken(s, p)) && Aside(s, Taken(s, p))
  {
    hide Core, Heard;
    var s' := Taken(s, p);
    TakeKeepsCore(s, p);
    QueuedFacts(s, p);
    OrderStays(s, s', p.id);
    QueuesStay(s, s');
  }

  lemma ExpressGood(s: State, now: int)
    requires Good(s) && s.batch != [] && s.batch[0].id in s.past.tracks && s.clock <= now
    ensures Good(Expressed(s, now)) && s.batch[0].token !in s.pit
  {
    hide Core, Heard, Ordered;
    ExpressKeepsCore(s, now);
    ExpressKeepsOrder(s, now);
    QueuesStay(s, Expressed(s, now));
    UnsentToken(s);
  }

  lemma UnsentToken(s: State)
    requires Core(s) && Ordered(s) && s.batch != []
    ensures s.batch[0].token !in s.pit
  {
    BatchedFacts(s, 0);
    assert UnsentFits(s, s.batch[0].id);
  }

  lemma AnswerGood(s: State, token: Token, data: Option<nat>)
    requires Good(s) && token in s.pit && s.pit[token].id in s.past.tracks
    ensures Good(AnsweredWith(s, token, data))
  {
    hide Core, Heard;
    AnswerKeepsCore(s, token, data);
    PendingFacts(s, token);
    OrderStays(s, AnsweredWith(s, token, data), s.pit[token].id);
    AnswerKeepsQueues(s, token, data);
  }

  lemma RefreshGood(s: State, token: Token, newToken: Token, timeoutReason: bool)
    requires Good(s) && token in s.pit && s.pit[token].id in s.past.tracks && newToken !in s.issued
    requires timeoutReason ==> s.pit[token].retries < MAX_RETRIES
    ensures Good(Refreshed(s, token, newToken, timeoutReason))
  {
    hide Core, Heard;
    var s' := Refreshed(s, token, newToken, timeoutReason);
    RefreshKeepsCore(s, token, newToken, timeoutReason);
    PendingFacts(s, token);
    OrderStays(s, s', s.pit[token].id);
    QueuesStay(s, s');
  }

  /** Counters, window, the closed flag and the advancing clock do not matter. */
  lemma SameGood(s: State, s': State)
    requires Good(s) && SameCoreFields(s, s') && s'.piq == s.piq && s.clock <= s'.clock
    requires s'.responses.Keys <= s.responses.Keys
    requires forall c :: c in s'.responses ==> s'.responses[c] == s.responses[c]
    requires s'.past.since == s.past.since && s'.past.popped == s.past.popped
    ensures Good(s')
  {
    hide Core, Heard, Ordered, UnsentFits;
    SameCore(s, s');
    SameOrder(s, s');
    QueuesStay(s, s');
  }

  lemma SameOrder(s: State, s': State)
    requires Ordered(s) && s'.piq == s.piq && s.clock <= s'.clock && s.issued <= s'.issued
    requires s'.past.tracks == s.past.tracks && s'.pit == s.pit
    ensures Ordered(s')
  {
    OrderStays(s, s', 0);
  }

  // Runs of changes

  lemma {:induction false} AdmitAllGood(s: State, c: Consumer, lifetimes: seq<nat>, tokens: seq<Token>)
    requires Good(s) && |lifetimes| == |tokens| && Fresh(s, tokens)
    ensures var s' := AdmittedAll(s, c, lifetimes, tokens);
            && Good(s') && Aside(s, s') && s'.pit == s.pit && s'.batch == s.batch && s'.clock == s.clock
            && s'.past.accepted == s.past.accepted + |tokens|
            && forall token :: token in s'.issued ==> token in s.issued || token in tokens
    decreases |tokens|
  {
    hide Good;
    if tokens != [] {
      var n := |tokens| - 1;
      AdmitAllGood(s, c, lifetimes[..n], tokens[..n]);
      AdmitGood(AdmittedAll(s, c, lifetimes[..n], tokens[..n]), c, lifetimes[n], tokens[n]);
    }
  }

  lemma {:induction false} TakeAllGood(s: State, picks: seq<PendingInterest>)
    requires Good(s) && multiset(picks) <= s.requests && Known(s, picks)
    ensures var s' := TakenAll(s, picks);
            && Good(s') && Aside(s, s') && s'.pit == s.pit && s'.batch == s.batch + picks && s'.clock == s.clock
            && s'.requests == s.requests - multiset(picks)
    decreases |picks|
  {
    hide Good, Aside;
    if picks == [] {
      AsideItself(s);
    } else {
      var n := |picks| - 1;
      SplitLast(picks);
      TakeAllGood(s, picks[..n]);
      var s1 := TakenAll(s, picks[..n]);
      assert picks[n] in s1.requests;
      TakeGood(s1, picks[n]);
      AsideComposes(s, s1, Taken(s1, picks[n]));
    }
  }

  lemma AsideItself(s: State)
    ensures Aside(s, s)
  {
  }

  lemma AsideComposes(s: State, s': State, s'': State)
    requires Aside(s, s') && Aside(s', s'')
    ensures Aside(s, s'')
  {
  }

  lemma SplitLast<T>(xs: seq<T>)
    requires xs != []
    ensures xs == xs[..|xs| - 1] + [xs[|xs| - 1]]
    ensures multiset(xs) == multiset(xs[..|xs| - 1]) + multiset{xs[|xs| - 1]}
  {
    assert xs == xs[..|xs| - 1] + [xs[|xs| - 1]];
  }

  lemma {:induction false} ExpressAllGood(s: State, times: seq<int>)
    requires Good(s) && |times| <= |s.batch| && Known(s, s.batch) && Increasing(s.clock, times)
    ensures var s' := ExpressedAll(s, times);
            && Good(s') && Aside(s, s') && |s'.pit| == |s.pit| + |times| && s'.requests == s.requests
            && s'.clock == if times == [] then s.clock else times[|times| - 1]
    decreases |times|
  {
    hide Good;
    if times != [] {
      var n := |times| - 1;
      ExpressAllGood(s, times[..n]);
      ExpressGood(ExpressedAll(s, times[..n]), times[n]);
    }
  }

  // ---------------------------------------------------------------------------
  // Every event keeps the invariant
  // ---------------------------------------------------------------------------

  lemma RegisterGood(s: State, c: Consumer)
    requires Good(s)
    ensures Good(Registered(s, c))
  {
    hide Core, Ordered, Heard;
    SameCore(s, Registered(s, c));
    SameOrder(s, Registered(s, c));
    RegisterKeepsQueues(s, c);
  }

  lemma PopGood(s: State, c: Consumer, max: nat)
    requires Good(s) && (c in s.responses ==> c in s.past.popped)
    ensures Good(Popped(s, c, max))
  {
    hide Core, Ordered, Heard;
    SameCore(s, Popped(s, c, max));
    SameOrder(s, Popped(s, c, max));
    PopKeepsQueues(s, c, max);
  }

  lemma ApplicationKeepsInv(s: State, e: Event, initial: nat)
    requires Inv(s, initial) && Enabled(s, e)
    requires e.Register? || e.Unregister? || e.PushBulk? || e.PopBulk? || e.Close?
    ensures Inv(Apply(s, e), initial)
  {
    hide Good, ControlFits, HalvingsFit, Fresh;
    var s' := Apply(s, e);
    match e {
      case Register(c) => RegisterGood(s, c);
      case PopBulk(c, max) => PopGood(s, c, max);
      case PushBulk(c, lifetimes, tokens) =>
        if !s.closed && c in s.responses { AdmitAllGood(s, c, lifetimes, tokens); } else { SameGood(s, s'); }
      case Unregister(_) => SameGood(s, s');
      case Close => SameGood(s, s');
    }
    SameHalvings(s, s');
  }

  lemma BatchKeepsInv(s: State, picks: seq<PendingInterest>, initial: nat)
    requires Inv(s, initial) && Enabled(s, NextBatch(picks))
    ensures Inv(Apply(s, NextBatch(picks)), initial)
  {
    hide Good, ControlFits, HalvingsFit;
    var s1 := s.(past := s.past.(limit := s.control.size));
    SameGood(s, s1);
    if !s.closed { TakeAllGood(s1, picks); }
    SameHalvings(s, Apply(s, NextBatch(picks)));
  }

  lemma CloseKeepsInv(s: State, initial: nat)
    requires Inv(s, initial)
    ensures Inv(s.(closed := true), initial)
  {
    hide Good, ControlFits;
    SameGood(s, s.(closed := true));
  }

  lemma SendKeepsInv(s: State, times: seq<int>, initial: nat)
    requires Inv(s, initial) && |times| <= |s.batch| && Known(s, s.batch) && Increasing(s.clock, times)
    ensures Inv(ExpressedAll(s.(counters := s.counters.(tx := s.counters.tx + |times|)), times), initial)
  {
    hide Good, ControlFits, HalvingsFit, Increasing;
    var s1 := s.(counters := s.counters.(tx := s.counters.tx + |times|));
    SameGood(s, s1);
    ExpressAllGood(s1, times);
    SameHalvings(s, ExpressedAll(s1, times));
  }

  /** Answering takes one entry off the PIT unless it closes the pipeline. */
  lemma AnswerCounts(s: State, token: Token, data: Option<nat>)
    requires token in s.pit && s.pit[token].id in s.past.tracks
    ensures var s' := AnsweredWith(s, token, data);
            && s'.counters == s.counters && s'.control == s.control && s'.batch == s.batch && s'.piq == s.piq
            && s'.past.limit == s.past.limit && s'.past.ignored == s.past.ignored && s'.past.halvings == s.past.halvings
            && s'.clock == s.clock && s'.past.accepted == s.past.accepted
            && (if token in s'.pit then s'.closed && s'.pit == s.pit
                else |s'.pit| == |s.pit| - 1 && s'.closed == s.closed)
  {
  }

  lemma RefreshCounts(s: State, token: Token, newToken: Token, timeoutReason: bool)
    requires token in s.pit && s.pit[token].id in s.past.tracks
    ensures var s' := Refreshed(s, token, newToken, timeoutReason);
            && s'.counters == s.counters && s'.control == s.control && s'.batch == s.batch && s'.piq == s.piq
            && s'.past.limit == s.past.limit && s'.past.ignored == s.past.ignored && s'.past.halvings == s.past.halvings
            && s'.clock == s.clock && s'.closed == s.closed && s'.past.answers == s.past.answers
            && (if token in s'.pit then s'.closed && s'.pit == s.pit && s'.past == s.past && s'.requests == s.requests
                else |s'.pit| == |s.pit| - 1)
  {
  }

  lemma DataKeepsInv(s: State, token: Token, data: nat, marked: bool, now: int, initial: nat)
    requires Inv(s, initial) && s.clock <= now && Traced(s, token)
    ensures Inv(OnData(s, token, data, marked, now), initial)
  {
    hide Good, AnsweredWith, ControlFits, Decreased, Increased;
    var s1 := s.(clock := now, counters := s.counters.(rx := s.counters.rx + 1));
    if token !in s.pit {
      SameGood(s, OnData(s, token, data, marked, now));
    } else {
      var s2 := if marked then Halved(s1, now) else s1;
      HalveFits(s1, now, initial);
      SameGood(s, s2);
      AnswerGood(s2, token, Some(data));
      AnswerCounts(s2, token, Some(data));
      var s3 := AnsweredWith(s2, token, Some(data));
      if token !in s3.pit {
        IncreaseFits(s3, initial);
        SameGood(s3, s3.(control := Increased(s3.control)));
      }
    }
  }

  lemma HalveFits(s: State, now: int, initial: nat)
    requires ControlFits(s.control, initial) && HalvingsFit(s)
    ensures var s' := Halved(s, now);
            && ControlFits(s'.control, initial) && HalvingsFit(s') && s'.control.Fixed? == s.control.Fixed?
            && (s.control.Fixed? ==> s'.control == s.control)
  {
  }

  lemma IncreaseFits(s: State, initial: nat)
    requires ControlFits(s.control, initial) && HalvingsFit(s)
    ensures var s' := s.(control := Increased(s.control));
            && ControlFits(s'.control, initial) && HalvingsFit(s') && s'.control.Fixed? == s.control.Fixed?
            && (s.control.Fixed? ==> s'.control == s.control)
  {
  }

  lemma NackKeepsInv(s: State, token: Token, reason: NackReason, newToken: Token, initial: nat)
    requires Inv(s, initial) && newToken !in s.issued && Traced(s, token)
    ensures Inv(OnNack(s, token, reason, newToken), initial)
  {
    hide Good, AnsweredWith, Refreshed, ControlFits, HalvingsFit;
    var s1 := s.(counters := s.counters.(nack := s.counters.nack + 1));
    SameGood(s, s1);
    if token !in s.pit || reason.NoReason? {
      SameGood(s, OnNack(s, token, reason, newToken));
    } else if reason.Duplicate? {
      RefreshGood(s1, token, newToken, false);
      RefreshCounts(s1, token, newToken, false);
      var s2 := Refreshed(s1, token, newToken, false);
      if token in s2.pit {
        AnswerGood(s2, token, None);
        AnswerCounts(s2, token, None);
      }
    } else {
      AnswerGood(s1, token, None);
      AnswerCounts(s1, token, None);
    }
    SameHalvings(s, OnNack(s, token, reason, newToken));
  }

  lemma DropGood(s: State, s': State)
    requires Good(s) && s.piq != [] && s.piq[0] !in s.pit && s' == s.(piq := s.piq[1..])
    ensures Good(s')
  {
    hide Core, Ordered, Heard;
    SameCore(s, s');
    DropKeepsOrder(s, s');
    QueuesStay(s, s');
  }

  lemma TurnKeepsInv(s: State, now: int, later: int, newToken: Token, initial: nat)
    requires Inv(s, initial) && s.clock <= now <= later && newToken !in s.issued && s.piq != [] && Traced(s, s.piq[0])
    ensures Inv(TimeoutTurn(s, now, later, newToken), initial)
  {
    hide Good, ControlFits, HalvingsFit, Halved, AnsweredWith, Refreshed;
    var front := s.piq[0];
    if front !in s.pit {
      DropGood(s, TimeoutTurn(s, now, later, newToken));
      SameHalvings(s, TimeoutTurn(s, now, later, newToken));
    } else if !s.pit[front].IsExpired(now) {
      SameGood(s, s.(clock := now));
      SameHalvings(s, s.(clock := now));
    } else if s.pit[front].HasReachedMaximumNumOfRetries() {
      var s1 := s.(clock := now, counters := s.counters.(timeout := s.counters.timeout + 1));
      SameGood(s, s1);
      AnswerGood(s1, front, None);
      AnswerCounts(s1, front, None);
      SameHalvings(s, TimeoutTurn(s, now, later, newToken));
    } else {
      RetryKeepsInv(s, now, later, newToken, initial);
    }
  }

  lemma HalveIsAside(s: State, now: int)
    ensures var s' := Halved(s, now);
            s' == s.(control := s'.control, past := s.past.(halvings := s'.past.halvings))
  {
  }

  lemma RetryKeepsInv(s: State, now: int, later: int, newToken: Token, initial: nat)
    requires Inv(s, initial) && s.clock <= now <= later && newToken !in s.issued && s.piq != [] && s.piq[0] in s.pit
    requires s.pit[s.piq[0]].IsExpired(now) && !s.pit[s.piq[0]].HasReachedMaximumNumOfRetries()
    requires s.pit[s.piq[0]].id in s.past.tracks
    ensures Inv(TimeoutTurn(s, now, later, newToken), initial)
  {
    hide Good, ControlFits, HalvingsFit, Halved, AnsweredWith, Refreshed;
    var front := s.piq[0];
    var s0 := s.(clock := later, counters := s.counters.(timeout := s.counters.timeout + 1));
    var s1 := Halved(s0, later);
    SameHalvings(s, s0);
    HalveFits(s0, later, initial);
    HalveIsAside(s0, later);
    SameGood(s, s1);
    RefreshGood(s1, front, newToken, true);
    RefreshCounts(s1, front, newToken, true);
    var s2 := Refreshed(s1, front, newToken, true);
    SameHalvings(s1, s2);
    if front in s2.pit {
      AnswerGood(s2, front, None);
      AnswerCounts(s2, front, None);
      var s3 := AnsweredWith(s2, front, None);
      SameHalvings(s2, s3);
      if front !in s3.pit { DropGood(s3, s3.(piq := s3.piq[1..])); }
    } else {
      DropGood(s2, s2.(piq := s2.piq[1..]));
    }
    SameHalvings(s1, TimeoutTurn(s, now, later, newToken));
  }

  lemma SameHalvings(s: State, s': State)
    requires s'.control == s.control && s'.past.halvings == s.past.halvings
    ensures HalvingsFit(s') == HalvingsFit(s)
  {
  }

  lemma StepKeepsInv(s: State, e: Event, initial: nat)
    requires Inv(s, initial) && Enabled(s, e)
    ensures Inv(Apply(s, e), initial)
  {
    hide Inv, OnData, OnNack, TimeoutTurn;
    match e
    case DataArrives(token, data, marked, now) => DataKeepsInv(s, token, data, marked, now, initial);
    case NackArrives(token, reason, newToken) => FreshOne(s, newToken); NackKeepsInv(s, token, reason, newToken, initial);
    case CheckTimeout(now, later, newToken) => FreshOne(s, newToken); TurnKeepsInv(s, now, later, newToken, initial);
    case NextBatch(picks) => BatchKeepsInv(s, picks, initial);
    case Send(sent, times) => if sent < 0 { CloseKeepsInv(s, initial); } else { SendKeepsInv(s, times, initial); }
    case _ => ApplicationKeepsInv(s, e, initial);
  }

  lemma FreshOne(s: State, token: Token)
    requires Fresh(s, [token])
    ensures token !in s.issued
  {
    assert [token][0] !in s.issued;
  }
}
