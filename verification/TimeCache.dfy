/** The logger's cache of the broken-down local time: one word counts readers in its low 30 bits
    and says in its top two whether the cache is stale or being written.  A reader counts itself
    in before it looks, and a writer gets in only when the word is exactly "stale, no readers".
    Each load, store and read-modify-write is one step, and the copy of the broken-down time takes
    two; any number of threads below 2^30 interleave freely. */
module TimeCache {
  import opened MapSum

  type Tid = nat

  const STALE: nat := 0x4000_0000
  const FLUID: nat := 0xC000_0000

  /** A broken-down time, in two parts that are not copied at once. */
  datatype Tm = Tm(date: int, clock: int)

  datatype Pc =
    | Idle
    | LoadMode(sec: int)
    | CountIn(sec: int)
    | Compare(sec: int)
    | CopyDate(sec: int)
    | CopyClock(sec: int, date: int)
    | CountOutHit(sec: int, tm: Tm)
    | MarkStale(sec: int)
    | CountOutMiss(sec: int)
    | TrySet(sec: int, tm: Tm)
    | WriteSec(sec: int, tm: Tm)
    | WriteDate(sec: int, tm: Tm)
    | WriteClock(sec: int, tm: Tm)
    | Publish(sec: int, tm: Tm)
    | Done(sec: int, tm: Tm)

  /** `local` is what `localtime_r` computes. */
  datatype State = State(mode: nat, sec: int, tm: Tm, threads: map<Tid, Pc>, local: int -> Tm)

  function Init(threads: set<Tid>, local: int -> Tm, garbage: Tm): State {
    State(STALE, 0, garbage, map t | t in threads :: Idle, local)
  }

  /** `mode & TCACHE_FLUID` is not zero. */
  predicate IsFluid(mode: nat) { mode >= STALE }

  /** `mode | TCACHE_STALE` and `mode & ~TCACHE_FLUID` on 32 bits. */
  function WithStale(mode: nat): nat { if mode / STALE % 2 == 1 then mode else mode + STALE }

  function WithoutFluid(mode: nat): nat { mode % STALE }

  /** On 32-bit words the two masks do what these say. */
  lemma MasksOnWords(m: bv32)
    ensures m & 0xC000_0000 != 0 <==> m >= 0x4000_0000
    ensures m | 0x4000_0000 == if m / 0x4000_0000 % 2 == 1 then m else m + 0x4000_0000
    ensures m & !0xC000_0000 == m % 0x4000_0000
  {
  }

  predicate Enabled(s: State, t: Tid) {
    t in s.threads && (s.threads[t].CountOutHit? || s.threads[t].CountOutMiss? ==> s.mode >= 1)
  }

  /** One step of thread t inside `time_callback`; an idle thread begins a call for second `sec`. */
  function Step(s: State, t: Tid, sec: int): State
    requires Enabled(s, t)
  {
    match s.threads[t]
    case Idle => s.(threads := s.threads[t := LoadMode(sec)])
    case LoadMode(sec) =>
      s.(threads := s.threads[t := if IsFluid(s.mode) then TrySet(sec, s.local(sec)) else CountIn(sec)])
    case CountIn(sec) =>
      s.(mode := s.mode + 1, threads := s.threads[t := if IsFluid(s.mode) then CountOutMiss(sec) else Compare(sec)])
    case Compare(sec) => s.(threads := s.threads[t := if s.sec == sec then CopyDate(sec) else MarkStale(sec)])
    case CopyDate(sec) => s.(threads := s.threads[t := CopyClock(sec, s.tm.date)])
    case CopyClock(sec, date) => s.(threads := s.threads[t := CountOutHit(sec, Tm(date, s.tm.clock))])
    case CountOutHit(sec, tm) => s.(mode := s.mode - 1, threads := s.threads[t := Done(sec, tm)])
    case MarkStale(sec) => s.(mode := WithStale(s.mode), threads := s.threads[t := CountOutMiss(sec)])
    case CountOutMiss(sec) => s.(mode := s.mode - 1, threads := s.threads[t := TrySet(sec, s.local(sec))])
    case TrySet(sec, tm) =>
      if s.mode == STALE then s.(mode := FLUID, threads := s.threads[t := WriteSec(sec, tm)])
      else s.(threads := s.threads[t := Done(sec, tm)])
    case WriteSec(sec, tm) => s.(sec := sec, threads := s.threads[t := WriteDate(sec, tm)])
    case WriteDate(sec, tm) => s.(tm := s.tm.(date := tm.date), threads := s.threads[t := WriteClock(sec, tm)])
    case WriteClock(sec, tm) => s.(tm := s.tm.(clock := tm.clock), threads := s.threads[t := Publish(sec, tm)])
    case Publish(sec, tm) => s.(mode := WithoutFluid(s.mode), threads := s.threads[t := Done(sec, tm)])
    case Done(_, _) => s.(threads := s.threads[t := Idle])
  }

  // ---------------------------------------------------------------------------
  // The invariant
  // ---------------------------------------------------------------------------

  function Counted(p: Pc): nat {
    if p.Compare? || p.CopyDate? || p.CopyClock? || p.CountOutHit? || p.MarkStale? || p.CountOutMiss? then 1 else 0
  }

  /** Reading the cached time, after having seen it neither stale nor being written. */
  predicate Reads(p: Pc) { p.Compare? || p.CopyDate? || p.CopyClock? || p.MarkStale? }

  function Writes(p: Pc): nat {
    if p.WriteSec? || p.WriteDate? || p.WriteClock? || p.Publish? then 1 else 0
  }

  ghost function Readers(s: State): nat { Total(s.threads, Counted) }

  ghost function Writers(s: State): nat { Total(s.threads, Writes) }

  predicate CacheHolds(s: State, sec: int) { s.sec == sec && s.tm == s.local(sec) }

  predicate ThreadFits(s: State, t: Tid)
    requires t in s.threads
  {
    match s.threads[t]
    case CopyDate(sec) => CacheHolds(s, sec)
    case CopyClock(sec, date) => CacheHolds(s, sec) && date == s.tm.date
    case CountOutHit(sec, tm) => tm == s.local(sec)
    case TrySet(sec, tm) => tm == s.local(sec)
    case WriteSec(sec, tm) => tm == s.local(sec)
    case WriteDate(sec, tm) => tm == s.local(sec) && s.sec == sec
    case WriteClock(sec, tm) => tm == s.local(sec) && s.sec == sec && s.tm.date == tm.date
    case Publish(sec, tm) => tm == s.local(sec) && CacheHolds(s, sec)
    case Done(sec, tm) => tm == s.local(sec)
    case _ => true
  }

  /** The word: its low part counts, its top part is 3 while the one writer writes. */
  ghost predicate ModeFits(s: State) {
    && Readers(s) < STALE && Writers(s) <= 1
    && (s.mode == Readers(s) || s.mode == STALE + Readers(s) || s.mode == FLUID + Readers(s))
    && (s.mode >= FLUID <==> Writers(s) == 1)
  }

  ghost predicate Inv(s: State) {
    && |s.threads| < STALE && ModeFits(s)
    && (forall t :: t in s.threads ==> ThreadFits(s, t))
    && (!IsFluid(s.mode) ==> s.tm == s.local(s.sec))
    && (forall t :: t in s.threads && Reads(s.threads[t]) ==> s.mode < FLUID && s.tm == s.local(s.sec))
  }

  lemma InitInv(threads: set<Tid>, local: int -> Tm, garbage: Tm)
    requires |threads| < STALE
    ensures Inv(Init(threads, local, garbage))
  {
    var s := Init(threads, local, garbage);
    assert s.threads.Keys == threads;
    TotalZero(s.threads, Counted);
    TotalZero(s.threads, Writes);
  }

  lemma Exchange(s: State, s': State, t: Tid)
    requires t in s.threads && t in s'.threads && s'.threads == s.threads[t := s'.threads[t]] && |s.threads| < STALE
    ensures Readers(s') == Readers(s) - Counted(s.threads[t]) + Counted(s'.threads[t])
    ensures Writers(s') == Writers(s) - Writes(s.threads[t]) + Writes(s'.threads[t])
    ensures Readers(s') < STALE && s'.threads.Keys == s.threads.Keys
  {
    TotalUpdate(s.threads, Counted, t, s'.threads[t]);
    TotalUpdate(s.threads, Writes, t, s'.threads[t]);
    assert s'.threads.Keys == s.threads.Keys;
    TotalAtMost(s'.threads, Counted);
  }

  /** A thread that has counted itself in keeps the writers out, and a writer is alone. */
  lemma Exclusive(s: State, t: Tid, u: Tid)
    requires Inv(s) && t in s.threads && u in s.threads && t != u && Writes(s.threads[t]) == 1
    ensures Writes(s.threads[u]) == 0 && !Reads(s.threads[u]) && s.mode >= FLUID
  {
    TotalAtLeastTwo(s.threads, Writes, t, u);
  }

  lemma CountedIn(s: State, t: Tid)
    requires Inv(s) && t in s.threads
    ensures Counted(s.threads[t]) <= Readers(s) && Writes(s.threads[t]) <= Writers(s)
  {
    TotalAtLeast(s.threads, Counted, t);
    TotalAtLeast(s.threads, Writes, t);
  }

  /** Steps that leave the cached time alone. */
  lemma ModeStepKeepsInv(s: State, s': State, t: Tid)
    requires Inv(s) && t in s.threads && t in s'.threads && s'.threads == s.threads[t := s'.threads[t]]
    requires s'.sec == s.sec && s'.tm == s.tm && s'.local == s.local
    requires ModeFits(s') && ThreadFits(s', t)
    requires !IsFluid(s'.mode) ==> s.tm == s.local(s.sec)
    requires Reads(s'.threads[t]) ==> s.tm == s.local(s.sec)
    requires s'.mode < FLUID || forall u :: u in s'.threads ==> !Reads(s'.threads[u])
    ensures Inv(s')
  {
    assert s'.threads.Keys == s.threads.Keys;
    forall u | u in s'.threads ensures ThreadFits(s', u) {
      assert u != t ==> ThreadFits(s, u);
    }
  }

  /** Steps of the writer, which is alone. */
  lemma WriterStepKeepsInv(s: State, t: Tid)
    requires Inv(s) && Enabled(s, t) && Writes(s.threads[t]) == 1 && !s.threads[t].Publish?
    ensures Inv(Step(s, t, 0))
  {
    hide ModeFits, Total;
    var s' := Step(s, t, 0);
    assert ThreadFits(s, t);
    SameMode(s, s', t);
    forall u | u in s.threads && u != t ensures ThreadFits(s', u) && !Reads(s.threads[u]) {
      Exclusive(s, t, u);
      assert ThreadFits(s, u);
    }
    WriterMode(s, t);
  }

  lemma WriterMode(s: State, t: Tid)
    requires Inv(s) && t in s.threads && Writes(s.threads[t]) == 1
    ensures s.mode >= FLUID
  {
    CountedIn(s, t);
  }

  lemma SameMode(s: State, s': State, t: Tid)
    requires ModeFits(s) && t in s.threads && t in s'.threads && s'.threads == s.threads[t := s'.threads[t]]
    requires |s.threads| < STALE && s'.mode == s.mode
    requires Counted(s'.threads[t]) == Counted(s.threads[t]) && Writes(s'.threads[t]) == Writes(s.threads[t])
    ensures ModeFits(s') && s'.threads.Keys == s.threads.Keys
  {
    Exchange(s, s', t);
  }

  /** Nobody reads while the word says that somebody writes. */
  lemma NoReaders(s: State)
    requires Inv(s) && s.mode >= FLUID
    ensures forall u :: u in s.threads ==> !Reads(s.threads[u])
  {
  }

  lemma NobodyCounted(s: State)
    requires Inv(s) && s.mode == STALE
    ensures forall u :: u in s.threads ==> Counted(s.threads[u]) == 0
  {
    forall u | u in s.threads ensures Counted(s.threads[u]) == 0 {
      CountedIn(s, u);
    }
  }

  /** A writer gets in only when no reader is counted in. */
  lemma EnterKeepsInv(s: State, t: Tid)
    requires Inv(s) && Enabled(s, t) && s.threads[t].TrySet? && s.mode == STALE
    ensures Inv(Step(s, t, 0))
  {
    hide Total;
    assert ThreadFits(s, t);
    NobodyCounted(s);
    Exchange(s, Step(s, t, 0), t);
    ModeStepKeepsInv(s, Step(s, t, 0), t);
  }

  lemma ReaderStepKeepsInv(s: State, t: Tid)
    requires Inv(s) && Enabled(s, t) && Counted(s.threads[t]) == 1
    ensures Inv(Step(s, t, 0))
  {
    hide Total;
    assert ThreadFits(s, t);
    CountedIn(s, t);
    Exchange(s, Step(s, t, 0), t);
    if s.mode >= FLUID { NoReaders(s); }
    ModeStepKeepsInv(s, Step(s, t, 0), t);
  }

  lemma OutsideStepKeepsInv(s: State, t: Tid, sec: int)
    requires Inv(s) && Enabled(s, t) && Counted(s.threads[t]) == 0
    requires Writes(s.threads[t]) == 0 || s.threads[t].Publish?
    requires s.threads[t].TrySet? ==> s.mode != STALE
    ensures Inv(Step(s, t, sec))
  {
    hide Total;
    assert ThreadFits(s, t);
    CountedIn(s, t);
    Exchange(s, Step(s, t, sec), t);
    if s.mode >= FLUID { NoReaders(s); }
    ModeStepKeepsInv(s, Step(s, t, sec), t);
  }

  lemma StepKeepsInv(s: State, t: Tid, sec: int)
    requires Inv(s) && Enabled(s, t)
    ensures Inv(Step(s, t, sec))
  {
    hide Inv;
    if Writes(s.threads[t]) == 1 && !s.threads[t].Publish? {
      WriterStepKeepsInv(s, t);
    } else if s.threads[t].TrySet? && s.mode == STALE {
      EnterKeepsInv(s, t);
    } else if Counted(s.threads[t]) == 1 {
      ReaderStepKeepsInv(s, t);
    } else {
      OutsideStepKeepsInv(s, t, sec);
    }
  }

  /** The counter never runs below zero, so no thread gets stuck, and it stays in its 30 bits. */
  lemma NeverStuck(s: State, t: Tid)
    requires Inv(s) && t in s.threads
    ensures Enabled(s, t) && s.mode < 0x1_0000_0000
  {
    CountedIn(s, t);
  }

  ghost predicate Next(s: State, s': State) {
    exists t: Tid, sec: int :: Enabled(s, t) && s' == Step(s, t, sec)
  }

  ghost predicate IsRun(run: seq<State>, threads: set<Tid>, local: int -> Tm, garbage: Tm) {
    && |run| > 0 && run[0] == Init(threads, local, garbage) && |threads| < STALE
    && forall i :: 0 <= i < |run| - 1 ==> Next(run[i], run[i + 1])
  }

  lemma {:induction false} RunInv(run: seq<State>, threads: set<Tid>, local: int -> Tm, garbage: Tm, i: nat)
    requires IsRun(run, threads, local, garbage) && i < |run|
    ensures Inv(run[i]) && run[i].local == local
  {
    hide Inv, Enabled, Step;
    if i == 0 {
      InitInv(threads, local, garbage);
    } else {
      RunInv(run, threads, local, garbage, i - 1);
      assert Next(run[i - 1], run[i - 1 + 1]);
      var t: Tid, sec: int :| Enabled(run[i - 1], t) && run[i] == Step(run[i - 1], t, sec);
      StepKeepsInv(run[i - 1], t, sec);
      SameLocal(run[i - 1], t, sec);
    }
  }

  lemma SameLocal(s: State, t: Tid, sec: int)
    requires Enabled(s, t)
    ensures Step(s, t, sec).local == s.local
  {
  }

  /** In every state of every run there is at most one writer, no reader copies while it writes, and
      whatever `time_callback` delivers, from the cache or not, is the local time of the second it
      was asked for. */
  lemma CacheAgrees(run: seq<State>, threads: set<Tid>, local: int -> Tm, garbage: Tm, i: nat, t: Tid, u: Tid)
    requires IsRun(run, threads, local, garbage) && i < |run| && t in run[i].threads && u in run[i].threads
    ensures Writes(run[i].threads[t]) == 1 && t != u ==> Writes(run[i].threads[u]) == 0 && !Reads(run[i].threads[u])
    ensures run[i].threads[t].CountOutHit? ==> run[i].threads[t].tm == local(run[i].threads[t].sec)
    ensures run[i].threads[t].Done? ==> run[i].threads[t].tm == local(run[i].threads[t].sec)
  {
    RunInv(run, threads, local, garbage, i);
    assert ThreadFits(run[i], t);
    if Writes(run[i].threads[t]) == 1 && t != u { Exclusive(run[i], t, u); }
  }

  // ---------------------------------------------------------------------------
  // An undisturbed call
  // ---------------------------------------------------------------------------

  /** n steps of thread t alone in its call for second `sec`. */
  ghost function Alone(s: State, t: Tid, sec: int, n: nat): State
    decreases n
  {
    if n == 0 || !Enabled(s, t) then s else Alone(Step(s, t, sec), t, sec, n - 1)
  }

  lemma {:induction false} AloneInTwo(s: State, t: Tid, sec: int, m: nat, n: nat)
    ensures Alone(s, t, sec, m + n) == Alone(Alone(s, t, sec, m), t, sec, n)
    decreases m
  {
    hide Step, Enabled;
    if m > 0 && Enabled(s, t) { AloneInTwo(Step(s, t, sec), t, sec, m - 1, n); }
  }

  /** Four steps one after the other. */
  lemma FourSteps(s: State, t: Tid, sec: int)
    requires Enabled(s, t) && Enabled(Step(s, t, sec), t) && Enabled(Step(Step(s, t, sec), t, sec), t)
    requires Enabled(Step(Step(Step(s, t, sec), t, sec), t, sec), t)
    ensures Alone(s, t, sec, 4) == Step(Step(Step(Step(s, t, sec), t, sec), t, sec), t, sec)
  {
    hide Step, Enabled;
    var s1 := Step(s, t, sec);
    var s2 := Step(s1, t, sec);
    var s3 := Step(s2, t, sec);
    assert Alone(s, t, sec, 4) == Alone(s1, t, sec, 3) == Alone(s2, t, sec, 2) == Alone(s3, t, sec, 1)
        == Alone(Step(s3, t, sec), t, sec, 0);
  }

  /** Whoever finds the cache stale and nobody in it fills it for its second. */
  lemma LoneFill(s: State, t: Tid, sec: int)
    requires t in s.threads && s.threads[t] == TrySet(sec, s.local(sec)) && s.mode == STALE
    ensures var s' := Alone(Alone(s, t, sec, 4), t, sec, 1);
            && t in s'.threads && s'.threads[t] == Done(sec, s.local(sec)) && s'.local == s.local
            && s'.mode == 0 && CacheHolds(s', sec)
  {
    FourSteps(s, t, sec);
    var s' := Alone(s, t, sec, 4);
    assert s'.threads[t] == Publish(sec, s.local(sec)) && s'.mode == FLUID && s'.sec == sec && s'.tm == s.local(sec);
    assert Alone(s', t, sec, 1) == Alone(Step(s', t, sec), t, sec, 0);
  }

  /** A call that finds the cache valid for its second copies it and leaves everything as it was. */
  lemma LoneHit(s: State, t: Tid, sec: int)
    requires t in s.threads && s.threads[t].Idle? && s.mode == 0 && s.sec == sec
    ensures var s1 := Alone(s, t, sec, 4);
            && t in s1.threads && s1.threads[t] == CopyDate(sec)
            && var s' := Alone(s1, t, sec, 3);
               t in s'.threads && s' == s.(threads := s.threads[t := Done(sec, s.tm)])
  {
    FourSteps(s, t, sec);
    var s1 := Alone(s, t, sec, 4);
    assert s1 == s.(mode := 1, threads := s.threads[t := CopyDate(sec)]);
    var s2 := Step(s1, t, sec);
    var s3 := Step(s2, t, sec);
    assert Alone(s1, t, sec, 3) == Alone(s2, t, sec, 2) == Alone(s3, t, sec, 1) == Alone(Step(s3, t, sec), t, sec, 0);
  }

  /** A call that finds it valid for another second marks it stale on its way out. */
  lemma LoneMiss(s: State, t: Tid, sec: int)
    requires t in s.threads && s.threads[t].Idle? && s.mode == 0 && s.sec != sec
    ensures var s' := Alone(Alone(s, t, sec, 4), t, sec, 2);
            s' == s.(mode := STALE, threads := s.threads[t := TrySet(sec, s.local(sec))])
  {
    FourSteps(s, t, sec);
    var s1 := Alone(s, t, sec, 4);
    assert s1 == s.(mode := 1, threads := s.threads[t := MarkStale(sec)]);
    var s2 := Step(s1, t, sec);
    assert s2 == s.(mode := STALE + 1, threads := s.threads[t := CountOutMiss(sec)]);
    assert Alone(s1, t, sec, 2) == Alone(s2, t, sec, 1) == Alone(Step(s2, t, sec), t, sec, 0);
  }

  lemma RestingMode(s: State)
    requires Inv(s) && forall u :: u in s.threads ==> s.threads[u].Idle?
    ensures s.mode == 0 || s.mode == STALE
  {
    TotalZero(s.threads, Counted);
    TotalZero(s.threads, Writes);
  }

  /** After an undisturbed call for a second the cache is valid and holds the local time of that second,
      whatever it held before, and that is what the call has delivered. */
  lemma LoneCallFills(s: State, t: Tid, sec: int)
    requires Inv(s) && t in s.threads && forall u :: u in s.threads ==> s.threads[u].Idle?
    ensures var s' := Alone(s, t, sec, if s.mode == STALE then 7 else if s.sec == sec then 7 else 11);
            && t in s'.threads && s'.threads[t] == Done(sec, s.local(sec)) && s'.local == s.local
            && s'.mode == 0 && CacheHolds(s', sec)
  {
    RestingMode(s);
    if s.mode == STALE {
      var s1 := Step(s, t, sec);
      var s2 := Step(s1, t, sec);
      assert s2 == s.(threads := s.threads[t := TrySet(sec, s.local(sec))]);
      assert Alone(s, t, sec, 7) == Alone(s1, t, sec, 6) == Alone(s2, t, sec, 5);
      AloneInTwo(s2, t, sec, 4, 1);
      LoneFill(s2, t, sec);
    } else if s.sec == sec {
      AloneInTwo(s, t, sec, 4, 3);
      LoneHit(s, t, sec);
    } else {
      AloneInTwo(s, t, sec, 4, 7);
      AloneInTwo(Alone(s, t, sec, 4), t, sec, 2, 5);
      LoneMiss(s, t, sec);
      var s1 := Alone(Alone(s, t, sec, 4), t, sec, 2);
      AloneInTwo(s1, t, sec, 4, 1);
      LoneFill(s1, t, sec);
    }
  }
}
