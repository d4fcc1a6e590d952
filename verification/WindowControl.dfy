/** The congestion window of an Interest pipeline: fixed, or additive-increase
    multiplicative-decrease.  Times are steady-clock ticks of a nanosecond. */
module WindowControl {
  import opened Numbers

  const MAX_WINDOW: nat := 65536
  const MIN_WINDOW: nat := 64
  const TICKS_PER_MILLISECOND: nat := 1_000_000
  const MAX_RTT: nat := 200 * TICKS_PER_MILLISECOND

  datatype Control =
    | Fixed(size: nat)
    | Aimd(size: nat, ssthresh: nat, counter: nat, lastDecrease: int)

  /** A decrease counts only when the last one is at least a round trip ago. */
  predicate DecreaseCounts(c: Control, now: int) {
    c.Aimd? && now - c.lastDecrease >= MAX_RTT
  }

  function Decreased(c: Control, now: int): Control {
    if DecreaseCounts(c, now) then
      var size := Max(c.size / 2, MIN_WINDOW);
      Aimd(size, size, 0, now)
    else c
  }

  function Increased(c: Control): Control {
    match c
    case Fixed(_) => c
    case Aimd(size, ssthresh, counter, last) =>
      if size < ssthresh then Aimd(size + 1, ssthresh, counter, last)
      else if counter + 1 >= size then Aimd(Min(size + 1, MAX_WINDOW), ssthresh, 0, last)
      else Aimd(size, ssthresh, counter + 1, last)
  }

  // ---------------------------------------------------------------------------
  // Bounds
  // ---------------------------------------------------------------------------

  /** The bounds a window started with slow-start threshold `initial` never leaves. */
  predicate ControlFits(c: Control, initial: nat) {
    match c
    case Fixed(size) => size == initial
    case Aimd(size, ssthresh, counter, _) =>
      && MIN_WINDOW <= size <= Max(MAX_WINDOW, initial)
      && ssthresh <= Max(MAX_WINDOW, initial) && counter < size
  }

  lemma DecreaseKeepsBounds(c: Control, initial: nat, now: int)
    requires ControlFits(c, initial)
    ensures ControlFits(Decreased(c, now), initial)
    ensures Decreased(c, now).size <= c.size
  {
  }

  lemma IncreaseKeepsBounds(c: Control, initial: nat)
    requires ControlFits(c, initial)
    ensures ControlFits(Increased(c), initial)
  {
  }

  /** A loss halves the window, down to 64 at least, and starts congestion avoidance there, if the last
      decrease is 200 ms ago; otherwise, and for the fixed window, it changes nothing. */
  lemma DecreaseExactly(c: Control, now: int)
    ensures c.Fixed? ==> Decreased(c, now) == c
    ensures c.Aimd? ==>
              var d := Decreased(c, now);
              if now - c.lastDecrease < 200_000_000 then d == c
              else
                && d.Aimd? && d.size == d.ssthresh && d.counter == 0 && d.lastDecrease == now
                && (c.size < 128 ==> d.size == 64) && (c.size >= 128 ==> 2 * d.size == c.size - c.size % 2)
  {
  }

  /** An answer raises the window by one in slow start, and in congestion avoidance once per window of
      answers, up to 65536. */
  lemma IncreaseExactly(c: Control)
    ensures c.Fixed? ==> Increased(c) == c
    ensures c.Aimd? ==>
              var d := Increased(c);
              && d.Aimd? && d.ssthresh == c.ssthresh && d.lastDecrease == c.lastDecrease
              && (c.size < c.ssthresh ==> d.size == c.size + 1 && d.counter == c.counter)
              && (c.ssthresh <= c.size && c.counter + 1 < c.size ==> d.size == c.size && d.counter == c.counter + 1)
              && (c.ssthresh <= c.size <= c.counter + 1 && c.size < 65536 ==> d.size == c.size + 1 && d.counter == 0)
              && (c.ssthresh <= c.size <= c.counter + 1 && c.size >= 65536 ==> d.size == 65536 && d.counter == 0)
  {
  }

  // ---------------------------------------------------------------------------
  // Growth in closed form
  // ---------------------------------------------------------------------------

  /** The window after k answers without loss. */
  function IncreasedTimes(c: Control, k: nat): Control {
    if k == 0 then c else Increased(IncreasedTimes(c, k - 1))
  }

  /** How many congestion-avoidance answers lead from an empty window here. */
  function Progress(size: nat, counter: nat): nat
    requires size >= 1
  {
    size * (size - 1) / 2 + counter
  }

  lemma Triangle(w: nat)
    requires w >= 1
    ensures (w + 1) * w / 2 == w * (w - 1) / 2 + w
  {
    assert (w + 1) * w == w * (w - 1) + 2 * w;
  }

  lemma {:induction false} TriangleMonotone(v: nat, w: nat)
    requires 1 <= v <= w
    ensures v * (v - 1) / 2 <= w * (w - 1) / 2
  {
    if v < w {
      TriangleMonotone(v, w - 1);
      Triangle(w - 1);
    }
  }

  /** Slow start: one more per answer, up to the threshold. */
  lemma {:induction false} SlowStartGrowth(c: Control, k: nat)
    requires c.Aimd? && c.size + k <= c.ssthresh
    ensures IncreasedTimes(c, k) == c.(size := c.size + k)
  {
    if k > 0 { SlowStartGrowth(c, k - 1); }
  }

  lemma AvoidanceStep(c: Control)
    requires c.Aimd? && c.ssthresh <= c.size && c.counter < c.size
    requires Progress(c.size, c.counter) < Progress(MAX_WINDOW, 0)
    ensures var d := Increased(c);
            && d.Aimd? && d.ssthresh == c.ssthresh <= d.size && d.counter < d.size
            && Progress(d.size, d.counter) == Progress(c.size, c.counter) + 1
  {
    if c.size >= MAX_WINDOW { TriangleMonotone(MAX_WINDOW, c.size); }
    Triangle(c.size);
  }

  /** Congestion avoidance: each answer advances the progress by exactly one, as long as the cap
      is not passed; with counter < size this determines window and counter after k answers. */
  lemma {:induction false} AvoidanceGrowth(c: Control, k: nat)
    requires c.Aimd? && c.ssthresh <= c.size && c.counter < c.size
    requires Progress(c.size, c.counter) + k <= Progress(MAX_WINDOW, 0)
    ensures var d := IncreasedTimes(c, k);
            && d.Aimd? && d.ssthresh == c.ssthresh <= d.size && d.counter < d.size
            && Progress(d.size, d.counter) == Progress(c.size, c.counter) + k
  {
    hide Progress, Increased;
    if k > 0 {
      AvoidanceGrowth(c, k - 1);
      AvoidanceStep(IncreasedTimes(c, k - 1));
    }
  }

  /** Progress and the bound on the counter determine the window. */
  lemma ProgressDetermines(v: nat, i: nat, w: nat, j: nat)
    requires i < v && j < w && Progress(v, i) == Progress(w, j)
    ensures v == w && i == j
  {
    if v < w {
      Triangle(v);
      TriangleMonotone(v + 1, w);
    } else if w < v {
      Triangle(w);
      TriangleMonotone(w + 1, v);
    }
  }

  // ---------------------------------------------------------------------------
  // Halvings are spaced
  // ---------------------------------------------------------------------------

  predicate Spaced(times: seq<int>) {
    forall i :: 0 < i < |times| ==> times[i] - times[i - 1] >= MAX_RTT
  }

  lemma {:induction false} SpacedApart(times: seq<int>, i: nat, j: nat)
    requires Spaced(times) && i <= j < |times|
    ensures times[j] - times[i] >= (j - i) * MAX_RTT
  {
    if i < j {
      SpacedApart(times, i, j - 1);
      assert times[j] - times[j - 1] >= MAX_RTT;
      assert (j - i) * MAX_RTT == (j - 1 - i) * MAX_RTT + MAX_RTT;
    }
  }

  /** Effective decreases i, ..., j within a span of D ticks number at most D / MAX_RTT + 1. */
  lemma HalvingsInSpan(times: seq<int>, i: nat, j: nat, span: nat)
    requires Spaced(times) && i <= j < |times| && times[j] - times[i] <= span
    ensures j - i + 1 <= span / MAX_RTT + 1
  {
    SpacedApart(times, i, j);
  }
}
