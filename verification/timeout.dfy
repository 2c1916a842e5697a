/**
 * The `Timeout` value type that every blocking call consumes: ticks already
 * elapsed and ticks still remaining, both 32-bit, updated with saturating
 * arithmetic, with the largest tick count standing for "wait forever".
 */
module Timeouts {
  import opened Common

  /** The sentinel for an unbounded wait: the largest 32-bit tick count. */
  const UnlimitedTimeout: u32 := UINT32_MAX

  /** A timeout as a value, fields in declaration order `{elapsed, remaining}`. */
  datatype TimeoutValue = TimeoutValue(elapsed: u32, remaining: u32)
  {
    /** `may_block()`: only a timeout with ticks remaining lets a call sleep. */
    predicate MayBlock()
    {
      remaining != 0
    }
  }

  /** `Timeout{r}`: a fresh timeout with nothing elapsed yet. */
  function FromRemaining(remaining: u32): (t: TimeoutValue)
    ensures t.elapsed == 0 && t.remaining == remaining
  {
    TimeoutValue(0, remaining)
  }

  /**
   * `elapse(ticks)` as a pure function: `remaining` counts down and stops at
   * zero (the unlimited sentinel never counts down), `elapsed` counts up and
   * stops at the largest 32-bit value instead of wrapping.
   */
  function Elapsed(t: TimeoutValue, ticks: u32): (r: TimeoutValue)
    ensures t.elapsed <= r.elapsed && r.remaining <= t.remaining
    ensures r.elapsed == Min(UINT32_MAX, t.elapsed + ticks)
    ensures t.remaining == UnlimitedTimeout ==> r.remaining == UnlimitedTimeout
    ensures t.remaining != UnlimitedTimeout ==> r.remaining == Max(0, t.remaining - ticks)
  {
    var remaining := if t.remaining == UnlimitedTimeout then t.remaining
                     else if ticks > t.remaining then 0
                     else t.remaining - ticks;
    var elapsed := if t.elapsed + ticks > UINT32_MAX then UINT32_MAX else t.elapsed + ticks;
    TimeoutValue(elapsed, remaining)
  }

  /** A zero timeout never blocks. */
  lemma ZeroTimeoutNeverBlocks()
    ensures !FromRemaining(0).MayBlock()
  {
  }

  /**
   * Both fields saturate: a timeout with nothing remaining stays at zero, an
   * elapsed count at the maximum stays there, whatever is elapsed.
   */
  lemma ElapseSaturates(t: TimeoutValue, ticks: u32)
    ensures t.remaining == 0 ==> Elapsed(t, ticks).remaining == 0
    ensures t.elapsed == UINT32_MAX ==> Elapsed(t, ticks).elapsed == UINT32_MAX
  {
  }

  /** An unlimited timeout is a fixed point of `remaining` and keeps blocking. */
  lemma UnlimitedStaysUnlimited(t: TimeoutValue, ticks: u32)
    requires t.remaining == UnlimitedTimeout
    ensures Elapsed(t, ticks).remaining == UnlimitedTimeout
    ensures Elapsed(t, ticks).MayBlock()
  {
  }

  /**
   * Elapsing twice is elapsing once by the saturated sum: saturation loses
   * nothing that a single larger step would have kept.
   */
  lemma ElapseComposes(t: TimeoutValue, a: u32, b: u32)
    ensures Elapsed(Elapsed(t, a), b) == Elapsed(t, Min(UINT32_MAX, a + b))
  {
  }

  /** Once elapsing has exhausted a bounded timeout it can no longer block. */
  lemma {:induction false} ExhaustedNeverBlocks(t: TimeoutValue, steps: seq<u32>)
    requires t.remaining != UnlimitedTimeout
    requires Total(steps) >= t.remaining
    ensures !ElapseAll(t, steps).MayBlock()
    decreases steps
  {
    if steps != [] {
      ExhaustedNeverBlocks(Elapsed(t, steps[0]), steps[1..]);
    }
  }

  /** The sum of a sequence of tick counts. */
  function Total(steps: seq<u32>): nat
  {
    if steps == [] then 0 else steps[0] + Total(steps[1..])
  }

  /** Elapsing a sequence of tick counts, one after the other. */
  function ElapseAll(t: TimeoutValue, steps: seq<u32>): TimeoutValue
    decreases steps
  {
    if steps == [] then t else ElapseAll(Elapsed(t, steps[0]), steps[1..])
  }

  /**
   * The in-place `Timeout` that callers pass by pointer: `elapse` overwrites
   * both fields.
   */
  class Timeout {
    var elapsed: u32
    var remaining: u32

    /** `Timeout{remaining}`. */
    constructor (remaining: u32)
      ensures Value() == FromRemaining(remaining)
    {
      this.elapsed := 0;
      this.remaining := remaining;
    }

    /** `Timeout{elapsed, remaining}`, the aggregate form. */
    constructor WithElapsed(elapsed: u32, remaining: u32)
      ensures Value() == TimeoutValue(elapsed, remaining)
    {
      this.elapsed := elapsed;
      this.remaining := remaining;
    }

    function Value(): TimeoutValue
      reads this
    {
      TimeoutValue(elapsed, remaining)
    }

    predicate MayBlock()
      reads this
    {
      Value().MayBlock()
    }

    /** `elapse(ticks)`, in place; agrees with `Elapsed`. */
    method Elapse(ticks: u32)
      modifies this
      ensures Value() == Elapsed(old(Value()), ticks)
    {
      if remaining != UnlimitedTimeout {
        remaining := if ticks > remaining then 0 else remaining - ticks;
      }
      elapsed := if elapsed + ticks > UINT32_MAX then UINT32_MAX else elapsed + ticks;
    }
  }

  /**
   * The sequence of `check_timeouts`, replayed on the in-place class: a
   * zero timeout does not block, a saturated one stays saturated after
   * `elapse(42)`, and an unlimited one stays unlimited and blocking.
   */
  method CheckTimeouts() returns (zeroBlocks: bool, saturated: TimeoutValue, unlimited: TimeoutValue)
    ensures !zeroBlocks
    ensures saturated == TimeoutValue(UINT32_MAX, 0)
    ensures unlimited.remaining == UnlimitedTimeout && unlimited.MayBlock()
  {
    var t := new Timeout(0);
    zeroBlocks := t.MayBlock();

    t := new Timeout.WithElapsed(UINT32_MAX, 0);
    t.Elapse(42);
    saturated := t.Value();

    t := new Timeout(UnlimitedTimeout);
    t.Elapse(42);
    unlimited := t.Value();
  }
}
