/** Measuring time with a clock that wraps: the timeouts of blocking calls, and delays until
    a fixed period has passed. */
module Timeouts {
  import opened KernelConfig

  /** A point in time as the kernel keeps it: full turns of the tick count, and the count. */
  datatype Clock = Clock(overflows: nat, tick: Tick) {

    /** The same point in time without wrap-around. */
    function Time(): nat {
      overflows * TICK_MODULUS + tick
    }
  }

  /** TickType_t addition and subtraction. */
  function Plus(a: Tick, b: Tick): Tick {
    if a + b < TICK_MODULUS then a + b else a + b - TICK_MODULUS
  }

  function Minus(a: Tick, b: Tick): Tick {
    if b <= a then a - b else a + TICK_MODULUS - b
  }

  /** The tick count tells how long ago `c` was, but for full turns. */
  lemma MinusIsElapsed(c: Clock, now: Clock)
    requires c.Time() <= now.Time()
    ensures c.overflows == now.overflows ==> now.Time() - c.Time() == now.tick - c.tick
    ensures c.overflows <= now.overflows
    ensures Minus(now.tick, c.tick) <= now.Time() - c.Time()
    ensures now.Time() - c.Time() < TICK_MODULUS <==> now.Time() - c.Time() == Minus(now.tick, c.tick)
    ensures now.Time() - c.Time() < TICK_MODULUS <==>
      if now.tick < c.tick then now.overflows == c.overflows + 1 else now.overflows == c.overflows
  {}

  // ----- xTaskCheckForTimeOut -------------------------------------------------------

  datatype Checked = Checked(timedOut: bool, entry: Clock, remaining: Tick)

  /** What a check makes of the stored entry time and the remaining block time. */
  function Check(entry: Clock, remaining: Tick, now: Clock): Checked {
    if remaining == MAX_DELAY then Checked(false, entry, remaining)
    else if now.overflows != entry.overflows && entry.tick <= now.tick then Checked(true, entry, remaining)
    else if Minus(now.tick, entry.tick) < remaining then
      Checked(false, now, remaining - Minus(now.tick, entry.tick))
    else Checked(true, entry, remaining)
  }

  /** TimeOut_t. */
  class TimeOut {
    var overflowCount: nat
    var timeOnEntering: Tick

    function Entry(): Clock
      reads this
    {
      Clock(overflowCount, timeOnEntering)
    }

    /** vTaskSetTimeOutState. */
    method SetState(numOfOverflows: nat, tickCount: Tick)
      modifies this
      ensures Entry() == Clock(numOfOverflows, tickCount)
    {
      overflowCount := numOfOverflows;
      timeOnEntering := tickCount;
    }

    /** xTaskCheckForTimeOut. */
    method CheckForTimeOut(numOfOverflows: nat, tickCount: Tick, ticksToWait: Tick)
        returns (timedOut: bool, remaining: Tick)
      modifies this
      ensures Checked(timedOut, Entry(), remaining) == Check(old(Entry()), ticksToWait,
          Clock(numOfOverflows, tickCount))
    {
      remaining := ticksToWait;
      if ticksToWait == MAX_DELAY {
        timedOut := false;
      } else if numOfOverflows != overflowCount && timeOnEntering <= tickCount {
        timedOut := true;
      } else if Minus(tickCount, timeOnEntering) < ticksToWait {
        remaining := ticksToWait - Minus(tickCount, timeOnEntering);
        SetState(numOfOverflows, tickCount);
        timedOut := false;
      } else {
        timedOut := true;
      }
    }
  }

  /** One check keeps the deadline: entry time and remaining ticks add up to the same, some
      ticks remain, and the check reports a timeout exactly when the deadline is reached. */
  lemma CheckKeepsDeadline(entry: Clock, remaining: Tick, now: Clock)
    requires remaining < MAX_DELAY && entry.Time() <= now.Time() < entry.Time() + TICK_MODULUS
    ensures var c := Check(entry, remaining, now);
            && (c.timedOut <==> entry.Time() + remaining <= now.Time())
            && c.entry.Time() + c.remaining == entry.Time() + remaining
            && (!c.timedOut ==> c.entry == now && 0 < c.remaining < MAX_DELAY)
  {
    MinusIsElapsed(entry, now);
  }

  /** A check that comes a full turn or more after the last one is right exactly when the
      tick count is not below the entry tick, or shows at least the remaining ticks. */
  lemma CheckIsRightExactly(entry: Clock, remaining: Tick, now: Clock)
    requires remaining < MAX_DELAY && entry.Time() <= now.Time()
    ensures (Check(entry, remaining, now).timedOut <==> entry.Time() + remaining <= now.Time())
      <==> (now.Time() < entry.Time() + TICK_MODULUS || entry.tick <= now.tick
        || remaining <= Minus(now.tick, entry.tick))
  {
    MinusIsElapsed(entry, now);
  }

  /** It can be wrong: nearly two turns after entry, with a block time of less than one turn,
      a check at tick 0 finds one tick left. */
  lemma LateCheckMissesTimeout()
    ensures var entry, now := Clock(0, 3), Clock(2, 0);
            && entry.Time() + (TICK_MODULUS - 2) < now.Time()
            && Check(entry, TICK_MODULUS - 2, now) == Checked(false, now, 1)
  {}

  /** A sequence of checks, up to the one that reports a timeout. */
  function CheckAll(entry: Clock, remaining: Tick, times: seq<Clock>): Checked
    decreases |times|
  {
    if times == [] then Checked(false, entry, remaining)
    else
      var c := Check(entry, remaining, times[0]);
      if c.timedOut then c else CheckAll(c.entry, c.remaining, times[1..])
  }

  /** The checks come in order, each less than a full turn after the one before. */
  predicate Frequent(from: Clock, times: seq<Clock>)
    decreases |times|
  {
    times == [] || (from.Time() <= times[0].Time() < from.Time() + TICK_MODULUS && Frequent(times[0], times[1..]))
  }

  /** The deadline is conserved through any number of checks and wraps: a timeout is
      reported by the first check at or after the original deadline, and by none before. */
  lemma {:induction false} DeadlineIsConserved(entry: Clock, remaining: Tick, times: seq<Clock>)
    requires remaining < MAX_DELAY && Frequent(entry, times)
    ensures var c := CheckAll(entry, remaining, times);
            && c.entry.Time() + c.remaining == entry.Time() + remaining
            && (c.timedOut <==> exists i :: 0 <= i < |times| && entry.Time() + remaining <= times[i].Time())
            && (!c.timedOut && times != [] ==> c.entry == times[|times| - 1] && 0 < c.remaining)
    decreases |times|
  {
    if times != [] {
      CheckKeepsDeadline(entry, remaining, times[0]);
      var c := Check(entry, remaining, times[0]);
      if !c.timedOut {
        DeadlineIsConserved(c.entry, c.remaining, times[1..]);
        forall i | 0 <= i < |times| && entry.Time() + remaining <= times[i].Time()
          ensures exists j :: 0 <= j < |times[1..]| && entry.Time() + remaining <= times[1..][j].Time()
        {
          assert times[1..][i - 1] == times[i];
        }
        forall j | 0 <= j < |times[1..]| && entry.Time() + remaining <= times[1..][j].Time()
          ensures exists i :: 0 <= i < |times| && entry.Time() + remaining <= times[i].Time()
        {
          assert times[j + 1] == times[1..][j];
        }
      }
    }
  }

  // ----- vTaskDelayUntil ------------------------------------------------------------

  datatype Delayed = Delayed(reference: Tick, shouldDelay: bool, ticks: Tick)

  /** Circular distance decides: the task sleeps for what is left of the period. */
  function Until(previous: Tick, increment: Tick, now: Tick): Delayed {
    var elapsed := Minus(now, previous);
    Delayed(Plus(previous, increment), elapsed < increment, if elapsed < increment then increment - elapsed else 0)
  }

  /** vTaskDelayUntil up to the call of prvAddCurrentTaskToDelayedList. */
  method DelayUntil(previousWakeTime: Tick, timeIncrement: Tick, tickCount: Tick)
    returns (reference: Tick, shouldDelay: bool, ticksToWait: Tick)
    requires 0 < timeIncrement
    ensures Delayed(reference, shouldDelay, ticksToWait) == Until(previousWakeTime, timeIncrement, tickCount)
    ensures shouldDelay ==> 0 < ticksToWait
  {
    shouldDelay := false;
    ticksToWait := 0;
    var timeToWake := Plus(previousWakeTime, timeIncrement);
    if tickCount < previousWakeTime {
      if timeToWake < previousWakeTime && timeToWake > tickCount {
        shouldDelay := true;
      }
    } else {
      if timeToWake < previousWakeTime || timeToWake > tickCount {
        shouldDelay := true;
      }
    }
    reference := timeToWake;
    if shouldDelay {
      ticksToWait := Minus(timeToWake, tickCount);
    }
  }

  function Later(c: Clock, ticks: Tick): Clock {
    Clock(if c.tick + ticks < TICK_MODULUS then c.overflows else c.overflows + 1, Plus(c.tick, ticks))
  }

  lemma LaterIsLater(c: Clock, ticks: Tick)
    ensures Later(c, ticks).Time() == c.Time() + ticks
  {}

  /** Less than a turn after the reference, the task sleeps exactly when the end of the
      period is still to come, and exactly until then. */
  lemma UntilIsExact(previous: Clock, increment: Tick, now: Clock)
    requires 0 < increment && previous.Time() <= now.Time() < previous.Time() + TICK_MODULUS
    ensures var d := Until(previous.tick, increment, now.tick);
            && (d.shouldDelay <==> now.Time() < previous.Time() + increment)
            && (d.shouldDelay ==> now.Time() + d.ticks == previous.Time() + increment)
            && d.reference == Later(previous, increment).tick
  {
    MinusIsElapsed(previous, now);
  }

  /** A call that comes later than that is right exactly when the tick count is at least a
      period past the reference. */
  lemma UntilIsRightExactly(previous: Clock, increment: Tick, now: Clock)
    requires 0 < increment && previous.Time() <= now.Time()
    ensures (Until(previous.tick, increment, now.tick).shouldDelay <==> now.Time() < previous.Time() + increment)
      <==> (now.Time() < previous.Time() + TICK_MODULUS || increment <= Minus(now.tick, previous.tick))
  {
    MinusIsElapsed(previous, now);
  }

  /** It can be wrong: a turn and half a period after the reference, a call for the period of
      10 ticks that was over long ago sleeps for 5 more. */
  lemma LateCallSleepsAgain()
    ensures var previous, now := Clock(0, 3), Clock(1, 8);
            && previous.Time() + 10 < now.Time()
            && Until(previous.tick, 10, now.tick) == Delayed(13, true, 5)
  {}

  /** The stored reference after one call at each of the given times. */
  function References(previous: Tick, increment: Tick, times: seq<Tick>): Tick
    decreases |times|
  {
    if times == [] then previous
    else References(Until(previous, increment, times[0]).reference, increment, times[1..])
  }

  /** The reference time after `n` calls, without wrap-around. */
  function Advanced(previous: Clock, increment: Tick, n: nat): Clock
    decreases n
  {
    if n == 0 then previous else Advanced(Later(previous, increment), increment, n - 1)
  }

  /** No drift: however late the calls come, the reference moves by exactly one period with
      each of them. */
  lemma {:induction false} ReferenceNeverDrifts(previous: Clock, increment: Tick, times: seq<Tick>)
    ensures References(previous.tick, increment, times) == Advanced(previous, increment, |times|).tick
    ensures Advanced(previous, increment, |times|).Time() == previous.Time() + |times| * increment
    decreases |times|
  {
    hide Clock.Time;
    if times == [] {
      NoPeriods(increment);
    } else {
      LaterIsLater(previous, increment);
      ReferenceNeverDrifts(Later(previous, increment), increment, times[1..]);
      OneMorePeriod(|times[1..]|, increment);
    }
  }

  lemma NoPeriods(increment: nat)
    ensures 0 * increment == 0
  {}

  lemma OneMorePeriod(n: nat, increment: nat)
    ensures (n + 1) * increment == increment + n * increment
  {}

  /** A task that runs its loop in less than a period wakes at start + 1, 2, 3, ... periods,
      whenever within the period its calls come. */
  lemma WakesAreEquallySpaced(start: Clock, increment: Tick, times: seq<Tick>, now: Clock)
    requires 0 < increment
    requires start.Time() + |times| * increment <= now.Time() < start.Time() + |times| * increment + increment
    ensures var d := Until(References(start.tick, increment, times), increment, now.tick);
            d.shouldDelay && now.Time() + d.ticks == start.Time() + (|times| + 1) * increment
  {
    ReferenceNeverDrifts(start, increment, times);
    UntilIsExact(Advanced(start, increment, |times|), increment, now);
    assert (|times| + 1) * increment == |times| * increment + increment;
  }
}
