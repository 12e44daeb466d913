/** Pacing: how many samples a tick should consume, given the wall-clock
    time (in milliseconds) passed in by the caller. */
module Pacing {
  import opened Common

  /** `get_unprocessed_samples`.  The first tick after `prev_time` was
      cleared yields 0; every later tick yields the whole number of sample
      periods `1000 / (rate * speed)` that fit in the time since the previous
      tick, truncated toward zero.  The fraction left over is discarded.  In
      both cases the caller records `now` as the new `prev_time`; a zero
      `rate * speed` raises `ZeroDivisionError`. */
  function UnprocessedSamples(prevTime: Option<real>, now: real, samplingRate: nat, speed: real): (r: Result<int>)
    ensures prevTime.None? ==> r == Ok(0)
    ensures prevTime.Some? ==> (r.Err? <==> samplingRate as real * speed == 0.0)
    ensures r.Err? ==> r.error == ZeroDivisionError
    ensures prevTime.Some? && r.Ok? ==>
      r.value == Trunc((now - prevTime.value) * (samplingRate as real * speed) / 1000.0)
  {
    match prevTime
    case None => Ok(0)
    case Some(prev) =>
      var passed := now - prev;
      var rateTimesSpeed := samplingRate as real * speed;
      if rateTimesSpeed == 0.0 then Err(ZeroDivisionError)
      else
        var timePerSample := 1000.0 / rateTimesSpeed;
        PeriodsElapsed(passed, rateTimesSpeed);
        Ok(Trunc(passed / timePerSample))
  }

  /** Dividing by the sample period is multiplying by the sample rate. */
  lemma PeriodsElapsed(passed: real, rateTimesSpeed: real)
    requires rateTimesSpeed != 0.0
    ensures passed / (1000.0 / rateTimesSpeed) == passed * rateTimesSpeed / 1000.0
  {
    var t := 1000.0 / rateTimesSpeed;
    assert t * rateTimesSpeed == 1000.0;
    assert t != 0.0;
    calc {
      passed / t;
      (passed / t) * (t * rateTimesSpeed) / 1000.0;
      passed * rateTimesSpeed / 1000.0;
    }
  }

  /** Scaling a time span by the rate distributes over consecutive spans. */
  lemma SpansAdd(a: real, b: real, c: real, rateTimesSpeed: real)
    ensures (c - a) * rateTimesSpeed / 1000.0
         == (b - a) * rateTimesSpeed / 1000.0 + (c - b) * rateTimesSpeed / 1000.0
  {
    assert (c - a) * rateTimesSpeed == (b - a) * rateTimesSpeed + (c - b) * rateTimesSpeed;
  }

  /** For a forward-moving clock the count is the floor of the elapsed time
      measured in sample periods. */
  lemma SamplesAreWholePeriods(prev: real, now: real, samplingRate: nat, speed: real)
    requires samplingRate as real * speed > 0.0
    requires now >= prev
    ensures var r := UnprocessedSamples(Some(prev), now, samplingRate, speed);
      && r.Ok?
      && r.value >= 0
      && r.value as real * 1000.0 <= (now - prev) * (samplingRate as real * speed)
      && (now - prev) * (samplingRate as real * speed) < (r.value + 1) as real * 1000.0
  {
    var rs := samplingRate as real * speed;
    var u := (now - prev) * rs / 1000.0;
    assert u >= 0.0;
    var n := Trunc(u);
    assert n as real <= u < n as real + 1.0;
    assert u * 1000.0 == (now - prev) * rs;
  }

  /** A tick that comes less than one sample period after the previous one
      consumes nothing, however many such ticks follow. */
  lemma ShortTickDispensesNothing(prev: real, now: real, samplingRate: nat, speed: real)
    requires samplingRate as real * speed > 0.0
    requires 0.0 <= now - prev < 1000.0 / (samplingRate as real * speed)
    ensures UnprocessedSamples(Some(prev), now, samplingRate, speed) == Ok(0)
  {
    var rs := samplingRate as real * speed;
    var period := 1000.0 / rs;
    assert period * rs == 1000.0;
    assert (now - prev) * rs < period * rs;
    SamplesAreWholePeriods(prev, now, samplingRate, speed);
  }

  /** Total samples dispensed by ticks at `times` (the first tick only
      records the time). */
  function Dispensed(times: seq<real>, samplingRate: nat, speed: real): int
    requires samplingRate as real * speed != 0.0
  {
    if |times| <= 1 then 0
    else
      Dispensed(times[..|times| - 1], samplingRate, speed)
      + UnprocessedSamples(Some(times[|times| - 2]), times[|times| - 1], samplingRate, speed).value
  }

  /** Samples due after the wall-clock span of `times`. */
  function Due(times: seq<real>, samplingRate: nat, speed: real): real
    requires |times| >= 1
  {
    (times[|times| - 1] - times[0]) * (samplingRate as real * speed) / 1000.0
  }

  /** Drift: with a forward-moving clock the ticks never dispense more than
      is due, and may fall short by up to (but not including) one sample per
      tick, because each tick discards its fractional remainder. */
  lemma {:induction false} DispensedDrift(times: seq<real>, samplingRate: nat, speed: real)
    requires samplingRate as real * speed > 0.0
    requires |times| >= 1
    requires forall i :: 0 < i < |times| ==> times[i - 1] <= times[i]
    ensures Dispensed(times, samplingRate, speed) as real <= Due(times, samplingRate, speed)
    ensures |times| >= 2 ==>
      Due(times, samplingRate, speed) < (Dispensed(times, samplingRate, speed) + |times| - 1) as real
  {
    if |times| >= 2 {
      var init := times[..|times| - 1];
      assert forall i :: 0 < i < |init| ==> init[i - 1] <= init[i] by {
        forall i | 0 < i < |init| ensures init[i - 1] <= init[i] {
          assert init[i] == times[i] && init[i - 1] == times[i - 1];
        }
      }
      DispensedDrift(init, samplingRate, speed);
      DriftOneMoreTick(times, samplingRate, speed);
    } else {
      DueOfOneTick(times, samplingRate, speed);
    }
  }

  /** The last tick of a run dispenses a whole number of samples that is
      within one sample of its span. */
  lemma LastTick(times: seq<real>, samplingRate: nat, speed: real) returns (k: int)
    requires samplingRate as real * speed > 0.0
    requires |times| >= 2
    requires times[|times| - 2] <= times[|times| - 1]
    ensures Dispensed(times, samplingRate, speed) == Dispensed(times[..|times| - 1], samplingRate, speed) + k
    ensures var u := (times[|times| - 1] - times[|times| - 2]) * (samplingRate as real * speed) / 1000.0;
      k as real <= u < k as real + 1.0
  {
    k := TickBounds(times[|times| - 2], times[|times| - 1], samplingRate, speed);
  }

  /** The induction step of `DispensedDrift`: the bounds survive one more
      tick. */
  lemma DriftOneMoreTick(times: seq<real>, samplingRate: nat, speed: real)
    requires samplingRate as real * speed > 0.0
    requires |times| >= 2
    requires times[|times| - 2] <= times[|times| - 1]
    requires var init := times[..|times| - 1];
      && Dispensed(init, samplingRate, speed) as real <= Due(init, samplingRate, speed)
      && (|init| >= 2 ==> Due(init, samplingRate, speed) < (Dispensed(init, samplingRate, speed) + |init| - 1) as real)
    ensures Dispensed(times, samplingRate, speed) as real <= Due(times, samplingRate, speed)
    ensures Due(times, samplingRate, speed) < (Dispensed(times, samplingRate, speed) + |times| - 1) as real
  {
    var init := times[..|times| - 1];
    if |init| == 1 {
      DueOfOneTick(init, samplingRate, speed);
    }
    var k := LastTick(times, samplingRate, speed);
    var u := (times[|times| - 1] - times[|times| - 2]) * (samplingRate as real * speed) / 1000.0;
    DueStep(times, samplingRate, speed);
    DriftStep(Dispensed(init, samplingRate, speed), Due(init, samplingRate, speed), k, u, |init|);
  }

  /** The due count of a run is that of the run without its last tick plus
      the last tick's span in sample units. */
  lemma DueStep(times: seq<real>, samplingRate: nat, speed: real)
    requires |times| >= 2
    ensures Due(times, samplingRate, speed)
         == Due(times[..|times| - 1], samplingRate, speed)
            + (times[|times| - 1] - times[|times| - 2]) * (samplingRate as real * speed) / 1000.0
  {
    var init := times[..|times| - 1];
    var rs := samplingRate as real * speed;
    var a, b, c := times[0], times[|times| - 2], times[|times| - 1];
    assert init[0] == a && init[|init| - 1] == b;
    assert Due(times, samplingRate, speed) == (c - a) * rs / 1000.0;
    assert Due(init, samplingRate, speed) == (b - a) * rs / 1000.0;
    SpansAdd(a, b, c, rs);
  }

  /** A run of a single tick spans no time. */
  lemma DueOfOneTick(times: seq<real>, samplingRate: nat, speed: real)
    requires |times| == 1
    ensures Due(times, samplingRate, speed) == 0.0
  {
    assert times[|times| - 1] - times[0] == 0.0;
  }

  /** The arithmetic of one induction step of `DispensedDrift`. */
  lemma DriftStep(before: int, dueBefore: real, k: int, u: real, ticks: nat)
    requires ticks >= 1
    requires before as real <= dueBefore
    requires ticks >= 2 ==> dueBefore < (before + ticks - 1) as real
    requires ticks == 1 ==> dueBefore == 0.0 && before == 0
    requires k as real <= u < k as real + 1.0
    ensures (before + k) as real <= dueBefore + u
    ensures dueBefore + u < (before + k + ticks) as real
  {
  }

  /** One tick of a forward-moving clock, in sample units. */
  lemma TickBounds(prev: real, now: real, samplingRate: nat, speed: real) returns (k: int)
    requires samplingRate as real * speed > 0.0
    requires now >= prev
    ensures UnprocessedSamples(Some(prev), now, samplingRate, speed) == Ok(k)
    ensures k as real <= (now - prev) * (samplingRate as real * speed) / 1000.0 < k as real + 1.0
  {
    SamplesAreWholePeriods(prev, now, samplingRate, speed);
    k := UnprocessedSamples(Some(prev), now, samplingRate, speed).value;
  }

  /** At the slowest playback speed (slider 1, speed 0.25) on a 125 Hz
      board one sample lasts 32 ms, so ticks arriving more often than that
      never dispense a sample and playback does not advance. */
  lemma {:induction false} SlowPlaybackStalls(times: seq<real>)
    requires |times| >= 1
    requires forall i :: 0 < i < |times| ==> 0.0 <= times[i] - times[i - 1] < 32.0
    ensures Dispensed(times, 125, 0.25) == 0
  {
    if |times| >= 2 {
      var init := times[..|times| - 1];
      assert forall i :: 0 < i < |init| ==> 0.0 <= init[i] - init[i - 1] < 32.0 by {
        forall i | 0 < i < |init| ensures 0.0 <= init[i] - init[i - 1] < 32.0 {
          assert init[i] == times[i] && init[i - 1] == times[i - 1];
        }
      }
      SlowPlaybackStalls(init);
      ShortTickDispensesNothing(times[|times| - 2], times[|times| - 1], 125, 0.25);
    }
  }

  /** The remainder is not carried over: three ticks 16 ms apart (the
      60 Hz refresh timer) span one full sample period at that speed, yet
      dispense nothing. */
  lemma RemainderIsDropped()
    ensures Due([0.0, 16.0, 32.0], 125, 0.25) == 1.0
    ensures Dispensed([0.0, 16.0, 32.0], 125, 0.25) == 0
  {
    SlowPlaybackStalls([0.0, 16.0, 32.0]);
  }
}
