/** The clock of one reconciliation pass (agent/src/reconcile.cpp, `current_time`). */
module PassClock {
  import opened Common

  const NANOS := 1_000_000_000

  /** Wall-clock second and steady-clock nanosecond from which later instants are projected. */
  datatype Clock = Clock(anchorWall: int, anchorSteady: int)

  datatype Instant = Instant(at: int, clock: Clock) | ClockThrew

  /** Division truncating toward zero, as the source's duration cast. */
  function Seconds(nanos: int): int { if nanos >= 0 then nanos / NANOS else -((-nanos) / NANOS) }

  function Sample(c: Clock, sampled: int, steady: int): Instant {
    var elapsed := Seconds(steady - c.anchorSteady);
    if sampled <= 0 || elapsed < 0 || c.anchorWall > INT64_MAX - elapsed then ClockThrew
    else if sampled > c.anchorWall + elapsed then Instant(sampled, Clock(sampled, steady))
    else Instant(c.anchorWall + elapsed, c)
  }

  datatype Reading = Reading(sampled: int, steady: int)

  /** The instants reported for a series of readings; the series stops at the first exception. */
  function Instants(c: Clock, readings: seq<Reading>): seq<int>
    decreases |readings|
  {
    if readings == [] then []
    else
      var r := Sample(c, readings[0].sampled, readings[0].steady);
      if r.ClockThrew? then [] else [r.at] + Instants(r.clock, readings[1..])
  }

  predicate SteadyFrom(steady: int, readings: seq<Reading>) {
    && (forall i :: 0 <= i < |readings| ==> steady <= readings[i].steady)
    && (forall i, j :: 0 <= i < j < |readings| ==> readings[i].steady <= readings[j].steady)
  }

  /** Later readings are never below an earlier instant of the same clock. */
  lemma {:induction false} NeverBelow(c: Clock, steady: int, readings: seq<Reading>)
    requires c.anchorSteady <= steady && SteadyFrom(steady, readings)
    ensures |Instants(c, readings)| <= |readings|
    ensures forall i :: 0 <= i < |Instants(c, readings)| ==>
      && c.anchorWall + Seconds(steady - c.anchorSteady) <= Instants(c, readings)[i]
      && readings[i].sampled <= Instants(c, readings)[i]
    decreases |readings|
  {
    if readings != [] {
      var r := Sample(c, readings[0].sampled, readings[0].steady);
      if r.Instant? {
        assert forall i :: 0 <= i < |readings[1..]| ==> readings[1..][i] == readings[i + 1];
        NeverBelow(r.clock, readings[0].steady, readings[1..]);
        assert forall i :: 1 <= i < |Instants(c, readings)| ==>
                  Instants(c, readings)[i] == Instants(r.clock, readings[1..])[i - 1];
      }
    }
  }

  /**
   * A pass clock anchored at the pass's start never decreases, is never below the wall time sampled for the
   * same reading, and is never below the start, as long as the steady clock itself does not run backwards.
   */
  lemma {:induction false} PassClockMonotone(c: Clock, steady: int, readings: seq<Reading>)
    requires c.anchorSteady <= steady && SteadyFrom(steady, readings)
    ensures var ts := Instants(c, readings);
            && (forall i :: 0 <= i < |ts| ==> c.anchorWall <= ts[i] && i < |readings| && readings[i].sampled <= ts[i])
            && (forall i, j :: 0 <= i < j < |ts| ==> ts[i] <= ts[j])
    decreases |readings|
  {
    NeverBelow(c, steady, readings);
    if readings != [] {
      var r := Sample(c, readings[0].sampled, readings[0].steady);
      if r.Instant? {
        assert forall i :: 0 <= i < |readings[1..]| ==> readings[1..][i] == readings[i + 1];
        NeverBelow(r.clock, readings[0].steady, readings[1..]);
        PassClockMonotone(r.clock, readings[0].steady, readings[1..]);
        assert forall i :: 1 <= i < |Instants(c, readings)| ==>
                  Instants(c, readings)[i] == Instants(r.clock, readings[1..])[i - 1];
      }
    }
  }
}
