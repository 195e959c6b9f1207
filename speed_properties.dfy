/**
 * What getTelemetry and callback promise, stated over the specification in SpeedState:
 * baselines and the start-up flush, the bogus-frame discard, the stall debounce, the
 * low-cadence extrapolation, the direct speed formula, and the distance bookkeeping.
 */
module SpeedProperties {
  import opened Wrappers
  import opened Collaborators
  import opened SpeedMath
  import opened SpeedState

  // ---- counters ------------------------------------------------------------------------

  /** Both differences wrap: from 65500 to 20 the clock advanced 56 ticks, and a jump of
      6000 ticks is beyond the bogus-frame limit. */
  lemma WrapExamples()
    ensures Low16(20 - 65500) == 56
    ensures Low16(6000 - 0) == 6000 > MaxTicks
  {}

  // ---- baselines, START and bogus frames -------------------------------------------------

  /** Without a baseline (a new listener, after START, after a bogus frame) a sample only
      records the baseline and produces nothing. */
  lemma FirstSampleOnlySetsBaseline(s: Listener, time: int, count: int, now: int, mean: (nat, seq<real>) -> real)
    requires Inv(s) && s.lastCount == NoBaseline
    ensures Step(s, time, count, now, mean) == StepResult(s.(lastCount := count, lastTime := time), None)
  {}

  /** After START, every sample produces nothing until the count changes from the baseline;
      that sample moves the baseline and ends the start-up flush. */
  lemma InitializingWaitsForCountChange(s: Listener, time: int, count: int, now: int, mean: (nat, seq<real>) -> real)
    requires Inv(s) && s.lastCount != NoBaseline && s.initializing && count >= 0
    ensures var r := Step(s, time, count, now, mean);
            && r.out == None
            && (count == s.lastCount ==> r.next == s)
            && (count != s.lastCount ==>
                  r.next == s.(initializing := false, lastCount := count, lastTime := time)
                  && Measuring(r.next))
  {}

  /** START re-reads the preferences, keeps the distance and the stall count and asks for a
      new baseline, and the first sample after it only records that baseline. */
  lemma StartRequiresFreshBaseline(s: Listener, prefs: Preferences, time: int, count: int, now: int,
                                   mean: (nat, seq<real>) -> real)
    requires Inv(s) && prefs.wheelSizeCm > 0.0
    ensures var started := AfterMessage(s, Start(prefs));
            && started.initializing && started.lastCount == NoBaseline
            && started.distance == s.distance && started.cCount == s.cCount && started.wheelSize == prefs.wheelSizeCm
            && started.powerRatio == Some(Rolling(RatioWindow, []))
            && Step(started, time, count, now, mean)
               == StepResult(started.(lastCount := count, lastTime := time), None)
  {}

  /** A run of samples that all repeat the baseline count keeps the listener in its start-up
      flush: nothing is produced and nothing changes. */
  lemma {:induction false} FlushIgnoresRepeatedCount(s: Listener, samples: seq<Sample>, mean: (nat, seq<real>) -> real)
    requires Inv(s) && s.lastCount != NoBaseline && s.initializing
    requires forall i :: 0 <= i < |samples| ==> samples[i].count == s.lastCount
    ensures RunDefined(s, samples, mean)
    ensures Run(s, samples, mean) == Trace(s, seq(|samples|, _ => None))
    decreases |samples|
  {
    if samples != [] {
      var first := Step(s, samples[0].time, samples[0].count, samples[0].now, mean);
      assert first == StepResult(s, None);
      FlushIgnoresRepeatedCount(s, samples[1..], mean);
      assert [first.out] + seq(|samples| - 1, _ => None) == seq(|samples|, _ => None);
    }
  }

  /** A bogus frame (time moved on by more than 5000 ticks) produces nothing and drops only
      the count baseline; the next sample, whatever it is, only records a new baseline, and
      the sample after that is measured again: there is no second flush. */
  lemma BogusFrameCostsOneSample(s: Listener, time: int, count: int, now: int,
                                 time2: int, count2: int, now2: int, mean: (nat, seq<real>) -> real)
    requires Inv(s) && Measuring(s) && TimeDiff(s, time) > MaxTicks && count2 >= 0
    ensures var r := Step(s, time, count, now, mean);
            && r == StepResult(s.(lastCount := NoBaseline), None)
            && var r2 := Step(r.next, time2, count2, now2, mean);
               && r2 == StepResult(s.(lastCount := count2, lastTime := time2), None)
               && Measuring(r2.next)
  {}

  // ---- samples without a new event time -----------------------------------------------------

  /** A sample whose event time has not moved counts a stall. Nothing is produced before the
      sixth stall in a row; from then on a stop record is produced: speed 0, no power, no
      distance added, and the baselines move to the sample. */
  lemma StallDebounce(s: Listener, time: int, count: int, now: int, mean: (nat, seq<real>) -> real)
    requires Inv(s) && Measuring(s) && TimeDiff(s, time) == 0
    ensures var r := Step(s, time, count, now, mean);
            && r.next.cCount == s.cCount + 1
            && (r.out.Some? <==>
                  s.cCount + 1 >= StallRecord
                  && (s.routeData.None? || s.routeData.value.getPoint(s.distance).Some?))
            && (s.cCount + 1 < StallRecord ==> r.next == s.(cCount := s.cCount + 1))
            && (r.out.Some? ==>
                  && r.out.value.speed == 0.0 && r.out.value.power == None
                  && r.next.distance == s.distance
                  && r.next.lastTime == time && r.next.lastCount == count)
  {}

  /** Stalls short of the sixth produce nothing and only count. */
  lemma {:induction false} StallsStaySilent(s: Listener, samples: seq<Sample>, mean: (nat, seq<real>) -> real)
    requires Inv(s) && Measuring(s)
    requires forall i :: 0 <= i < |samples| ==> TimeDiff(s, samples[i].time) == 0
    requires s.cCount + |samples| < StallRecord
    ensures RunDefined(s, samples, mean)
    ensures Run(s, samples, mean) == Trace(s.(cCount := s.cCount + |samples|), seq(|samples|, _ => None))
    decreases |samples|
  {
    if samples != [] {
      var first := Step(s, samples[0].time, samples[0].count, samples[0].now, mean);
      StallDebounce(s, samples[0].time, samples[0].count, samples[0].now, mean);
      var next := s.(cCount := s.cCount + 1);
      assert first == StepResult(next, None);
      assert forall i :: 0 <= i < |samples[1..]| ==> TimeDiff(next, samples[1..][i].time) == 0;
      StallsStaySilent(next, samples[1..], mean);
      assert [first.out] + seq(|samples| - 1, _ => None) == seq(|samples|, _ => None);
    }
  }

  /** Stalls in a row, without a route: those before the sixth produce nothing, and the
      sixth produces the stop record. From a fresh measurement (cCount 0) that is five silent
      samples and a record on the sixth. */
  lemma {:induction false} SixthStallReportsStop(s: Listener, stalls: seq<Sample>, sixth: Sample,
                                                 mean: (nat, seq<real>) -> real)
    requires Inv(s) && Measuring(s) && s.routeData.None?
    requires s.cCount + |stalls| == StallRecord - 1 && TimeDiff(s, sixth.time) == 0
    requires forall i :: 0 <= i < |stalls| ==> TimeDiff(s, stalls[i].time) == 0
    ensures RunDefined(s, stalls + [sixth], mean)
    ensures Run(s, stalls + [sixth], mean).outs
            == seq(|stalls|, _ => None) + [Some(Telemetry(0.0, None, s.distance * 1000.0, None, sixth.now))]
    decreases |stalls|
  {
    if stalls == [] {
      assert stalls + [sixth] == [sixth];
      SixthStall(s, sixth, mean);
    } else {
      var first := stalls[0];
      StallDebounce(s, first.time, first.count, first.now, mean);
      var next := s.(cCount := s.cCount + 1);
      assert forall i :: 0 <= i < |stalls[1..]| ==> TimeDiff(next, stalls[1..][i].time) == 0;
      SixthStallReportsStop(next, stalls[1..], sixth, mean);
      assert (stalls + [sixth])[0] == first && (stalls + [sixth])[1..] == stalls[1..] + [sixth];
      var silent: seq<Option<Telemetry>> := seq(|stalls| - 1, _ => None);
      assert [None] + silent == seq(|stalls|, _ => None);
    }
  }

  /** The sixth stall in a row, without a route, reports the stop. */
  lemma SixthStall(s: Listener, last: Sample, mean: (nat, seq<real>) -> real)
    requires Inv(s) && Measuring(s) && s.cCount == StallRecord - 1 && s.routeData.None?
    requires TimeDiff(s, last.time) == 0
    ensures RunDefined(s, [last], mean)
    ensures Run(s, [last], mean).outs == [Some(Telemetry(0.0, None, s.distance * 1000.0, None, last.now))]
  {
    var record := Step(s, last.time, last.count, last.now, mean);
    StallDebounce(s, last.time, last.count, last.now, mean);
    assert [last][1..] == [];
    assert Run(s, [last], mean) == Trace(record.next, [record.out]);
  }

  // ---- samples with a new event time --------------------------------------------------------

  /** While no revolution arrives and fewer than 12 stalls preceded, the extrapolated count
      reproduces the last speed exactly: the last speed is kept and, without simulation, that
      is the speed recorded. */
  lemma ExtrapolationKeepsLastSpeed(s: Listener, time: int, count: int, now: int, mean: (nat, seq<real>) -> real)
    requires Inv(s) && Measuring(s) && 0 < TimeDiff(s, time) <= MaxTicks && ProfileLookupOk(s, time)
    requires CountDiff(s, count) == 0 && s.cCount < ExtrapolationLimit
    ensures var r := Step(s, time, count, now, mean);
            && r.next.lastNotNullSpeed == s.lastNotNullSpeed
            && (!s.simulSpeed && r.out.Some? ==> r.out.value.speed == s.lastNotNullSpeed)
  {
    assert WheelSpeed(s, time, count) == s.lastNotNullSpeed;
  }

  /** Every sample whose event time moved on and that produces a record clears the stall
      count; a moving sample never adds a stall. */
  lemma MovingSampleClearsStalls(s: Listener, time: int, count: int, now: int, mean: (nat, seq<real>) -> real)
    requires Inv(s) && Measuring(s) && 0 < TimeDiff(s, time) <= MaxTicks && ProfileLookupOk(s, time)
    ensures var r := Step(s, time, count, now, mean);
            && (r.out.Some? ==> r.next.cCount == 0)
            && (r.next.cCount == 0 || r.next.cCount == s.cCount)
  {}

  /** Direct measurement (no simulation, no route): a record with the speed that covers the
      revolutions times the wheel size in tDiff ticks, priced by the power profile, stamped
      with the distance so far; the distance then grows by the revolutions times the wheel
      size, and the baselines and last speed move. */
  lemma DirectMeasurement(s: Listener, time: int, count: int, now: int, mean: (nat, seq<real>) -> real)
    requires Inv(s) && Measuring(s) && 0 < TimeDiff(s, time) <= MaxTicks
    requires !s.simulSpeed && s.routeData.None?
    requires CountDiff(s, count) > 0 || s.cCount >= ExtrapolationLimit
    ensures var distanceKm := DistanceKm(CountDiff(s, count) as real, s.wheelSize);
            var speed := SpeedKmh(distanceKm, TimeDiff(s, time));
            var r := Step(s, time, count, now, mean);
            && speed * (Seconds(TimeDiff(s, time)) / 3600.0) == distanceKm
            && r.out == Some(Telemetry(speed, Some(s.power.getPower(speed, s.resistance)),
                                       s.distance * 1000.0, None, now))
            && r.next == s.(lastNotNullSpeed := speed, cCount := 0, lastTime := time, lastCount := count,
                            distance := s.distance + distanceKm)
  {
    assert Revolutions(s, time, count) == CountDiff(s, count) as real;
  }

  /** The worked figures: a 213.3 cm wheel turning 5 times in 1024 ticks (one second) covers
      0.010665 km, which is 38.394 km/h. */
  lemma DirectSpeedExample()
    ensures DistanceKm(5.0, 213.3) == 0.010665
    ensures SpeedKmh(0.010665, 1024) == 38.394
  {}

  /** A session from START without virtual power and without a route: the first sample is the
      baseline, the second (a new count) ends the flush, and only the third is measured. */
  lemma StartScenario(s: Listener, prefs: Preferences, now1: int, now2: int, now3: int,
                      mean: (nat, seq<real>) -> real)
    requires Inv(s) && s.routeData.None?
    requires prefs.wheelSizeCm == 213.3 && !prefs.virtualPower
    ensures var started := AfterMessage(s, Start(prefs));
            var samples := [Sample(100, 50, now1), Sample(1124, 55, now2), Sample(2148, 60, now3)];
            && RunDefined(started, samples, mean)
            && var trace := Run(started, samples, mean);
               && trace.outs == [None, None, Some(Telemetry(38.394, Some(prefs.powerProfile.getPower(38.394, prefs.resistance)),
                                                            s.distance * 1000.0, None, now3))]
               && trace.last.distance == s.distance + 0.010665
  {
    var started := AfterMessage(s, Start(prefs));
    var r1 := Step(started, 100, 50, now1, mean);
    assert r1.next == started.(lastCount := 50, lastTime := 100);
    var r2 := Step(r1.next, 1124, 55, now2, mean);
    assert r2.next == r1.next.(initializing := false, lastCount := 55, lastTime := 1124);
    assert TimeDiff(r2.next, 2148) == 1024 && CountDiff(r2.next, 60) == 5;
    DirectSpeedExample();
    DirectMeasurement(r2.next, 2148, 60, now3, mean);
    var r3 := Step(r2.next, 2148, 60, now3, mean);
    var samples := [Sample(100, 50, now1), Sample(1124, 55, now2), Sample(2148, 60, now3)];
    var tail2 := samples[1..];
    var tail3 := tail2[1..];
    assert tail2 == [Sample(1124, 55, now2), Sample(2148, 60, now3)];
    assert tail3 == [Sample(2148, 60, now3)] && tail3[1..] == [];
    assert RunDefined(r3.next, [], mean);
    assert RunDefined(r2.next, tail3, mean);
    assert RunDefined(r1.next, tail2, mean);
    assert RunDefined(started, samples, mean);
    assert Run(r2.next, tail3, mean) == Trace(r3.next, [r3.out]);
    assert Run(r1.next, tail2, mean) == Trace(r3.next, [r2.out, r3.out]);
  }

  // ---- distance ----------------------------------------------------------------------------

  /** A record carries the distance before this sample's contribution, and the route point it
      copies is looked up at that same distance. */
  lemma RecordCarriesDistanceBeforeSample(s: Listener, time: int, count: int, now: int, mean: (nat, seq<real>) -> real)
    requires Inv(s) && ProfileLookupOk(s, time)
    ensures var r := Step(s, time, count, now, mean);
            r.out.Some? ==>
              && r.out.value.distanceMeters == s.distance * 1000.0
              && r.out.value.time == now
              && (s.routeData.None? ==> r.out.value.position == None)
              && (s.routeData.Some? ==>
                    var p := s.routeData.value.getPoint(s.distance);
                    p.Some? && r.out.value.position == Some(PositionOf(p.value)))
  {}

  /** Without virtual power the distance never goes down, except that it is reset to 0 when
      the route has no point at the current distance (the end of the route), in which case
      nothing is produced. */
  lemma DistanceDropsOnlyAtRouteEnd(s: Listener, time: int, count: int, now: int, mean: (nat, seq<real>) -> real)
    requires Inv(s) && !s.simulSpeed
    ensures var r := Step(s, time, count, now, mean);
            || r.next.distance >= s.distance
            || (&& r.next.distance == 0.0 && r.out == None
                && s.routeData.Some? && s.routeData.value.getPoint(s.distance).None?)
  {
    if Measuring(s) && 0 < TimeDiff(s, time) <= MaxTicks {
      assert DistanceKm(Revolutions(s, time, count), s.wheelSize) >= 0.0;
    }
  }

  /** On a slope route with virtual power, a sample inside the route is recorded with the
      profile's power for the wheel speed. With positive power the speed is the physical
      model's speed on the route's gradient; otherwise the wheel speed and the wheel's
      distance are kept. */
  lemma SlopeRouteRecord(s: Listener, time: int, count: int, now: int, mean: (nat, seq<real>) -> real)
    requires Inv(s) && Measuring(s) && 0 < TimeDiff(s, time) <= MaxTicks
    requires s.simulSpeed && s.routeData.Some? && s.routeData.value.routeType == Slope
    requires s.routeData.value.getPoint(s.distance).Some?
    ensures var r := Step(s, time, count, now, mean);
            var wheel := WheelSpeed(s, time, count);
            var watts := s.power.getPower(wheel, s.resistance);
            var p := s.routeData.value.getPoint(s.distance).value;
            && r.out.Some? && r.out.value.power == Some(watts)
            && r.next.lastNotNullSpeed == wheel && r.next.cCount == 0
            && (watts > 0 ==> r.out.value.speed == s.power.getRealSpeed(s.mass, p.gradient / 100.0, watts) * 3.6)
            && (watts <= 0 ==>
                  && r.out.value.speed == wheel
                  && r.next.distance == s.distance + DistanceKm(Revolutions(s, time, count), s.wheelSize))
  {}

  /** On a power-profile route with virtual power, the averager receives the ratio of the
      rider's power to the route point's power, and the speed recorded is the route's speed
      times what the averager returns for its new history. */
  lemma ProfileRouteRecord(s: Listener, time: int, count: int, now: int, mean: (nat, seq<real>) -> real)
    requires Inv(s) && ProfileLookupOk(s, time) && ReachesProfile(s, time)
    ensures var r := Step(s, time, count, now, mean);
            var watts := s.power.getPower(WheelSpeed(s, time, count), s.resistance);
            var p := s.routeData.value.getPoint(s.distance).value;
            var ratio := s.powerRatio.value;
            var history := ratio.added + [watts as real / p.power];
            && r.out.Some? && r.out.value.power == Some(watts)
            && r.next.powerRatio == Some(Rolling(ratio.size, history))
            && r.out.value.speed == p.speed * mean(ratio.size, history)
  {}

  /** At the end of the route (no point at the current distance) every sample that would
      produce a record, on the slope branch or in the tail, instead rewinds the distance to 0
      and produces nothing. */
  lemma RouteEndResets(s: Listener, time: int, count: int, now: int, mean: (nat, seq<real>) -> real)
    requires Inv(s) && ProfileLookupOk(s, time) && Measuring(s)
    requires s.routeData.Some? && s.routeData.value.getPoint(s.distance).None?
    requires 0 < TimeDiff(s, time) <= MaxTicks || (TimeDiff(s, time) == 0 && s.cCount + 1 >= StallRecord)
    ensures var r := Step(s, time, count, now, mean);
            r.next.distance == 0.0 && r.out == None
  {}

  /** A moving sample that produces a record adds to the distance exactly what the measurement
      (direct or simulated) reports, and records the measured speed. */
  lemma RecordAddsMeasuredDistance(s: Listener, time: int, count: int, now: int, mean: (nat, seq<real>) -> real)
    requires Inv(s) && ProfileLookupOk(s, time) && Measuring(s) && 0 < TimeDiff(s, time) <= MaxTicks
    ensures var r := Step(s, time, count, now, mean);
            var m := Measure(s, time, count, mean);
            r.out.Some? ==>
              && m.Measured?
              && r.next.distance == s.distance + m.distanceKm
              && r.out.value.speed == m.speed
  {}

  /** Whatever overrides the speed, the distance a moving record adds is the recorded speed
      times the elapsed hours. */
  lemma RecordAdvancesBySpeedTimesHours(s: Listener, time: int, count: int, now: int,
                                        mean: (nat, seq<real>) -> real)
    requires Inv(s) && ProfileLookupOk(s, time) && Measuring(s) && 0 < TimeDiff(s, time) <= MaxTicks
    ensures var r := Step(s, time, count, now, mean);
            r.out.Some? ==>
              r.next.distance == s.distance + r.out.value.speed * (Seconds(TimeDiff(s, time)) / 3600.0)
  {
    RecordAddsMeasuredDistance(s, time, count, now, mean);
  }

  /** Without virtual power and without a route, any sequence of samples leaves the distance at
      least where it was. */
  lemma {:induction false} DistanceNeverDecreasesWithoutRoute(s: Listener, samples: seq<Sample>,
                                                             mean: (nat, seq<real>) -> real)
    requires Inv(s) && !s.simulSpeed && s.routeData.None?
    ensures RunDefined(s, samples, mean)
    ensures Run(s, samples, mean).last.distance >= s.distance
    decreases |samples|
  {
    if samples != [] {
      var first := Step(s, samples[0].time, samples[0].count, samples[0].now, mean);
      DistanceDropsOnlyAtRouteEnd(s, samples[0].time, samples[0].count, samples[0].now, mean);
      DistanceNeverDecreasesWithoutRoute(first.next, samples[1..], mean);
    }
  }

  /** STARTPOS sets the distance to its payload and GPXLOAD attaches the route and rewinds the
      distance to 0; neither touches the baselines or the measurement state. */
  lemma PositionMessages(s: Listener, km: real, route: RouteReader)
    requires Inv(s)
    ensures AfterMessage(s, StartPos(km)) == s.(distance := km)
    ensures var loaded := AfterMessage(s, GpxLoad(route));
            && loaded.distance == 0.0 && loaded.routeData == Some(route)
            && loaded.lastCount == s.lastCount && loaded.lastTime == s.lastTime
            && loaded.initializing == s.initializing && loaded.cCount == s.cCount
  {}
}
