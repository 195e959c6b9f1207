/**
 * The speed-sensor listener of the ANT+ package: it turns the wrapping event time and
 * revolution count of each broadcast page into speed, power and distance records, and
 * resets its baselines and distance on the START, STARTPOS and GPXLOAD messages.
 */
module Ant {
  import opened Wrappers
  import opened Collaborators
  import opened SpeedMath
  import opened SpeedState
  import SpeedPage

  class SpeedListener {
    var lastCount: int
    var lastTime: int
    var cCount: int
    var lastNotNullSpeed: real
    var initializing: bool
    var powerRatio: Option<Rolling>
    var simulSpeed: bool
    var distance: real
    var routeData: Option<RouteReader>
    var mass: real
    var wheelSize: real
    var resistance: int
    var power: Power
    /** What Rolling.add returns, as a function of the averager's window and history. */
    const rollingMean: (nat, seq<real>) -> real

    /** The listener's fields as a value. */
    function State(): Listener
      reads this
    {
      Listener(lastCount, lastTime, cCount, lastNotNullSpeed, initializing, powerRatio,
               simulSpeed, distance, routeData, mass, wheelSize, resistance, power)
    }

    ghost predicate Valid()
      reads this
    {
      Inv(State())
    }

    /** The field initialisers: wheel size, resistance and power profile come from the
        preferences at construction; no baseline, not initializing. */
    constructor (prefs: Preferences, rollingMean: (nat, seq<real>) -> real)
      requires prefs.wheelSizeCm > 0.0
      ensures Valid() && State() == Initial(prefs) && this.rollingMean == rollingMean
    {
      lastCount := NoBaseline;
      lastTime := -1;
      cCount := 0;
      lastNotNullSpeed := 0.0;
      initializing := false;
      powerRatio := None;
      simulSpeed := false;
      distance := 0.0;
      routeData := None;
      mass := 0.0;
      wheelSize := prefs.wheelSizeCm;
      resistance := prefs.resistance;
      power := prefs.powerProfile;
      this.rollingMean := rollingMean;
    }

    /** receiveMessage: decode the page, compute the record, and return what is sent
        on the bus (None when nothing is sent). */
    method ReceiveMessage(data: seq<SpeedPage.Byte>, now: int) returns (sent: Option<Telemetry>)
      requires |data| >= 8
      requires Valid() && ProfileLookupOk(State(), SpeedPage.Decode(data).time)
      modifies this
      ensures Valid()
      ensures var reading := SpeedPage.Decode(data);
              StepResult(State(), sent) == Step(old(State()), reading.time, reading.count, now, rollingMean)
    {
      var time := SpeedPage.Join(data[5], data[4]);
      var count := SpeedPage.Join(data[7], data[6]);
      sent := GetTelemetry(time, count, now);
    }

    /** getTelemetry: None where the Java code returns null. */
    method GetTelemetry(time: int, count: int, now: int) returns (t: Option<Telemetry>)
      requires Valid() && ProfileLookupOk(State(), time)
      modifies this
      ensures Valid()
      ensures StepResult(State(), t) == Step(old(State()), time, count, now, rollingMean)
    {
      if lastCount == NoBaseline {
        // first sample: only record the baseline
        lastCount := count;
        lastTime := time;
        return None;
      } else if initializing {
        // flush whatever the link buffered at start-up: wait for the count to change
        if lastCount != count {
          initializing := false;
          lastCount := count;
          lastTime := time;
        }
        return None;
      }

      var tDiff := Low16(time - lastTime);
      if tDiff > MaxTicks {
        // a bogus frame: drop it and take the next sample as a new baseline
        lastCount := NoBaseline;
        return None;
      }

      if tDiff > 0 {
        t := MovingSample(time, count, now);
      } else {
        // no new event time: wait 6 such samples before reporting a stop
        cCount := cCount + 1;
        if cCount < StallRecord {
          return None;
        }
        t := Publish(time, count, 0.0, None, 0.0, now);
      }
    }

    /** getTelemetry for a sample whose time moved on by 1 to 5000 ticks: measure the speed
        from the wheel (or keep the last one while no revolution arrived), price it with the
        power profile, let the route's simulation override it, and publish. */
    method MovingSample(time: int, count: int, now: int) returns (t: Option<Telemetry>)
      requires Valid() && ProfileLookupOk(State(), time)
      requires Measuring(State()) && 0 < TimeDiff(State(), time) <= MaxTicks
      modifies this
      ensures Valid()
      ensures StepResult(State(), t) == Moving(old(State()), time, count, now, rollingMean)
    {
      ghost var s := State();
      var tDiff := Low16(time - lastTime);
      var sDiff := Low16(count - lastCount) as real;
      if sDiff == 0.0 {
        if cCount < ExtrapolationLimit {
          // no revolution yet: keep the last speed
          sDiff := ExtrapolatedRevolutions(lastNotNullSpeed, tDiff, wheelSize);
        }
      }
      assert sDiff == Revolutions(s, time, count);
      var timeS := Seconds(tDiff);
      var distanceKm := DistanceKm(sDiff, wheelSize);
      var speed := SpeedKmh(distanceKm, tDiff);
      lastNotNullSpeed := speed;
      var powerWatts := power.getPower(speed, resistance);
      ghost var m := Measure(s, time, count, rollingMean);
      assert State() == s.(lastNotNullSpeed := speed);

      if simulSpeed && routeData.Some? {
        if routeData.value.routeType == Slope {
          var ended;
          ended, speed, distanceKm := SlopeRide(time, timeS, speed, powerWatts, distanceKm);
          if ended {
            return None;
          }
        } else {
          speed, distanceKm := ProfileRide(time, timeS, powerWatts);
        }
      }
      assert m == Measured(State(), speed, powerWatts, distanceKm);
      cCount := 0;  // a value arrived
      t := Publish(time, count, speed, Some(powerWatts), distanceKm, now);
    }

    /** The slope-route branch of getTelemetry: past the end of the route reset the distance
        and give up the sample; with positive power replace the speed by the physical model's
        speed on the route's gradient and rescale the distance to it. */
    method SlopeRide(time: int, timeS: real, speed: real, watts: int, distanceKm: real)
      returns (ended: bool, rideSpeed: real, rideKm: real)
      requires Valid() && routeData.Some? && 0 < TimeDiff(State(), time)
      requires timeS == Seconds(TimeDiff(State(), time))
      requires speed == SpeedKmh(distanceKm, TimeDiff(State(), time))
      modifies this
      ensures Valid()
      ensures var m := SlopeSimulation(old(State()), time, speed, watts, distanceKm);
              if ended then m == RouteEnded(State()) else m == Measured(State(), rideSpeed, watts, rideKm)
    {
      var p := routeData.value.getPoint(distance);
      if p.None? {
        // end of the road
        distance := 0.0;
        return true, speed, distanceKm;
      }
      ended, rideSpeed, rideKm := false, speed, distanceKm;
      if watts > 0 {
        var realSpeed := power.getRealSpeed(mass, p.value.gradient / 100.0, watts) * 3.6;
        if distanceKm > 0.0 {
          rideKm := (realSpeed / speed) * distanceKm;
        } else {
          rideKm := (realSpeed / 3600.0) * timeS;
        }
        rideSpeed := realSpeed;
      }
      assert State() == old(State());
    }

    /** The power-profile branch of getTelemetry: feed the ratio of the rider's power to the
        route's power to the rolling average, and ride at the route's speed scaled by it. */
    method ProfileRide(time: int, timeS: real, watts: int) returns (rideSpeed: real, rideKm: real)
      requires Valid() && simulSpeed && routeData.Some? && timeS == Seconds(TimeDiff(State(), time))
      requires var p := routeData.value.getPoint(distance); p.Some? && p.value.power != 0.0
      modifies this
      ensures Valid()
      ensures ProfileSimulation(old(State()), time, rollingMean, watts) == Measured(State(), rideSpeed, watts, rideKm)
    {
      var p := routeData.value.getPoint(distance);
      var added := powerRatio.value.Add(watts as real / p.value.power, rollingMean);
      powerRatio := Some(added.1);
      rideSpeed := p.value.speed * added.0;
      rideKm := (rideSpeed / 3600.0) * timeS;
    }

    /** The tail of getTelemetry once a record is due: move the baselines, look up the route
        point at the distance so far, and add this sample's distance. */
    method Publish(time: int, count: int, speed: real, watts: Option<int>, distanceKm: real, now: int)
      returns (t: Option<Telemetry>)
      requires Valid()
      modifies this
      ensures Valid()
      ensures StepResult(State(), t) == Finish(old(State()), time, count, speed, watts, distanceKm, now)
    {
      lastTime := time;
      lastCount := count;
      var distanceMeters := distance * 1000.0;
      var position: Option<Position> := None;
      if routeData.Some? {
        var p := routeData.value.getPoint(distance);
        if p.None? {
          // end of the road
          distance := 0.0;
          return None;
        }
        position := Some(PositionOf(p.value));
      }
      t := Some(Telemetry(speed, watts, distanceMeters, position, now));
      distance := distance + distanceKm;
    }

    /** callback for START, STARTPOS and GPXLOAD. */
    method Callback(m: Message)
      requires Valid()
      requires m.Start? ==> m.prefs.wheelSizeCm > 0.0
      modifies this
      ensures Valid() && State() == AfterMessage(old(State()), m)
    {
      match m
      case Start(prefs) =>
        mass := prefs.totalWeight;
        wheelSize := prefs.wheelSizeCm;
        resistance := prefs.resistance;
        power := prefs.powerProfile;
        simulSpeed := prefs.virtualPower;
        initializing := true;
        lastCount := NoBaseline;
        powerRatio := Some(Rolling(RatioWindow, []));
      case StartPos(km) =>
        distance := km;
      case GpxLoad(route) =>
        routeData := Some(route);
        distance := 0.0;
    }
  }
}
