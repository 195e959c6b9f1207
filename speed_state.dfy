/**
 * SpeedListener's state as a value, and what one call of getTelemetry or callback does
 * to it. The class in module Ant is proved to behave exactly as these functions say.
 */
module SpeedState {
  import opened Wrappers
  import opened Collaborators
  import opened SpeedMath

  /** The fields of a SpeedListener. */
  datatype Listener = Listener(
    lastCount: int,
    lastTime: int,
    cCount: int,
    lastNotNullSpeed: real,
    initializing: bool,
    powerRatio: Option<Rolling>,
    simulSpeed: bool,
    distance: real,
    routeData: Option<RouteReader>,
    mass: real,
    wheelSize: real,
    resistance: int,
    power: Power)

  /** What getTelemetry leaves behind and what it returns (None for null). */
  datatype StepResult = StepResult(next: Listener, out: Option<Telemetry>)

  /** The control messages SpeedListener subscribes to, with their payloads. START carries the
      preference values it reads from UserPreferences. */
  datatype Message = Start(prefs: Preferences) | StartPos(km: real) | GpxLoad(route: RouteReader)

  /** lastCount == NoBaseline means the next sample only records a baseline. */
  const NoBaseline := -1
  /** Larger time differences are bogus frames. */
  const MaxTicks := 5000
  /** A zero time difference produces a record only once cCount reaches this. */
  const StallRecord := 6
  /** A zero revolution difference is extrapolated only while cCount is below this. */
  const ExtrapolationLimit := 12
  /** The window of the power-ratio averager START creates. */
  const RatioWindow: nat := 10

  /** What every reachable state satisfies. */
  predicate Inv(s: Listener) {
    && s.wheelSize > 0.0
    && s.lastNotNullSpeed >= 0.0
    && (s.simulSpeed ==> s.powerRatio.Some?)
  }

  /** The fields as a new SpeedListener initialises them. */
  function Initial(prefs: Preferences): (s: Listener)
    requires prefs.wheelSizeCm > 0.0
    ensures Inv(s) && s.lastCount == NoBaseline && !s.initializing && !s.simulSpeed
  {
    Listener(NoBaseline, -1, 0, 0.0, false, None, false, 0.0, None, 0.0,
             prefs.wheelSizeCm, prefs.resistance, prefs.powerProfile)
  }

  /** callback: START re-reads the preferences and asks for a fresh baseline;
      STARTPOS sets the distance; GPXLOAD attaches a route and rewinds the distance. */
  function AfterMessage(s: Listener, m: Message): (r: Listener)
    requires Inv(s)
    requires m.Start? ==> m.prefs.wheelSizeCm > 0.0
    ensures Inv(r)
  {
    match m
    case Start(prefs) =>
      s.(mass := prefs.totalWeight, wheelSize := prefs.wheelSizeCm,
         resistance := prefs.resistance, power := prefs.powerProfile,
         simulSpeed := prefs.virtualPower, initializing := true,
         lastCount := NoBaseline, powerRatio := Some(Rolling(RatioWindow, [])))
    case StartPos(km) => s.(distance := km)
    case GpxLoad(route) => s.(routeData := Some(route), distance := 0.0)
  }

  /** Both baselines are set and the start-up flush is over: samples are measured. */
  predicate Measuring(s: Listener) {
    s.lastCount != NoBaseline && !s.initializing
  }

  /** The time difference getTelemetry computes for a sample in state s. */
  function TimeDiff(s: Listener, time: int): int {
    Low16(time - s.lastTime)
  }

  /** The revolution difference getTelemetry computes for a sample in state s. */
  function CountDiff(s: Listener, count: int): int {
    Low16(count - s.lastCount)
  }

  /** A sample that reaches the power-profile branch of getTelemetry. */
  predicate ReachesProfile(s: Listener, time: int) {
    && Measuring(s)
    && 0 < TimeDiff(s, time) <= MaxTicks
    && s.simulSpeed && s.routeData.Some? && s.routeData.value.routeType == Profile
  }

  /** The power-profile branch dereferences the route point and divides by its power. */
  predicate ProfileLookupOk(s: Listener, time: int) {
    || !ReachesProfile(s, time)
    || (var p := s.routeData.value.getPoint(s.distance); p.Some? && p.value.power != 0.0)
  }

  /** The fields only START, STARTPOS and GPXLOAD change. */
  ghost predicate SameSettings(a: Listener, b: Listener) {
    && a.mass == b.mass && a.wheelSize == b.wheelSize && a.resistance == b.resistance
    && a.power == b.power && a.simulSpeed == b.simulSpeed && a.routeData == b.routeData
  }

  /** getTelemetry(time, count), with `now` for System.currentTimeMillis() and `mean` for
      what Rolling.add returns. */
  function Step(s: Listener, time: int, count: int, now: int, mean: (nat, seq<real>) -> real): (r: StepResult)
    requires Inv(s) && ProfileLookupOk(s, time)
    ensures Inv(r.next) && SameSettings(s, r.next)
  {
    if s.lastCount == NoBaseline then
      StepResult(s.(lastCount := count, lastTime := time), None)
    else if s.initializing then
      if s.lastCount != count then
        StepResult(s.(initializing := false, lastCount := count, lastTime := time), None)
      else
        StepResult(s, None)
    else
      var tDiff := TimeDiff(s, time);
      if tDiff > MaxTicks then
        StepResult(s.(lastCount := NoBaseline), None)
      else if tDiff > 0 then
        Moving(s, time, count, now, mean)
      else
        var stalled := s.(cCount := s.cCount + 1);
        if stalled.cCount < StallRecord then StepResult(stalled, None)
        else Finish(stalled, time, count, 0.0, None, 0.0, now)
  }

  /** The revolutions a moving sample is measured with: the counter difference, or, while
      the wheel shows no new revolution and cCount is below 12, the extrapolation. */
  function Revolutions(s: Listener, time: int, count: int): (r: real)
    requires Inv(s) && 0 < TimeDiff(s, time)
    ensures r >= 0.0
  {
    var sDiff := CountDiff(s, count);
    if sDiff == 0 && s.cCount < ExtrapolationLimit then
      ExtrapolatedRevolutions(s.lastNotNullSpeed, TimeDiff(s, time), s.wheelSize)
    else
      sDiff as real
  }

  /** The speed measured from the wheel, before any simulation overrides it. */
  function WheelSpeed(s: Listener, time: int, count: int): (r: real)
    requires Inv(s) && 0 < TimeDiff(s, time)
    ensures r >= 0.0
  {
    SpeedKmh(DistanceKm(Revolutions(s, time, count), s.wheelSize), TimeDiff(s, time))
  }

  /** What the middle of getTelemetry hands to its tail for a moving sample: the
      updated fields and the speed, power and distance to record, or the end of a slope
      route, where it returns null. */
  datatype Measurement =
    | RouteEnded(next: Listener)
    | Measured(next: Listener, speed: real, watts: int, distanceKm: real)

  /** getTelemetry for a sample with 0 < tDiff <= 5000: measure, let the route's simulation
      override the measurement when virtual power is on, clear cCount and publish. */
  function Moving(s: Listener, time: int, count: int, now: int, mean: (nat, seq<real>) -> real): (r: StepResult)
    requires Inv(s) && ProfileLookupOk(s, time)
    requires Measuring(s) && 0 < TimeDiff(s, time) <= MaxTicks
    ensures Inv(r.next) && SameSettings(s, r.next)
  {
    match Measure(s, time, count, mean)
    case RouteEnded(next) => StepResult(next, None)
    case Measured(next, speed, watts, distanceKm) =>
      Finish(next.(cCount := 0), time, count, speed, Some(watts), distanceKm, now)
  }

  /** The speed, power and distance of a moving sample. */
  function Measure(s: Listener, time: int, count: int, mean: (nat, seq<real>) -> real): (m: Measurement)
    requires Inv(s) && ProfileLookupOk(s, time)
    requires Measuring(s) && 0 < TimeDiff(s, time) <= MaxTicks
    ensures Inv(m.next) && SameSettings(s, m.next) && m.next.lastTime == s.lastTime
    ensures m.next.lastNotNullSpeed == WheelSpeed(s, time, count)
    ensures m.Measured? ==> m.watts == s.power.getPower(WheelSpeed(s, time, count), s.resistance)
    ensures m.Measured? ==> m.speed * (Seconds(TimeDiff(s, time)) / 3600.0) == m.distanceKm
    ensures !(s.simulSpeed && s.routeData.Some?) ==>
              var speed := WheelSpeed(s, time, count);
              m == Measured(s.(lastNotNullSpeed := speed), speed, s.power.getPower(speed, s.resistance),
                            DistanceKm(Revolutions(s, time, count), s.wheelSize))
  {
    var distanceKm := DistanceKm(Revolutions(s, time, count), s.wheelSize);
    var speed := SpeedKmh(distanceKm, TimeDiff(s, time));
    var watts := s.power.getPower(speed, s.resistance);
    var measured := s.(lastNotNullSpeed := speed);
    if s.simulSpeed && s.routeData.Some? then
      if s.routeData.value.routeType == Slope then
        SlopeSimulation(measured, time, speed, watts, distanceKm)
      else
        ProfileSimulation(measured, time, mean, watts)
    else
      Measured(measured, speed, watts, distanceKm)
  }

  /** A slope route: with positive power, the speed the physical model gives for this power
      on the route's gradient, and the distance rescaled to it. Past the end of the route the
      distance is reset and nothing is produced. */
  function SlopeSimulation(s: Listener, time: int, speed: real, watts: int, distanceKm: real): (m: Measurement)
    requires Inv(s) && s.routeData.Some? && 0 < TimeDiff(s, time)
    requires speed == SpeedKmh(distanceKm, TimeDiff(s, time))
    ensures Inv(m.next) && SameSettings(s, m.next) && m.next.lastTime == s.lastTime
    ensures m.RouteEnded? <==> s.routeData.value.getPoint(s.distance).None?
    ensures m.RouteEnded? ==> m.next == s.(distance := 0.0)
    ensures m.Measured? ==> m.next == s && m.watts == watts
    ensures m.Measured? ==> m.speed * (Seconds(TimeDiff(s, time)) / 3600.0) == m.distanceKm
    ensures m.Measured? && watts <= 0 ==> m.speed == speed && m.distanceKm == distanceKm
    ensures m.Measured? && watts > 0 ==>
              m.speed == s.power.getRealSpeed(s.mass, s.routeData.value.getPoint(s.distance).value.gradient / 100.0, watts) * 3.6
  {
    match s.routeData.value.getPoint(s.distance)
    case None => RouteEnded(s.(distance := 0.0))
    case Some(p) =>
      if watts > 0 then
        var realSpeed := s.power.getRealSpeed(s.mass, p.gradient / 100.0, watts) * 3.6;
        var simulated := if distanceKm > 0.0 then (realSpeed / speed) * distanceKm
                         else (realSpeed / 3600.0) * Seconds(TimeDiff(s, time));
        RescaledDistance(realSpeed, speed, distanceKm, Seconds(TimeDiff(s, time)));
        Measured(s, realSpeed, watts, simulated)
      else
        Measured(s, speed, watts, distanceKm)
  }

  /** A power-profile route: the route's speed scaled by the smoothed ratio of the rider's
      power to the route's power. */
  function ProfileSimulation(s: Listener, time: int, mean: (nat, seq<real>) -> real, watts: int): (m: Measurement)
    requires Inv(s) && s.simulSpeed && s.routeData.Some?
    requires var p := s.routeData.value.getPoint(s.distance); p.Some? && p.value.power != 0.0
    ensures Inv(m.next) && SameSettings(s, m.next) && m.next.lastTime == s.lastTime
    ensures var p := s.routeData.value.getPoint(s.distance).value;
            var ratio := s.powerRatio.value;
            var history := ratio.added + [watts as real / p.power];
            && m.Measured?
            && m == Measured(s.(powerRatio := Some(Rolling(ratio.size, history))), m.speed, watts, m.distanceKm)
            && m.speed == p.speed * mean(ratio.size, history)
            && m.speed * (Seconds(TimeDiff(s, time)) / 3600.0) == m.distanceKm
  {
    var p := s.routeData.value.getPoint(s.distance).value;
    var added := s.powerRatio.value.Add(watts as real / p.power, mean);
    var profileSpeed := p.speed * added.0;
    Measured(s.(powerRatio := Some(added.1)), profileSpeed, watts,
             (profileSpeed / 3600.0) * Seconds(TimeDiff(s, time)))
  }

  /** Both ways the slope branch rescales the distance ride at the physical model's speed for
      the elapsed hours. */
  lemma RescaledDistance(realSpeed: real, speed: real, distanceKm: real, seconds: real)
    requires seconds > 0.0 && speed * (seconds / 3600.0) == distanceKm
    ensures var simulated := if distanceKm > 0.0 then (realSpeed / speed) * distanceKm
                             else (realSpeed / 3600.0) * seconds;
            realSpeed * (seconds / 3600.0) == simulated
  {
    var hours := seconds / 3600.0;
    if distanceKm > 0.0 {
      assert speed != 0.0;
      calc {
        (realSpeed / speed) * distanceKm;
        (realSpeed / speed) * (speed * hours);
        realSpeed * hours;
      }
    }
  }

  /** The tail of getTelemetry shared by every sample that produces a record: move the
      baselines, stamp the record with the distance so far and the route point there, then
      add this sample's distance. Past the end of the route the distance is reset instead. */
  function Finish(s: Listener, time: int, count: int, speed: real, watts: Option<int>,
                  distanceKm: real, now: int): (r: StepResult)
    requires Inv(s)
    ensures Inv(r.next) && SameSettings(s, r.next)
    ensures r.next == s.(lastTime := time, lastCount := count, distance := r.next.distance)
    ensures r.out.None? <==> s.routeData.Some? && s.routeData.value.getPoint(s.distance).None?
    ensures r.out.None? ==> r.next.distance == 0.0
    ensures r.out.Some? ==>
              && r.next.distance == s.distance + distanceKm
              && r.out.value.speed == speed && r.out.value.power == watts
              && r.out.value.distanceMeters == s.distance * 1000.0 && r.out.value.time == now
  {
    var moved := s.(lastTime := time, lastCount := count);
    var distanceMeters := s.distance * 1000.0;
    match s.routeData
    case None =>
      StepResult(moved.(distance := s.distance + distanceKm),
                 Some(Telemetry(speed, watts, distanceMeters, None, now)))
    case Some(route) =>
      match route.getPoint(s.distance)
      case None => StepResult(moved.(distance := 0.0), None)
      case Some(p) =>
        StepResult(moved.(distance := s.distance + distanceKm),
                   Some(Telemetry(speed, watts, distanceMeters, Some(PositionOf(p)), now)))
  }

  /** One sensor reading as delivered to getTelemetry, with the wall-clock time of its arrival. */
  datatype Sample = Sample(time: int, count: int, now: int)

  /** The states and outputs of a sequence of getTelemetry calls. */
  datatype Trace = Trace(last: Listener, outs: seq<Option<Telemetry>>)

  /** Every call of the sequence meets getTelemetry's precondition. */
  ghost predicate RunDefined(s: Listener, samples: seq<Sample>, mean: (nat, seq<real>) -> real)
    decreases |samples|
  {
    && Inv(s)
    && (|samples| > 0 ==>
          && ProfileLookupOk(s, samples[0].time)
          && RunDefined(Step(s, samples[0].time, samples[0].count, samples[0].now, mean).next,
                        samples[1..], mean))
  }

  /** getTelemetry called on each sample in turn. */
  ghost function Run(s: Listener, samples: seq<Sample>, mean: (nat, seq<real>) -> real): (r: Trace)
    requires RunDefined(s, samples, mean)
    ensures |r.outs| == |samples| && Inv(r.last) && SameSettings(s, r.last)
    decreases |samples|
  {
    if samples == [] then Trace(s, [])
    else
      var first := Step(s, samples[0].time, samples[0].count, samples[0].now, mean);
      var rest := Run(first.next, samples[1..], mean);
      Trace(rest.last, [first.out] + rest.outs)
  }
}
