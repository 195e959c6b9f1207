# Wattzap speed-sensor listener, modelled in Dafny

Wattzap's `SpeedListener` receives the broadcast pages of an ANT+ bicycle speed sensor.
Each page carries two wrapping 16-bit counters: the time of the last wheel-revolution event,
in 1/1024 s ticks, and the cumulative revolution count. For each page the listener produces
either nothing (`null`) or a `Telemetry` record with:

- speed (km/h);
- power from the rider's power profile;
- the distance ridden so far;
- the route position.

Two control paths shape that stream:

- START, STARTPOS and GPXLOAD reset the listener's configuration, its baselines and its
  distance.
- When virtual power is on and a route is loaded, the route overrides the measured speed. A
  slope route uses a physical model on the route's gradient. A power-profile route scales
  the route's own speed by the smoothed ratio of the rider's power to the route's power.

The project is arranged as follows:

- `wrappers.dfy` (`Wrappers`): `Option`.
- `collaborators.dfy` (`Collaborators`): the objects the listener calls but does not own.
  - `Power` stands for the power profile, `RouteReader` for the loaded route and `Rolling`
    for the averager.
  - `Preferences` holds the values START reads from `UserPreferences`.
  - `Telemetry` is the record the listener publishes.
  - What these collaborators compute is left uninterpreted: they are function-valued fields.
- `speed_page.dfy` (`SpeedPage`): the decode of bytes 4–7 of the page in `receiveMessage`,
  with its inverse.
- `speed_math.dfy` (`SpeedMath`): the per-sample arithmetic.
  - `& 0xffff` is modelled as the wrap modulo 65536. It is exact even when the Java `int`
    subtraction overflows.
  - Revolutions are converted to kilometres, and kilometres per tick count to km/h.
  - The low-cadence extrapolation is proved to reproduce the last speed exactly.
- `speed_state.dfy` (`SpeedState`): the listener's fields as a value (`Listener`).
  - `Step` is one call of `getTelemetry` and `AfterMessage` is one call of `callback`.
  - `Run` folds `Step` over a sequence of samples.
- `speed_listener.dfy` (`Ant`): the class `SpeedListener` with the Java fields.
  - `ReceiveMessage`, `GetTelemetry` and `Callback` update the fields in place, with the
    same branches and early returns as the Java code.
  - Each method is proved to leave exactly the state, and return exactly the result, that
    `Step` or `AfterMessage` specifies.
- `speed_properties.dfy` (`SpeedProperties`): what the listener promises, proved over
  `Step`, `AfterMessage` and `Run`. This covers:
  - baselines and the start-up flush;
  - bogus frames;
  - the six-sample stall debounce;
  - the extrapolation;
  - the direct speed formula;
  - the distance bookkeeping.

Java doubles are modelled as Dafny `real`s and Java `int`s as unbounded integers. The two
masks are the only places where the source relies on bit width, and they are modelled
exactly. `System.currentTimeMillis()` becomes the parameter `now`. The value `Rolling.add`
returns becomes a function of the averager's window and history: a parameter of the
specification and a constant of the class.

### Behaviour worth knowing

- Wrap-around. From `lastTime = 65500` to `time = 20` the code computes
  `(20 - 65500) & 0xffff = 56` ticks. `SpeedProperties.WrapExamples` proves this.
- Revolution difference. The masked value is kept as it is, 0 to 65535, and used as a
  double. A counter that runs backwards therefore reads as a large forward count.
- Start-up. START sets `lastCount = -1`, so the first sample after it only records a
  baseline. The second sample, whose count changed, ends the start-up flush and also
  produces nothing. The first record comes with the third sample.
  `SpeedProperties.StartScenario` proves this sequence for a 213.3 cm wheel turning 5 times
  in 1024 ticks (38.394 km/h).
- START leaves the stall count `cCount` as it was.
- No idle state. A new listener measures from its second sample, without waiting for START.
- Wheel size. Neither START nor the constructor checks the wheel size. The model requires a
  positive one (see Left out).
- Distance of a record. A record carries the distance before the sample's own contribution,
  and the route point is looked up at that same distance.

## Model

| member | source | states |
|---|---|---|
| SpeedPage.Join | src/com/wattzap/model/ant/SpeedListener.java:73-77 | the joined value is a 16-bit number whose high byte and low byte are the two inputs |
| SpeedPage.ShiftOrIsJoin | src/com/wattzap/model/ant/SpeedListener.java:73-77 | shifting the high byte left by 8 bits and or-ing in the low byte gives the same number as Join |
| SpeedPage.Decode | src/com/wattzap/model/ant/SpeedListener.java:73-77 | time is byte 5 × 256 + byte 4 and count is byte 7 × 256 + byte 6, both in 0..65535 |
| SpeedPage.DecodeEncode | src/com/wattzap/model/ant/SpeedListener.java:73-77 | decoding a page that carries a reading gives back that reading |
| SpeedPage.EncodeDecode | src/com/wattzap/model/ant/SpeedListener.java:73-77 | bytes 4–7 are all the decode reads: re-encoding the decoded reading rebuilds the page |
| SpeedMath.Low16 | src/com/wattzap/model/ant/SpeedListener.java:114-115 | the masked difference is in 0..65535 and congruent to the raw difference modulo 65536 |
| SpeedMath.Low16Unique | src/com/wattzap/model/ant/SpeedListener.java:114-115 | it is the only such value, so the mask is an exact 16-bit wrap |
| SpeedMath.DistanceKm | src/com/wattzap/model/ant/SpeedListener.java:169 | distance is non-negative for non-negative inputs, and positive exactly when some revolution was counted |
| SpeedMath.SpeedKmh | src/com/wattzap/model/ant/SpeedListener.java:167-171 | the speed times the elapsed hours is the distance; the speed is non-negative exactly when the distance is |
| SpeedMath.ExtrapolatedRevolutions | src/com/wattzap/model/ant/SpeedListener.java:157-165 | the substituted revolution count, fed back through the distance and speed formulas, gives exactly the last speed; non-negative for a non-negative last speed |
| SpeedState.Initial | src/com/wattzap/model/ant/SpeedListener.java:45-63 | a new listener has no baseline, is not initializing, does not simulate, and satisfies the invariant |
| SpeedState.AfterMessage | src/com/wattzap/model/ant/SpeedListener.java:253-275 | START, STARTPOS and GPXLOAD keep the invariant (positive wheel size, non-negative last speed, an averager whenever virtual power is on) |
| SpeedState.Step | src/com/wattzap/model/ant/SpeedListener.java:96-251 | getTelemetry keeps the invariant and never changes mass, wheel size, resistance, power profile, virtual power or route |
| SpeedState.Revolutions | src/com/wattzap/model/ant/SpeedListener.java:156-165 | the revolutions measured are never negative |
| SpeedState.WheelSpeed | src/com/wattzap/model/ant/SpeedListener.java:156-172 | the wheel speed is never negative |
| SpeedState.Moving | src/com/wattzap/model/ant/SpeedListener.java:156-251 | a moving sample keeps the invariant and the settings |
| SpeedState.Measure | src/com/wattzap/model/ant/SpeedListener.java:156-217 | the last speed becomes the wheel speed and the power is the profile's power for it; the speed recorded times the elapsed hours is the distance added; without virtual power and a route, the wheel's speed and distance are recorded unchanged; the invariant, the settings and the time baseline are kept |
| SpeedState.SlopeSimulation | src/com/wattzap/model/ant/SpeedListener.java:179-201 | the route ends exactly when there is no point at the distance, and then the distance is reset to 0; otherwise nothing else changes, the power is kept, positive power gives the physical model's speed on the point's gradient, other power keeps the wheel's speed and distance, and the distance is the speed recorded times the elapsed hours |
| SpeedState.ProfileSimulation | src/com/wattzap/model/ant/SpeedListener.java:202-212 | the averager's history grows by the ratio of the rider's power to the point's power and nothing else changes; the speed is the point's speed times the averager's mean, and the distance is that speed times the elapsed hours |
| SpeedState.RescaledDistance | src/com/wattzap/model/ant/SpeedListener.java:195-199 | both ways the slope branch rescales the distance give the physical model's speed times the elapsed hours |
| SpeedState.Finish | src/com/wattzap/model/ant/SpeedListener.java:228-250 | the baselines move to the sample; nothing is published exactly when a route has no point at the distance, and then the distance is reset to 0; otherwise the record carries the speed, the power, the distance so far and the time, and the distance grows by this sample's kilometres |
| SpeedState.Run | src/com/wattzap/model/ant/SpeedListener.java:96-251 | a sequence of getTelemetry calls produces one output per sample and keeps the invariant and the settings |
| Ant.SpeedListener.constructor | src/com/wattzap/model/ant/SpeedListener.java:45-69 | the fields start as their initialisers say |
| Ant.SpeedListener.ReceiveMessage | src/com/wattzap/model/ant/SpeedListener.java:72-84 | decodes the page and returns what is sent on the bus: exactly Step on the decoded reading |
| Ant.SpeedListener.GetTelemetry | src/com/wattzap/model/ant/SpeedListener.java:96-251 | the new fields and the returned record are exactly those of Step |
| Ant.SpeedListener.MovingSample | src/com/wattzap/model/ant/SpeedListener.java:156-219 | the moving-sample path leaves exactly the state and record of Moving |
| Ant.SpeedListener.SlopeRide | src/com/wattzap/model/ant/SpeedListener.java:179-201 | the slope-route branch ends the route or yields exactly SlopeSimulation's speed and distance |
| Ant.SpeedListener.ProfileRide | src/com/wattzap/model/ant/SpeedListener.java:202-212 | the profile-route branch yields exactly ProfileSimulation's averager, speed and distance |
| Ant.SpeedListener.Publish | src/com/wattzap/model/ant/SpeedListener.java:228-250 | the tail of getTelemetry leaves exactly Finish's state and record |
| Ant.SpeedListener.Callback | src/com/wattzap/model/ant/SpeedListener.java:253-275 | the new fields are exactly AfterMessage's, and the invariant holds |
| SpeedProperties.WrapExamples | src/com/wattzap/model/ant/SpeedListener.java:114-117 | from 65500 to 20 the clock advanced 56 ticks; a 6000-tick jump exceeds the bogus-frame limit |
| SpeedProperties.FirstSampleOnlySetsBaseline | src/com/wattzap/model/ant/SpeedListener.java:97-101 | without a baseline a sample only records it and produces nothing |
| SpeedProperties.InitializingWaitsForCountChange | src/com/wattzap/model/ant/SpeedListener.java:102-112 | during the start-up flush nothing is produced; a repeated count changes nothing, a new count becomes the baseline and ends the flush |
| SpeedProperties.StartRequiresFreshBaseline | src/com/wattzap/model/ant/SpeedListener.java:256-266 | START re-reads the settings, keeps the distance and the stall count, creates a 10-sample averager, and the next sample only records a baseline |
| SpeedProperties.FlushIgnoresRepeatedCount | src/com/wattzap/model/ant/SpeedListener.java:102-112 | any number of samples repeating the baseline count produce nothing and leave the listener unchanged |
| SpeedProperties.BogusFrameCostsOneSample | src/com/wattzap/model/ant/SpeedListener.java:117-127 | a jump of over 5000 ticks produces nothing and drops only the count baseline; the next sample re-baselines, and the one after is measured |
| SpeedProperties.StallDebounce | src/com/wattzap/model/ant/SpeedListener.java:219-250 | a sample whose time has not moved adds a stall; it produces a record exactly from the sixth stall on (unless the route has ended), with speed 0, no power and no distance added |
| SpeedProperties.StallsStaySilent | src/com/wattzap/model/ant/SpeedListener.java:220-225 | stalls short of the sixth produce nothing and only count |
| SpeedProperties.SixthStallReportsStop | src/com/wattzap/model/ant/SpeedListener.java:220-250 | stalls in a row without a route produce nothing until the sixth, which produces the stop record at the current distance |
| SpeedProperties.SixthStall | src/com/wattzap/model/ant/SpeedListener.java:220-250 | the sixth stall without a route produces the stop record |
| SpeedProperties.ExtrapolationKeepsLastSpeed | src/com/wattzap/model/ant/SpeedListener.java:157-172 | with no new revolution and fewer than 12 stalls the last speed is kept, and without simulation it is the speed recorded |
| SpeedProperties.MovingSampleClearsStalls | src/com/wattzap/model/ant/SpeedListener.java:219 | a moving sample that produces a record clears the stall count, and never adds to it |
| SpeedProperties.DirectMeasurement | src/com/wattzap/model/ant/SpeedListener.java:167-250 | without simulation or route: a record with the speed covering revolutions × wheel size in the elapsed time, the profile's power and the distance so far; the distance then grows by this sample's kilometres |
| SpeedProperties.DirectSpeedExample | src/com/wattzap/model/ant/SpeedListener.java:167-171 | 5 revolutions of a 213.3 cm wheel are 0.010665 km, and in 1024 ticks that is 38.394 km/h |
| SpeedProperties.StartScenario | src/com/wattzap/model/ant/SpeedListener.java:96-266 | after START, samples (100,50), (1124,55), (2148,60) produce nothing, nothing, then 38.394 km/h, and the distance grows by 0.010665 km |
| SpeedProperties.SlopeRouteRecord | src/com/wattzap/model/ant/SpeedListener.java:172-201 | on a slope route inside the route, a record is produced with the profile's power for the wheel speed and the stall count cleared; positive power records the physical model's speed, other power the wheel's speed and distance |
| SpeedProperties.ProfileRouteRecord | src/com/wattzap/model/ant/SpeedListener.java:202-212 | on a power-profile route the averager receives power / point power, and the record's speed is the point's speed times the averager's mean of the new history |
| SpeedProperties.RouteEndResets | src/com/wattzap/model/ant/SpeedListener.java:183-236 | with no route point at the distance, every moving sample and every stall from the sixth on rewinds the distance to 0 and produces nothing |
| SpeedProperties.RecordAddsMeasuredDistance | src/com/wattzap/model/ant/SpeedListener.java:219-247 | a moving sample's record carries the measured speed and adds the measured kilometres to the distance |
| SpeedProperties.RecordAdvancesBySpeedTimesHours | src/com/wattzap/model/ant/SpeedListener.java:167-247 | whichever branch set the speed, a moving record adds its speed times the elapsed hours to the distance |
| SpeedProperties.RecordCarriesDistanceBeforeSample | src/com/wattzap/model/ant/SpeedListener.java:228-247 | every record carries the distance before this sample and the route point at that distance |
| SpeedProperties.DistanceDropsOnlyAtRouteEnd | src/com/wattzap/model/ant/SpeedListener.java:228-247 | without virtual power the distance never decreases, except the reset to 0 at the end of a route, which produces nothing |
| SpeedProperties.DistanceNeverDecreasesWithoutRoute | src/com/wattzap/model/ant/SpeedListener.java:228-247 | without virtual power or route, no sequence of samples lowers the distance |
| SpeedProperties.PositionMessages | src/com/wattzap/model/ant/SpeedListener.java:267-273 | STARTPOS only sets the distance; GPXLOAD attaches the route and rewinds the distance to 0, leaving baselines and stall count alone |

## Left out

- `UserPreferences` is not part of this model. START takes the values it reads from it
  (total weight, wheel size, resistance, power profile, virtual power) as the payload
  `Preferences`. Likewise the field initialisers take the preference values given to the
  constructor.
- `Power.getPower`, `Power.getRealSpeed`, `RouteReader.getPoint` and `routeType`, and the mean
  computed by `Rolling.add` are not part of this model. They are uninterpreted functions.
  Only the ratio fed to the averager and its window of 10 are modelled.
- IEEE 754 rounding, NaN and Infinity are not modelled: Java doubles are reals.
- Zero wheel size. START and the constructor require a positive wheel size, because a zero
  wheel size would make Java compute Infinity or NaN in the extrapolation.
- SpeedState.Step: requires `ProfileLookupOk`. A sample that reaches the power-profile
  branch must find a route point whose reference power is non-zero. At the end of a profile
  route the Java code dereferences a null point, and for a zero reference power it divides by
  zero in floating point. Neither outcome is modelled. The same requirement is carried by
  `GetTelemetry`, `ReceiveMessage`, `MovingSample`, `ProfileRide`, `Measure`, `Moving` and
  `ProfileSimulation`.
- The stop record produced on the sixth stall has no power set. It is modelled as `None`, not
  as the default value a new Java `Telemetry` holds.
- `cCount` is an unbounded integer. The Java `int` would overflow only after 2^31 stalls in a
  row.
- `MessageBus` registration and the send on the bus are not modelled. `ReceiveMessage` returns
  the record the Java code sends, or `None` when it sends nothing.
- Logging, threading and the channel constants (`getChannelId`, `getChannelPeriod`,
  `getDeviceType`, `getName`) are not modelled.
- The commented-out elapsed-time code is not modelled.
