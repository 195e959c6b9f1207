/**
 * The objects SpeedListener talks to but whose code is not part of this model:
 * the power profile (Power), the loaded route (RouteReader and its Point), the
 * rolling average (Rolling), the user's preferences, and the Telemetry record
 * it fills in. Each is reduced to the values and functions SpeedListener uses;
 * their behaviour is left uninterpreted (arrow-typed fields that any function
 * may inhabit), so every property proved here holds whatever they compute.
 */
module Collaborators {
  import opened Wrappers

  /** Power.getPower(speedKmh, resistance) and Power.getRealSpeed(massKg, gradient, watts) (m/s). */
  datatype Power = Power(getPower: (real, int) -> int, getRealSpeed: (real, real, int) -> real)

  /** A route point: position and, for power-profile routes, the reference speed and power. */
  datatype Point = Point(elevation: real, gradient: real, latitude: real, longitude: real,
                         speed: real, power: real)

  /** RouteReader.routeType(): SLOPE, or any other type, which SpeedListener treats as a power profile. */
  datatype RouteType = Slope | Profile

  /** RouteReader: its type and getPoint(distanceKm), None for null (past the end of the route). */
  datatype RouteReader = RouteReader(routeType: RouteType, getPoint: real -> Option<Point>)

  /**
   * A Rolling averager created with `new Rolling(size)`, described by the values added to it
   * so far. What add returns is given by `mean(size, added)`, a function of that history.
   */
  datatype Rolling = Rolling(size: nat, added: seq<real>) {

    function Add(x: real, mean: (nat, seq<real>) -> real): (real, Rolling) {
      (mean(size, added + [x]), Rolling(size, added + [x]))
    }
  }

  /** The values START reads from UserPreferences. */
  datatype Preferences = Preferences(totalWeight: real, wheelSizeCm: real, resistance: int,
                                     powerProfile: Power, virtualPower: bool)

  /** The part of a route point copied into a Telemetry record. */
  datatype Position = Position(elevation: real, gradient: real, latitude: real, longitude: real)

  function PositionOf(p: Point): Position {
    Position(p.elevation, p.gradient, p.latitude, p.longitude)
  }

  /**
   * The Telemetry record getTelemetry fills in. `power` is None and `position` is None where
   * the Java code never calls the setter (the record then keeps Telemetry's defaults, which
   * are not part of this model). `time` is the wall-clock stamp, given by the caller.
   */
  datatype Telemetry = Telemetry(speed: real, power: Option<int>, distanceMeters: real,
                                 position: Option<Position>, time: int)
}
