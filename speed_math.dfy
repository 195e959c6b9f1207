/**
 * The arithmetic getTelemetry applies to one sample: 16-bit modular differences of the
 * sensor's counters, and the conversions between wheel revolutions, distance and speed.
 * Java doubles are modelled as reals.
 */
module SpeedMath {

  /** The sensor's event clock runs at 1024 ticks per second. */
  const TicksPerSecond: real := 1024.0

  /** `x & 0xffff` on a Java int. On a two's-complement int this is the Euclidean remainder
      modulo 65536, and since 65536 divides 2^32 it is the same whether or not the subtraction
      that produced x overflowed. */
  function Low16(x: int): (r: int)
    ensures 0 <= r < 65536
    ensures (x - r) % 65536 == 0
  {
    x % 65536
  }

  /** The low 16 bits are the only value in range congruent to x: Low16 is a faithful wrap. */
  lemma Low16Unique(x: int, r: int)
    requires 0 <= r < 65536 && (x - r) % 65536 == 0
    ensures r == Low16(x)
  {
    var k := (x - r) / 65536;
    assert x == 65536 * k + r;
  }

  /** Seconds covered by tDiff ticks. */
  function Seconds(tDiff: int): real {
    tDiff as real / TicksPerSecond
  }

  /** `(sDiff * wheelSize) / 100000`: revolutions times a circumference in cm, in km. */
  function DistanceKm(revolutions: real, wheelSizeCm: real): (r: real)
    ensures revolutions >= 0.0 && wheelSizeCm >= 0.0 ==> r >= 0.0
    ensures wheelSizeCm > 0.0 ==> (r > 0.0 <==> revolutions > 0.0)
  {
    PositiveProduct(revolutions, wheelSizeCm);
    (revolutions * wheelSizeCm) / 100000.0
  }

  /** `distanceKM / (timeS / 3600)`: the speed in km/h that covers distanceKm in tDiff ticks. */
  function SpeedKmh(distanceKm: real, tDiff: int): (r: real)
    requires tDiff > 0
    ensures r * (Seconds(tDiff) / 3600.0) == distanceKm
    ensures r >= 0.0 <==> distanceKm >= 0.0
  {
    var hours := Seconds(tDiff) / 3600.0;
    QuotientSign(distanceKm, hours);
    distanceKm / hours
  }

  /**
   * The revolution count getTelemetry substitutes when no revolution arrived: the distance
   * covered in tDiff ticks at lastSpeed km/h, divided by the wheel's circumference.
   * Fed back through DistanceKm and SpeedKmh it reproduces lastSpeed exactly.
   */
  function ExtrapolatedRevolutions(lastSpeed: real, tDiff: int, wheelSizeCm: real): (r: real)
    requires tDiff > 0 && wheelSizeCm > 0.0
    ensures SpeedKmh(DistanceKm(r, wheelSizeCm), tDiff) == lastSpeed
    ensures lastSpeed >= 0.0 ==> r >= 0.0
  {
    var tmpDist := lastSpeed * Seconds(tDiff) / 3600.0;
    var revolutions := tmpDist * 100000.0 / wheelSizeCm;
    ReconstructSpeed(lastSpeed, tDiff, wheelSizeCm);
    revolutions
  }

  lemma ReconstructSpeed(lastSpeed: real, tDiff: int, wheelSizeCm: real)
    requires tDiff > 0 && wheelSizeCm > 0.0
    ensures var revolutions := lastSpeed * Seconds(tDiff) / 3600.0 * 100000.0 / wheelSizeCm;
            && SpeedKmh(DistanceKm(revolutions, wheelSizeCm), tDiff) == lastSpeed
            && (lastSpeed >= 0.0 ==> revolutions >= 0.0)
  {
    var hours := Seconds(tDiff) / 3600.0;
    var tmpDist := lastSpeed * Seconds(tDiff) / 3600.0;
    assert tmpDist == lastSpeed * hours;
    var revolutions := tmpDist * 100000.0 / wheelSizeCm;
    assert revolutions * wheelSizeCm == tmpDist * 100000.0;
    assert DistanceKm(revolutions, wheelSizeCm) == tmpDist;
    var speed := SpeedKmh(tmpDist, tDiff);
    assert speed * hours == lastSpeed * hours;
    assert hours > 0.0;
    CancelFactor(speed, lastSpeed, hours);
    if lastSpeed >= 0.0 {
      PositiveProduct(lastSpeed, Seconds(tDiff));
      QuotientSign(tmpDist * 100000.0, wheelSizeCm);
    }
  }

  lemma PositiveProduct(x: real, y: real)
    ensures x >= 0.0 && y >= 0.0 ==> x * y >= 0.0
    ensures y > 0.0 ==> (x * y > 0.0 <==> x > 0.0)
  {}

  lemma QuotientSign(x: real, y: real)
    requires y > 0.0
    ensures (x / y) * y == x
    ensures x / y >= 0.0 <==> x >= 0.0
  {}

  lemma CancelFactor(a: real, b: real, c: real)
    requires c != 0.0 && a * c == b * c
    ensures a == b
  {}
}
