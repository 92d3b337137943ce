/**
 * The physical side of the framing calculator: the real-world area that a
 * camera sensor captures through a lens of a given focal length at a given
 * subject distance (src/App.tsx, calculateShootingArea).
 *
 * All quantities are exact reals; the source's IEEE-754 doubles are not
 * modelled (see README).
 */
module Geometry {

  /** A width and a height: millimetres for sensors and shooting areas, pixels on the canvas. */
  datatype Size = Size(width: real, height: real)

  /** An axis-aligned rectangle on the canvas, given by its top-left corner and its size, in pixels. */
  datatype Rect = Rect(x: real, y: real, width: real, height: real) {

    function CentreX(): real { x + width / 2.0 }

    function CentreY(): real { y + height / 2.0 }

    /** This rectangle lies inside `outer` (edges may touch). */
    predicate Within(outer: Rect) {
      outer.x <= x && x + width <= outer.x + outer.width &&
      outer.y <= y && y + height <= outer.y + outer.height
    }
  }

  /** The canvas itself, as a rectangle anchored at the origin. */
  function BoxRect(box: Size): Rect { Rect(0.0, 0.0, box.width, box.height) }

  function Min(a: real, b: real): real { if a <= b then a else b }

  function Max(a: real, b: real): real { if a >= b then a else b }

  /** Both axes multiplied by the same factor. */
  function Scaled(s: Size, k: real): Size { Size(s.width * k, s.height * k) }

  /** A sensor is treated as landscape when it is at least as wide as it is tall (ties are landscape). */
  predicate IsLandscape(sensor: Size) { sensor.width >= sensor.height }

  /** Two sizes have the same aspect ratio (cross-multiplied, so that zero sizes are allowed). */
  predicate SameAspect(a: Size, b: Size) { a.width * b.height == a.height * b.width }

  const MillimetresPerMetre: real := 1000.0

  /**
   * The shooting area in millimetres: the distance is converted from metres to
   * millimetres and the sensor is magnified by distance / focal length.
   */
  function ShootingArea(sensor: Size, focalLength: real, distance: real): (area: Size)
    requires focalLength > 0.0
    ensures SameAspect(area, sensor)
    ensures sensor.width > 0.0 && sensor.height > 0.0 && distance > 0.0 ==> area.width > 0.0 && area.height > 0.0
  {
    var distanceMm := distance * MillimetresPerMetre;
    Size(sensor.width * distanceMm / focalLength, sensor.height * distanceMm / focalLength)
  }

  /**
   * The shooting area is the sensor magnified by (distance in mm) / (focal length):
   * each side times the focal length is the sensor side times the distance in millimetres.
   */
  lemma ShootingAreaMagnifiesSensor(sensor: Size, focalLength: real, distance: real)
    requires focalLength > 0.0
    ensures ShootingArea(sensor, focalLength, distance) == Scaled(sensor, distance * 1000.0 / focalLength)
    ensures ShootingArea(sensor, focalLength, distance).width * focalLength == sensor.width * distance * 1000.0
    ensures ShootingArea(sensor, focalLength, distance).height * focalLength == sensor.height * distance * 1000.0
  {
  }

  /** Doubling (or any scaling of) the subject distance scales the shooting area by the same factor. */
  lemma ShootingAreaLinearInDistance(sensor: Size, focalLength: real, distance: real, k: real)
    requires focalLength > 0.0
    ensures ShootingArea(sensor, focalLength, k * distance) == Scaled(ShootingArea(sensor, focalLength, distance), k)
  {
    var b := ShootingArea(sensor, focalLength, k * distance);
    assert b.width == (sensor.width * (distance * 1000.0) / focalLength) * k;
    assert b.height == (sensor.height * (distance * 1000.0) / focalLength) * k;
  }

  /** Multiplying the focal length by k divides the shooting area by k. */
  lemma ShootingAreaInverseInFocalLength(sensor: Size, focalLength: real, distance: real, k: real)
    requires focalLength > 0.0 && k > 0.0
    ensures Scaled(ShootingArea(sensor, k * focalLength, distance), k) == ShootingArea(sensor, focalLength, distance)
  {
    var a := ShootingArea(sensor, focalLength, distance);
    var b := ShootingArea(sensor, k * focalLength, distance);
    assert b.width * k == a.width by {
      assert b.width * (k * focalLength) == sensor.width * (distance * 1000.0);
    }
    assert b.height * k == a.height by {
      assert b.height * (k * focalLength) == sensor.height * (distance * 1000.0);
    }
  }

  /** A farther subject never gives a smaller shooting area. */
  lemma ShootingAreaMonotoneInDistance(sensor: Size, focalLength: real, near: real, far: real)
    requires focalLength > 0.0 && sensor.width >= 0.0 && sensor.height >= 0.0
    requires near <= far
    ensures ShootingArea(sensor, focalLength, near).width <= ShootingArea(sensor, focalLength, far).width
    ensures ShootingArea(sensor, focalLength, near).height <= ShootingArea(sensor, focalLength, far).height
  {
    var m := (far - near) * 1000.0 / focalLength;
    assert m >= 0.0;
    assert ShootingArea(sensor, focalLength, far).width - ShootingArea(sensor, focalLength, near).width == sensor.width * m;
    assert ShootingArea(sensor, focalLength, far).height - ShootingArea(sensor, focalLength, near).height == sensor.height * m;
  }

  /** A longer lens never gives a larger shooting area (for a subject in front of the lens). */
  lemma ShootingAreaAntitoneInFocalLength(sensor: Size, short: real, long: real, distance: real)
    requires 0.0 < short <= long
    requires sensor.width >= 0.0 && sensor.height >= 0.0 && distance >= 0.0
    ensures ShootingArea(sensor, long, distance).width <= ShootingArea(sensor, short, distance).width
    ensures ShootingArea(sensor, long, distance).height <= ShootingArea(sensor, short, distance).height
  {
    var d := distance * 1000.0;
    ShootingAreaMagnifiesSensor(sensor, long, distance);
    ShootingAreaMagnifiesSensor(sensor, short, distance);
    DivideByLargerIsSmaller(d, short, long);
    MultiplyMonotone(sensor.width, d / long, d / short);
    MultiplyMonotone(sensor.height, d / long, d / short);
  }

  lemma MultiplyMonotone(a: real, x: real, y: real)
    requires a >= 0.0 && x <= y
    ensures a * x <= a * y
  {
  }

  lemma DivideByLargerIsSmaller(d: real, short: real, long: real)
    requires d >= 0.0 && 0.0 < short <= long
    ensures d / long <= d / short
  {
    assert (d / long) * long == d && (d / short) * short == d;
    assert d / long * short <= d / long * long;
    assert d / long * short <= d / short * short;
    CancelPositiveFactor(d / long, d / short, short);
  }

  /** Dividing both sides of an inequality by a positive factor. */
  lemma CancelPositiveFactor(a: real, b: real, c: real)
    requires c > 0.0 && a * c <= b * c
    ensures a <= b
  {
    assert (b - a) * c >= 0.0;
  }

  /** Full-frame sensor, 50 mm lens, subject at 2 m: the area is 1440 mm by 960 mm. */
  lemma FullFrameExample()
    ensures ShootingArea(Size(36.0, 24.0), 50.0, 2.0) == Size(1440.0, 960.0)
  {
  }
}
