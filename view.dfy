/**
 * The state the ShootingArea component keeps between renders (src/App.tsx:103-143):
 * the measured canvas box and the mm-to-px scale. Both start out degenerate and are
 * updated by an effect after rendering, which is why the layout functions take
 * them as parameters that may lag behind the inputs.
 */
module View {
  import opened Wrappers
  import opened Geometry
  import opened Layout

  class ShootingAreaView {
    var boxSize: Size
    var mmToPxScale: real

    /** Before the first measurement: an empty box and a scale of 1. */
    constructor ()
      ensures boxSize == Size(0.0, 0.0) && mmToPxScale == 1.0
    {
      boxSize := Size(0.0, 0.0);
      mmToPxScale := 1.0;
    }

    /**
     * One run of the effect. When the element is mounted (`measured` is its
     * bounding box), the box state becomes the measurement, and the scale is
     * recomputed from the box this render saw, which is the old one: a state
     * update is not visible until the next render.
     */
    method RunEffect(measured: Option<Size>, sensor: Size, focalLength: real, distance: real)
      requires ValidShot(sensor, focalLength, distance)
      modifies this
      ensures measured.None? ==> boxSize == old(boxSize) && mmToPxScale == old(mmToPxScale)
      ensures measured.Some? ==>
        boxSize == measured.value && mmToPxScale == OrientedScale(sensor, focalLength, distance, old(boxSize))
    {
      if measured.Some? {
        var seen := boxSize;
        var area := ShootingArea(sensor, focalLength, distance);
        var scale;
        if sensor.width >= sensor.height {
          scale := seen.width / area.width;
        } else {
          scale := seen.height / area.height;
        }
        if measured.value.width != seen.width || measured.value.height != seen.height {
          boxSize := measured.value;
        }
        mmToPxScale := scale;
      }
    }

    /** The window resize listener: stores the new measurement; the effect then runs again. */
    method Resize(measured: Size)
      modifies this`boxSize
      ensures boxSize == measured
    {
      boxSize := measured;
    }

    /**
     * The effect until it settles for a mounted element: when the first run
     * changes the box, the box is one of the effect's dependencies, so it runs a
     * second time, now seeing the new box. Afterwards the scale is fresh.
     */
    method Settle(measured: Size, sensor: Size, focalLength: real, distance: real)
      requires ValidShot(sensor, focalLength, distance)
      modifies this
      ensures boxSize == measured
      ensures mmToPxScale == OrientedScale(sensor, focalLength, distance, measured)
    {
      var before := boxSize;
      RunEffect(Some(measured), sensor, focalLength, distance);
      if before != measured {
        RunEffect(Some(measured), sensor, focalLength, distance);
      }
    }
  }

  /**
   * The first renders after mounting a 500 x 500 px canvas for a 36 x 24 mm
   * sensor, a 50 mm lens and 2 m: one effect run leaves the scale at zero
   * (computed from the empty box), and the settled state has the fresh scale, with
   * which the frame of the landscape sensor spans the box.
   */
  method FirstRenders() returns (firstScale: real, settledScale: real, settledFrameWidth: real)
    ensures firstScale == 0.0
    ensures settledScale == 500.0 / 1440.0
    ensures settledFrameWidth == 500.0
  {
    var view := new ShootingAreaView();
    var sensor := Size(36.0, 24.0);
    view.RunEffect(Some(Size(500.0, 500.0)), sensor, 50.0, 2.0);
    firstScale := view.mmToPxScale;
    view.Settle(Size(500.0, 500.0), sensor, 50.0, 2.0);
    settledScale := view.mmToPxScale;
    FreshSquareFrameIsPixelFrame(sensor, 50.0, 2.0, view.boxSize, view.mmToPxScale);
    settledFrameWidth := FrameRect(FramePx(sensor, 50.0, 2.0, view.mmToPxScale), view.boxSize).width;
  }
}
