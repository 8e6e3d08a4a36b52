/** Shared vocabulary of the pose pipeline: one tracked body point as the
    detector delivers it, and the truncating conversion from a normalised
    coordinate to a pixel coordinate that both the renderer and the
    detector adapter use. */
module Landmarks {

  /** One body point: x and y are fractions of the image size, z is the
      detector's relative depth, visibility its confidence. Coordinates are
      exact reals; floating-point rounding is not modelled. */
  datatype Landmark = Landmark(x: real, y: real, z: real, visibility: real)

  /** The landmark list of one detected body in one frame. */
  type Pose = seq<Landmark>

  /** A result that is absent where Python raises IndexError. */
  datatype Option<T> = None | Some(value: T)

  /** Python's `int()` on a float: truncation toward zero, so that the
      result never lies farther from zero than `v` and is less than one
      away from it. */
  function Trunc(v: real): (r: int)
    ensures 0.0 <= v ==> 0 <= r && r as real <= v < r as real + 1.0
    ensures v < 0.0 ==> r <= 0 && r as real - 1.0 < v <= r as real
  {
    if v >= 0.0 then v.Floor else -((-v).Floor)
  }

  /** `int(c * extent)`: a normalised coordinate scaled to a pixel
      coordinate on an axis `extent` pixels long. */
  function ToPixel(c: real, extent: int): (r: int)
    ensures 0.0 <= c * extent as real ==> 0 <= r && r as real <= c * extent as real < r as real + 1.0
    ensures c * extent as real < 0.0 ==> r <= 0 && r as real - 1.0 < c * extent as real <= r as real
  {
    Trunc(c * extent as real)
  }

  /** Truncation is not rounding: a pixel coordinate just below the next
      integer stays on the lower pixel. Concretely 0.999 of a 100 pixel
      axis is pixel 99, and -0.005 of it, -0.5 pixels, is pixel 0, not -1. */
  lemma TruncatesTowardZero()
    ensures ToPixel(0.999, 100) == 99
    ensures ToPixel(-0.005, 100) == 0
    ensures ToPixel(0.5, 641) == 320
  {
    assert 0.999 * 100 as real == 99.9;
    assert -0.005 * 100 as real == -0.5;
    assert 0.5 * 641 as real == 320.5;
  }

  /** A coordinate inside the image, a fraction in [0, 1), lands on a pixel
      inside it. */
  lemma PixelInsideImage(c: real, extent: int)
    requires 0.0 <= c < 1.0 && 0 < extent
    ensures 0 <= ToPixel(c, extent) < extent
  {
    var e := extent as real;
    var v := c * e;
    assert 0.0 <= v by {
      assert 0.0 <= c * e;
    }
    assert v < e by {
      assert e - v == (1.0 - c) * e;
      assert 0.0 < (1.0 - c) * e;
    }
    var r := ToPixel(c, extent);
    assert r as real <= v;
  }
}
