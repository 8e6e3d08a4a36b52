/** The stick-figure renderer: a cyclic choice among four colour palettes,
    and the display list of circles, polygons, lines and an ellipse that
    one call of `draw_character` hands to OpenCV. Pixels are not modelled;
    each primitive is data carrying the parameters of its drawing call. */
module Renderer {
  import opened Landmarks

  // ---------------------------------------------------------------------
  // Colours and palettes
  // ---------------------------------------------------------------------

  /** An OpenCV colour, blue first. */
  datatype Bgr = Bgr(b: int, g: int, r: int)

  /** The colours of one scheme, by body part. */
  datatype Palette = Palette(head: Bgr, body: Bgr, arms: Bgr, legs: Bgr)

  /** The four schemes: default, colourful, monochrome and pink. */
  const ColorSchemes: seq<Palette> := [
    Palette(Bgr(204, 255, 255), Bgr(170, 170, 255), Bgr(255, 221, 221), Bgr(255, 170, 170)),
    Palette(Bgr(0, 215, 255), Bgr(71, 99, 255), Bgr(225, 105, 65), Bgr(50, 205, 50)),
    Palette(Bgr(224, 224, 224), Bgr(160, 160, 160), Bgr(128, 128, 128), Bgr(96, 96, 96)),
    Palette(Bgr(193, 182, 255), Bgr(180, 105, 255), Bgr(214, 112, 218), Bgr(211, 85, 186))
  ]

  const Black := Bgr(0, 0, 0)
  /** The nose colour. */
  const Red := Bgr(0, 0, 255)

  /** The scheme after `i`: Python's `(i + 1) % 4`, which for a positive
      modulus agrees with Dafny's Euclidean `%` on every integer. */
  function NextScheme(i: int): (r: int)
    ensures 0 <= r < |ColorSchemes|
    ensures 0 <= i < |ColorSchemes| - 1 ==> r == i + 1
    ensures i == |ColorSchemes| - 1 ==> r == 0
  {
    (i + 1) % |ColorSchemes|
  }

  /** The scheme reached from `i` after `k` switches. */
  function Advance(i: int, k: nat): int
  {
    if k == 0 then i else NextScheme(Advance(i, k - 1))
  }

  /** From a valid scheme, `k` switches move `k` places round the table. */
  lemma {:induction false} AdvanceIsModular(i: int, k: nat)
    requires 0 <= i < |ColorSchemes|
    ensures Advance(i, k) == (i + k) % |ColorSchemes|
  {
    if k > 0 {
      AdvanceIsModular(i, k - 1);
    }
  }

  /** Four switches bring back the scheme one started from. */
  lemma FourSwitchesRestore(i: int)
    requires 0 <= i < |ColorSchemes|
    ensures Advance(i, 4) == i
    ensures forall k :: 0 < k < 4 ==> Advance(i, k) != i
  {
    AdvanceIsModular(i, 1);
    AdvanceIsModular(i, 2);
    AdvanceIsModular(i, 3);
    AdvanceIsModular(i, 4);
  }

  // ---------------------------------------------------------------------
  // Display-list primitives
  // ---------------------------------------------------------------------

  /** A pixel position. */
  datatype Point = Point(x: int, y: int)

  /** The half-axes of an ellipse. */
  datatype Size = Size(width: int, height: int)

  /** One OpenCV drawing call with its parameters (the canvas left out). */
  datatype Primitive =
    | Circle(center: Point, radius: int, color: Bgr, thickness: int)
    | FillPoly(points: seq<Point>, color: Bgr)
    | Polylines(points: seq<Point>, closed: bool, color: Bgr, thickness: int)
    | Line(from: Point, to: Point, color: Bgr, thickness: int, lineType: int)
    | Ellipse(center: Point, axes: Size, angle: int, startAngle: int, endAngle: int, color: Bgr, thickness: int)

  /** OpenCV's thickness for a filled shape. */
  const Filled := -1
  /** OpenCV's `LINE_AA`, antialiased lines. */
  const LineAA := 16
  const OutlineThickness := 2
  const ArmThickness := 15
  const LegThickness := 20
  /** The default thickness of `_draw_limb`. */
  const DefaultLimbThickness := 10
  const MinHeadSize := 30

  /** The sign and shape conditions on a primitive's parameters: no
      negative radius or half-axis, a positive stroke width or "filled"
      where that is allowed, and a polygon with at least one vertex. Pixel
      coordinates are unbounded here; their 32-bit range is not checked. */
  predicate Drawable(p: Primitive)
  {
    match p
    case Circle(_, radius, _, thickness) => 0 <= radius && (thickness == Filled || 0 < thickness)
    case FillPoly(points, _) => 0 < |points|
    case Polylines(points, _, _, thickness) => 0 < |points| && 0 < thickness
    case Line(_, _, _, thickness, _) => 0 < thickness
    case Ellipse(_, axes, _, _, _, _, thickness) => 0 <= axes.width && 0 <= axes.height && 0 < thickness
  }

  // ---------------------------------------------------------------------
  // Limbs
  // ---------------------------------------------------------------------

  /** The first loop of `_draw_limb`: one antialiased line from each point
      to the next. */
  function Segments(points: seq<Point>, color: Bgr, thickness: int): (r: seq<Primitive>)
    ensures |r| == if |points| < 2 then 0 else |points| - 1
    ensures forall i :: 0 <= i < |r| ==> r[i] == Line(points[i], points[i + 1], color, thickness, LineAA)
  {
    if |points| < 2 then []
    else [Line(points[0], points[1], color, thickness, LineAA)] + Segments(points[1..], color, thickness)
  }

  /** The interior points `points[1:-1]` of a limb, its joints. */
  function Joints(points: seq<Point>): (r: seq<Point>)
    ensures |r| == if |points| < 2 then 0 else |points| - 2
    ensures forall i :: 0 <= i < |r| ==> r[i] == points[i + 1]
  {
    if |points| < 2 then [] else points[1..|points| - 1]
  }

  /** The second loop of `_draw_limb`: a filled disc of radius
      `thickness // 2` at each given point. Python's `//` floors and Dafny's
      `/` is Euclidean; for the divisor 2 they agree on every integer. */
  function Discs(points: seq<Point>, color: Bgr, thickness: int): (r: seq<Primitive>)
    ensures |r| == |points|
    ensures forall i :: 0 <= i < |r| ==> r[i] == Circle(points[i], thickness / 2, color, Filled)
  {
    if |points| == 0 then []
    else [Circle(points[0], thickness / 2, color, Filled)] + Discs(points[1..], color, thickness)
  }

  /** A limb's display list as `DrawLimb` promises it: with `n` points,
      `n - 1` segments from each point to the next, then a filled disc of
      half the thickness on each of the `n - 2` interior points. */
  predicate IsLimb(r: seq<Primitive>, points: seq<Point>, color: Bgr, thickness: int)
  {
    |r| == (if |points| < 2 then 0 else 2 * |points| - 3) &&
    (forall i :: 0 <= i < |points| - 1 ==> r[i] == Line(points[i], points[i + 1], color, thickness, LineAA)) &&
    (forall i :: 1 <= i < |points| - 1 ==> r[|points| - 2 + i] == Circle(points[i], thickness / 2, color, Filled))
  }

  /** Segments followed by the discs of the joints form a limb. */
  lemma SegmentsThenDiscs(points: seq<Point>, color: Bgr, thickness: int, segments: seq<Primitive>, discs: seq<Primitive>)
    requires |segments| == if |points| < 2 then 0 else |points| - 1
    requires forall i :: 0 <= i < |segments| ==> segments[i] == Line(points[i], points[i + 1], color, thickness, LineAA)
    requires |discs| == if |points| < 2 then 0 else |points| - 2
    requires forall i :: 0 <= i < |discs| ==> discs[i] == Circle(points[i + 1], thickness / 2, color, Filled)
    ensures IsLimb(segments + discs, points, color, thickness)
    ensures 0 < thickness ==> AllDrawable(segments + discs)
  {
    var r := segments + discs;
    forall i | 1 <= i < |points| - 1
      ensures r[|points| - 2 + i] == Circle(points[i], thickness / 2, color, Filled)
    {
      assert r[|points| - 2 + i] == discs[i - 1];
    }
    if 0 < thickness {
      forall k | 0 <= k < |segments|
        ensures Drawable(segments[k])
      {
        assert segments[k] == Line(points[k], points[k + 1], color, thickness, LineAA);
      }
      forall k | 0 <= k < |discs|
        ensures Drawable(discs[k])
      {
        assert discs[k].Circle? && discs[k].radius == thickness / 2 && discs[k].thickness == Filled;
      }
      ConcatDrawable(segments, discs);
    }
  }

  /** `_draw_limb`: the segments first, then the joint discs. */
  function DrawLimb(points: seq<Point>, color: Bgr, thickness: int := DefaultLimbThickness): (r: seq<Primitive>)
    ensures IsLimb(r, points, color, thickness)
    ensures 0 < thickness ==> AllDrawable(r)
  {
    var segments := Segments(points, color, thickness);
    var discs := Discs(Joints(points), color, thickness);
    SegmentsThenDiscs(points, color, thickness, segments, discs);
    segments + discs
  }

  // ---------------------------------------------------------------------
  // Head size
  // ---------------------------------------------------------------------

  lemma SquareMonotone(a: nat, b: nat)
    requires a <= b
    ensures a * a <= b * b
  {
    assert a * a <= a * b <= b * b;
  }

  /** One halving step of the integer square root: twice the root of
      `n / 4` is at most the root of `n`, and that plus two squares above `n`. */
  lemma RootOfQuarter(n: nat, q: nat)
    requires q * q <= n / 4 < (q + 1) * (q + 1)
    ensures (2 * q) * (2 * q) <= n < (2 * q + 2) * (2 * q + 2)
  {
    assert (2 * q) * (2 * q) == 4 * (q * q);
    assert (2 * q + 2) * (2 * q + 2) == 4 * ((q + 1) * (q + 1));
  }

  /** The integer square root: the largest `r` with `r * r <= n`. */
  function ISqrt(n: nat): (r: nat)
    ensures r * r <= n < (r + 1) * (r + 1)
  {
    if n < 2 then n
    else
      var q := ISqrt(n / 4);
      RootOfQuarter(n, q);
      if (2 * q + 1) * (2 * q + 1) <= n then 2 * q + 1 else 2 * q
  }

  /** The root is unique: any `r` that brackets `n` is `ISqrt(n)`. */
  lemma ISqrtUnique(n: nat, r: nat)
    requires r * r <= n < (r + 1) * (r + 1)
    ensures r == ISqrt(n)
  {
    var s := ISqrt(n);
    if r < s {
      SquareMonotone(r + 1, s);
    } else if s < r {
      SquareMonotone(s + 1, r);
    }
  }

  /** The squared pixel distance between the two eyes. */
  function SquaredDistance(p: Point, q: Point): (r: nat)
    ensures p == q ==> r == 0
  {
    var dx, dy := p.x - q.x, p.y - q.y;
    SquareNonNegative(dx);
    SquareNonNegative(dy);
    dx * dx + dy * dy
  }

  lemma SquareNonNegative(v: int)
    ensures 0 <= v * v
  {
    if v < 0 {
      assert v * v == (-v) * (-v);
    }
  }

  /** `max(int(sqrt(d2) * 5), 30)` for the squared eye distance `d2`. In
      exact arithmetic `floor(5 * sqrt(d2))` is the integer square root of
      `25 * d2`. */
  function HeadSize(leftEye: Point, rightEye: Point): (r: int)
    ensures MinHeadSize <= r
    ensures r == MinHeadSize <==> 25 * SquaredDistance(leftEye, rightEye) < (MinHeadSize + 1) * (MinHeadSize + 1)
    ensures MinHeadSize < r ==>
              r * r <= 25 * SquaredDistance(leftEye, rightEye) < (r + 1) * (r + 1)
  {
    var root := ISqrt(25 * SquaredDistance(leftEye, rightEye));
    if MinHeadSize <= root then
      (if root == MinHeadSize then
         assert 25 * SquaredDistance(leftEye, rightEye) < (root + 1) * (root + 1); root
       else
         SquareMonotone(MinHeadSize + 1, root); root)
    else
      SquareMonotone(root + 1, MinHeadSize);
      MinHeadSize
  }

  /** Eyes on the same pixel give the minimum head. */
  lemma CoincidentEyesGiveMinimumHead(p: Point)
    ensures HeadSize(p, p) == MinHeadSize
  {
  }

  /** Eyes 10 pixels apart give a head of exactly 50 pixels, five times the
      distance; eyes 3 pixels apart would give 15 and are raised to 30. */
  lemma HeadSizeExamples()
    ensures HeadSize(Point(100, 40), Point(110, 40)) == 50
    ensures HeadSize(Point(100, 40), Point(103, 40)) == MinHeadSize
    ensures HeadSize(Point(0, 0), Point(3, 4)) == MinHeadSize
  {
    ISqrtUnique(2500, 50);
  }

  // ---------------------------------------------------------------------
  // The character
  // ---------------------------------------------------------------------

  /** Indices into the detector's landmark list read by `draw_character`. */
  const NoseIndex := 0
  const LeftEyeIndex := 2
  const RightEyeIndex := 5
  const LeftShoulderIndex := 11
  const RightShoulderIndex := 12
  const LeftElbowIndex := 13
  const RightElbowIndex := 14
  const LeftWristIndex := 15
  const RightWristIndex := 16
  const LeftHipIndex := 23
  const RightHipIndex := 24
  const LeftKneeIndex := 25
  const RightKneeIndex := 26
  const LeftAnkleIndex := 27
  const RightAnkleIndex := 28

  /** `(transform_x(l.x), transform_y(l.y))`: truncating projection to pixels. */
  function Project(l: Landmark, width: int, height: int): Point
  {
    Point(ToPixel(l.x, width), ToPixel(l.y, height))
  }

  /** The pixel of the landmark at `index`. */
  function Joint(lm: Pose, index: nat, width: int, height: int): Point
    requires index < |lm|
  {
    Project(lm[index], width, height)
  }

  /** The torso polygon: left shoulder, right shoulder, right hip, left hip. */
  function Torso(lm: Pose, width: int, height: int): (r: seq<Point>)
    requires RightAnkleIndex < |lm|
    ensures |r| == 4
    ensures r[0] == Joint(lm, LeftShoulderIndex, width, height) && r[1] == Joint(lm, RightShoulderIndex, width, height)
    ensures r[2] == Joint(lm, RightHipIndex, width, height) && r[3] == Joint(lm, LeftHipIndex, width, height)
  {
    [Joint(lm, LeftShoulderIndex, width, height), Joint(lm, RightShoulderIndex, width, height),
     Joint(lm, RightHipIndex, width, height), Joint(lm, LeftHipIndex, width, height)]
  }

  /** Every primitive of `s` is drawable. */
  predicate AllDrawable(s: seq<Primitive>)
  {
    forall k :: 0 <= k < |s| ==> Drawable(s[k])
  }

  lemma ConcatDrawable(a: seq<Primitive>, b: seq<Primitive>)
    requires AllDrawable(a) && AllDrawable(b)
    ensures AllDrawable(a + b)
  {
    assert forall k :: |a| <= k < |a + b| ==> (a + b)[k] == b[k - |a|];
  }

  /** The head: a filled disc of the head colour, then a black outline of
      the same circle, centred on the nose. */
  function DrawHead(nose: Point, headSize: int, color: Bgr): (r: seq<Primitive>)
    ensures |r| == 2 && r[0].Circle? && r[1].Circle?
    ensures r[0].center == r[1].center == nose && r[0].radius == r[1].radius == headSize
    ensures r[0].color == color && r[0].thickness == Filled
    ensures r[1].color == Black && r[1].thickness == OutlineThickness
    ensures 0 <= headSize ==> AllDrawable(r)
  {
    [Circle(nose, headSize, color, Filled), Circle(nose, headSize, Black, OutlineThickness)]
  }

  /** The torso: the quadrilateral filled, then outlined as a closed
      polyline in black. */
  function DrawBody(torso: seq<Point>, color: Bgr): (r: seq<Primitive>)
    ensures |r| == 2 && r[0].FillPoly? && r[1].Polylines?
    ensures r[0].points == r[1].points == torso && r[1].closed
    ensures r[0].color == color && r[1].color == Black && r[1].thickness == OutlineThickness
    ensures 0 < |torso| ==> AllDrawable(r)
  {
    [FillPoly(torso, color), Polylines(torso, true, Black, OutlineThickness)]
  }

  /** Eyes, nose and smile, each sized as a fraction of the head: filled
      eyes of a sixth of the head, a red nose of an eighth, and the lower
      half of an ellipse half the head wide and a quarter high, its centre
      a third of the head below the nose. */
  function DrawFace(nose: Point, leftEye: Point, rightEye: Point, headSize: int): (r: seq<Primitive>)
    ensures |r| == 4
    ensures r[0] == Circle(leftEye, headSize / 6, Black, Filled)
    ensures r[1] == Circle(rightEye, headSize / 6, Black, Filled)
    ensures r[2] == Circle(nose, headSize / 8, Red, Filled)
    ensures r[3].Ellipse? && r[3].center == Point(nose.x, nose.y + headSize / 3)
    ensures r[3].axes == Size(headSize / 2, headSize / 4)
    ensures r[3].angle == 0 && r[3].startAngle == 0 && r[3].endAngle == 180
    ensures r[3].color == Black && r[3].thickness == OutlineThickness
    ensures 0 <= headSize ==> AllDrawable(r)
  {
    [Circle(leftEye, headSize / 6, Black, Filled), Circle(rightEye, headSize / 6, Black, Filled),
     Circle(nose, headSize / 8, Red, Filled),
     Ellipse(Point(nose.x, nose.y + headSize / 3), Size(headSize / 2, headSize / 4), 0, 0, 180, Black, OutlineThickness)]
  }

  /** The four limbs, shoulder or hip first: left arm, right arm, left
      leg, right leg. */
  function DrawLimbs(colors: Palette, lm: Pose, width: int, height: int): (r: seq<Primitive>)
    requires RightAnkleIndex < |lm|
    ensures |r| == 12 && AllDrawable(r)
  {
    var leftArm := DrawLimb([Joint(lm, LeftShoulderIndex, width, height), Joint(lm, LeftElbowIndex, width, height),
                             Joint(lm, LeftWristIndex, width, height)], colors.arms, ArmThickness);
    var rightArm := DrawLimb([Joint(lm, RightShoulderIndex, width, height), Joint(lm, RightElbowIndex, width, height),
                              Joint(lm, RightWristIndex, width, height)], colors.arms, ArmThickness);
    var leftLeg := DrawLimb([Joint(lm, LeftHipIndex, width, height), Joint(lm, LeftKneeIndex, width, height),
                             Joint(lm, LeftAnkleIndex, width, height)], colors.legs, LegThickness);
    var rightLeg := DrawLimb([Joint(lm, RightHipIndex, width, height), Joint(lm, RightKneeIndex, width, height),
                              Joint(lm, RightAnkleIndex, width, height)], colors.legs, LegThickness);
    ConcatDrawable(leftArm, rightArm);
    ConcatDrawable(leftArm + rightArm, leftLeg);
    ConcatDrawable(leftArm + rightArm + leftLeg, rightLeg);
    leftArm + rightArm + leftLeg + rightLeg
  }

  /** A limb through three joints is two segments and one disc on the
      middle joint. */
  lemma ThreeJointLimb(a: Point, b: Point, c: Point, color: Bgr, thickness: int)
    ensures DrawLimb([a, b, c], color, thickness) ==
            [Line(a, b, color, thickness, LineAA), Line(b, c, color, thickness, LineAA),
             Circle(b, thickness / 2, color, Filled)]
  {
    var r := DrawLimb([a, b, c], color, thickness);
    assert [a, b, c][1] == b && [a, b, c][2] == c;
    assert r[0] == Line(a, b, color, thickness, LineAA);
    assert r[1] == Line(b, c, color, thickness, LineAA);
    assert r[2] == Circle(b, thickness / 2, color, Filled);
  }

  /** The limb primitives one by one: for each limb, the upper segment, the
      lower segment, then a disc on the elbow or knee. Arms are 15 pixels
      thick with 7 pixel joint discs; legs 20 pixels with 10 pixel discs. */
  lemma LimbPrimitives(colors: Palette, lm: Pose, width: int, height: int)
    requires RightAnkleIndex < |lm|
    ensures var r := DrawLimbs(colors, lm, width, height);
            var ls, le, lw := Joint(lm, LeftShoulderIndex, width, height), Joint(lm, LeftElbowIndex, width, height),
                              Joint(lm, LeftWristIndex, width, height);
            var rs, re, rw := Joint(lm, RightShoulderIndex, width, height), Joint(lm, RightElbowIndex, width, height),
                              Joint(lm, RightWristIndex, width, height);
            var lh, lk, la := Joint(lm, LeftHipIndex, width, height), Joint(lm, LeftKneeIndex, width, height),
                              Joint(lm, LeftAnkleIndex, width, height);
            var rh, rk, ra := Joint(lm, RightHipIndex, width, height), Joint(lm, RightKneeIndex, width, height),
                              Joint(lm, RightAnkleIndex, width, height);
            r == [Line(ls, le, colors.arms, ArmThickness, LineAA), Line(le, lw, colors.arms, ArmThickness, LineAA),
                  Circle(le, 7, colors.arms, Filled),
                  Line(rs, re, colors.arms, ArmThickness, LineAA), Line(re, rw, colors.arms, ArmThickness, LineAA),
                  Circle(re, 7, colors.arms, Filled),
                  Line(lh, lk, colors.legs, LegThickness, LineAA), Line(lk, la, colors.legs, LegThickness, LineAA),
                  Circle(lk, 10, colors.legs, Filled),
                  Line(rh, rk, colors.legs, LegThickness, LineAA), Line(rk, ra, colors.legs, LegThickness, LineAA),
                  Circle(rk, 10, colors.legs, Filled)]
  {
    FourLimbs(Joint(lm, LeftShoulderIndex, width, height), Joint(lm, LeftElbowIndex, width, height),
              Joint(lm, LeftWristIndex, width, height),
              Joint(lm, RightShoulderIndex, width, height), Joint(lm, RightElbowIndex, width, height),
              Joint(lm, RightWristIndex, width, height),
              Joint(lm, LeftHipIndex, width, height), Joint(lm, LeftKneeIndex, width, height),
              Joint(lm, LeftAnkleIndex, width, height),
              Joint(lm, RightHipIndex, width, height), Joint(lm, RightKneeIndex, width, height),
              Joint(lm, RightAnkleIndex, width, height), colors.arms, colors.legs);
  }

  /** The same twelve primitives for any twelve points, so that the
      list is built from the points without unfolding `Joint`. */
  lemma FourLimbs(ls: Point, le: Point, lw: Point, rs: Point, re: Point, rw: Point,
                  lh: Point, lk: Point, la: Point, rh: Point, rk: Point, ra: Point, arms: Bgr, legs: Bgr)
    ensures DrawLimb([ls, le, lw], arms, ArmThickness) + DrawLimb([rs, re, rw], arms, ArmThickness) +
            DrawLimb([lh, lk, la], legs, LegThickness) + DrawLimb([rh, rk, ra], legs, LegThickness) ==
            [Line(ls, le, arms, ArmThickness, LineAA), Line(le, lw, arms, ArmThickness, LineAA), Circle(le, 7, arms, Filled),
             Line(rs, re, arms, ArmThickness, LineAA), Line(re, rw, arms, ArmThickness, LineAA), Circle(re, 7, arms, Filled),
             Line(lh, lk, legs, LegThickness, LineAA), Line(lk, la, legs, LegThickness, LineAA), Circle(lk, 10, legs, Filled),
             Line(rh, rk, legs, LegThickness, LineAA), Line(rk, ra, legs, LegThickness, LineAA), Circle(rk, 10, legs, Filled)]
  {
    ThreeJointLimb(ls, le, lw, arms, ArmThickness);
    ThreeJointLimb(rs, re, rw, arms, ArmThickness);
    ThreeJointLimb(lh, lk, la, legs, LegThickness);
    ThreeJointLimb(rh, rk, ra, legs, LegThickness);
  }

  /** The display list of `draw_character`, in drawing order: head (2),
      torso (2), limbs (12), face (4). Every primitive is `Drawable`: its
      radii and half-axes are non-negative, its stroke widths positive or
      filled and its polygon non-empty, because the head is never smaller
      than 30 pixels. */
  function Draw(colors: Palette, lm: Pose, width: int, height: int): (r: seq<Primitive>)
    requires RightAnkleIndex < |lm|
    ensures |r| == 20 && AllDrawable(r)
  {
    var nose := Joint(lm, NoseIndex, width, height);
    var leftEye := Joint(lm, LeftEyeIndex, width, height);
    var rightEye := Joint(lm, RightEyeIndex, width, height);
    var headSize := HeadSize(leftEye, rightEye);
    var head := DrawHead(nose, headSize, colors.head);
    var body := DrawBody(Torso(lm, width, height), colors.body);
    var limbs := DrawLimbs(colors, lm, width, height);
    var face := DrawFace(nose, leftEye, rightEye, headSize);
    ConcatDrawable(head, body);
    ConcatDrawable(head + body, limbs);
    ConcatDrawable(head + body + limbs, face);
    head + body + limbs + face
  }

  /** Where each part lands in the display list: the head at 0-1, the
      torso at 2-3, the limbs at 4-15 and the face at 16-19, the head sized
      from the eye pixels and centred with the nose and smile on the nose
      pixel. */
  lemma DrawOrder(colors: Palette, lm: Pose, width: int, height: int)
    requires RightAnkleIndex < |lm|
    ensures var r := Draw(colors, lm, width, height);
            var nose := Joint(lm, NoseIndex, width, height);
            var leftEye := Joint(lm, LeftEyeIndex, width, height);
            var rightEye := Joint(lm, RightEyeIndex, width, height);
            var headSize := HeadSize(leftEye, rightEye);
            r[..2] == DrawHead(nose, headSize, colors.head) &&
            r[2..4] == DrawBody(Torso(lm, width, height), colors.body) &&
            r[4..16] == DrawLimbs(colors, lm, width, height) &&
            r[16..] == DrawFace(nose, leftEye, rightEye, headSize)
  {
    var nose := Joint(lm, NoseIndex, width, height);
    var leftEye := Joint(lm, LeftEyeIndex, width, height);
    var rightEye := Joint(lm, RightEyeIndex, width, height);
    var headSize := HeadSize(leftEye, rightEye);
    var head := DrawHead(nose, headSize, colors.head);
    var body := DrawBody(Torso(lm, width, height), colors.body);
    var limbs := DrawLimbs(colors, lm, width, height);
    var face := DrawFace(nose, leftEye, rightEye, headSize);
    var r := head + body + limbs + face;
    assert r == Draw(colors, lm, width, height);
    assert r[..2] == head;
    assert r[2..4] == body;
    assert r[4..16] == limbs;
    assert r[16..] == face;
  }

  /** The lower half of the smile ellipse lies inside the head disc: its
      farthest reach, half the head to the side and a third plus a quarter
      of the head below the nose, is closer to the nose than the radius. */
  lemma SmileInsideHead(nose: Point, leftEye: Point, rightEye: Point, headSize: int)
    requires 0 < headSize
    ensures var smile := DrawFace(nose, leftEye, rightEye, headSize)[3];
            var reach := smile.center.y - nose.y + smile.axes.height;
            smile.axes.width * smile.axes.width + reach * reach < headSize * headSize
  {
    var h: nat := headSize;
    var a, reach := h / 2, h / 3 + h / 4;
    assert 2 * a <= h && 12 * reach <= 7 * h;
    SquareMonotone(2 * a, h);
    SquareMonotone(12 * reach, 7 * h);
    assert (2 * a) * (2 * a) == 4 * (a * a);
    assert (12 * reach) * (12 * reach) == 144 * (reach * reach);
    assert (7 * h) * (7 * h) == 49 * (h * h);
    SquareMonotone(1, h);
  }

  // ---------------------------------------------------------------------
  // The renderer object
  // ---------------------------------------------------------------------

  class CharacterRenderer {
    /** The index of the active scheme in `ColorSchemes`. */
    var currentScheme: int
    /** The active palette. */
    var colors: Palette

    /** The active palette is the scheme the index names. */
    ghost predicate Valid()
      reads this
    {
      0 <= currentScheme < |ColorSchemes| && colors == ColorSchemes[currentScheme]
    }

    constructor ()
      ensures Valid()
      ensures currentScheme == 0 && colors == ColorSchemes[0]
    {
      currentScheme := 0;
      colors := ColorSchemes[0];
    }

    /** Switch to the next scheme, wrapping from the last to the first. */
    method NextColorScheme()
      modifies this
      ensures Valid()
      ensures currentScheme == NextScheme(old(currentScheme))
    {
      currentScheme := (currentScheme + 1) % |ColorSchemes|;
      colors := ColorSchemes[currentScheme];
    }

    /** `draw_character` with the active palette. All fifteen landmarks are
        read before anything is drawn, so a list that stops before index 28
        raises IndexError with nothing on the canvas. */
    method DrawCharacter(landmarks: Pose, width: int, height: int) returns (r: Option<seq<Primitive>>)
      ensures r.None? <==> |landmarks| <= RightAnkleIndex
      ensures r.Some? ==> r.value == Draw(colors, landmarks, width, height)
    {
      if |landmarks| <= RightAnkleIndex {
        return None;
      }
      r := Some(Draw(colors, landmarks, width, height));
    }
  }
}
