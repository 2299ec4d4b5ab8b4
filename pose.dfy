/** What the rig reads off one face: three rotation angles from four anchor landmarks, the
    face's width and height, and the factor by which each attached object is rescaled. */
module Pose {
  import opened ThreeMath
  import opened RotationLog
  import opened FaceGeometry

  /** Anchor landmarks of the 468-point face mesh. */
  const Forehead: nat := 10
  const Chin: nat := 152
  const LeftCheek: nat := 234
  const RightCheek: nat := 454

  /** Each estimated angle is divided by its axis' attenuation. */
  const PitchAttenuation: real := 1.5
  const YawAttenuation: real := 1.3
  const RollAttenuation: real := 1.0

  /** The mesh has every anchor landmark (454 is the largest). */
  predicate HasAnchors(mesh: seq<Point3>)
  {
    RightCheek < |mesh|
  }

  /** The angle at a between the segment ab and the line through a parallel to the first
      axis: getRadian2D on the right triangle (a, b, (b.x, a.y)). */
  function Tilt(a: Point2, b: Point2, m: Maths): real
  {
    GetRadian2D(a, b, Point2(b.x, a.y), m)
  }

  /** `(sign * t) / attenuation` with sign -1 when `negative`. */
  function Signed(negative: bool, t: real, attenuation: real): real
    requires attenuation != 0.0
  {
    ((if negative then -1.0 else 1.0) * t) / attenuation
  }

  /** Rotation about X, from forehead and chin in the (y, z) plane; negative when the
      forehead's depth exceeds the chin's. */
  function Pitch(mesh: seq<Point3>, m: Maths): real
    requires HasAnchors(mesh)
  {
    var top, chin := mesh[Forehead], mesh[Chin];
    Signed(top.z > chin.z, Tilt(Point2(top.y, top.z), Point2(chin.y, chin.z), m), PitchAttenuation)
  }

  /** Rotation about Y, from the two cheeks in the (x, z) plane; positive when the left
      cheek's depth exceeds the right's. */
  function Yaw(mesh: seq<Point3>, m: Maths): real
    requires HasAnchors(mesh)
  {
    var left, right := mesh[LeftCheek], mesh[RightCheek];
    Signed(!(left.z > right.z), Tilt(Point2(left.x, left.z), Point2(right.x, right.z), m), YawAttenuation)
  }

  /** Rotation about Z, from the two cheeks in the image plane; positive when the left cheek
      is above the right one (smaller y). */
  function Roll(mesh: seq<Point3>, m: Maths): real
    requires HasAnchors(mesh)
  {
    var left, right := mesh[LeftCheek], mesh[RightCheek];
    Signed(!(left.y < right.y), Tilt(Point2(left.x, left.y), Point2(right.x, right.y), m), RollAttenuation)
  }

  function EstimateRotation(mesh: seq<Point3>, m: Maths): Angles
    requires HasAnchors(mesh)
  {
    Angles(Pitch(mesh, m), Yaw(mesh, m), Roll(mesh, m))
  }

  /** Cheek-to-cheek distance. */
  function FaceWidth(mesh: seq<Point3>, m: Maths): real
    requires HasAnchors(mesh)
  {
    GetDistance3D(mesh[LeftCheek], mesh[RightCheek], m)
  }

  /** Forehead-to-chin distance. */
  function FaceHeight(mesh: seq<Point3>, m: Maths): real
    requires HasAnchors(mesh)
  {
    GetDistance3D(mesh[Forehead], mesh[Chin], m)
  }

  // ---------------------------------------------------------------------------
  // The estimated angles

  /** For a segment that is not vertical, |du| / |ab| is 1 exactly when the segment is
      horizontal. */
  lemma UnitRatioIff(a: Point2, b: Point2, m: Maths)
    requires Exact(m) && a.x != b.x
    ensures 0.0 < Segment(a, b, m)
    ensures Abs(a.x - b.x) / Segment(a, b, m) == 1.0 <==> a.y == b.y
  {
    PositiveSegment(a, b, m);
    var len := Segment(a, b, m);
    var dx, dy := a.x - b.x, a.y - b.y;
    var r := Abs(dx) / len;
    SqrtOf(m, Sq(dx) + Sq(dy));
    assert r * len == Abs(dx);
    assert Sq(dx) == Abs(dx) * Abs(dx);
    if dy == 0.0 {
      RootsUnique(len, Abs(dx));
    } else {
      SquarePositive(dy);
      RootsMonotone(Abs(dx), len);
      assert Abs(dx) != len;
    }
  }

  /** The tilt is non-negative and vanishes exactly when ab is parallel to one of the axes;
      otherwise it is acos(|du| / |ab|). */
  lemma TiltMeasure(a: Point2, b: Point2, m: Maths)
    requires Exact(m)
    ensures 0.0 <= Tilt(a, b, m)
    ensures Tilt(a, b, m) == 0.0 <==> a.x == b.x || a.y == b.y
    ensures a.x != b.x ==>
              0.0 < Segment(a, b, m) && Tilt(a, b, m) == m.acos(Abs(a.x - b.x) / Segment(a, b, m))
  {
    RightAngleRadian(a, b, m);
    if a.x != b.x {
      UnitRatioIff(a, b, m);
    }
  }

  /** A signed tilt has the chosen sign, vanishes exactly when ab is parallel to an axis, and
      otherwise has magnitude acos(|du| / |ab|) / attenuation. */
  lemma SignedTilt(negative: bool, a: Point2, b: Point2, attenuation: real, m: Maths)
    requires Exact(m) && attenuation > 0.0
    ensures var s := Signed(negative, Tilt(a, b, m), attenuation);
            (negative ==> s <= 0.0) && (!negative ==> 0.0 <= s) &&
            (s == 0.0 <==> a.x == b.x || a.y == b.y) &&
            (a.x != b.x ==>
               0.0 < Segment(a, b, m) && Abs(s) == m.acos(Abs(a.x - b.x) / Segment(a, b, m)) / attenuation)
  {
    TiltMeasure(a, b, m);
    var t := Tilt(a, b, m);
    assert 0.0 <= t / attenuation;
    assert t / attenuation == 0.0 <==> t == 0.0;
  }

  /** The pitch is at most 0 when the forehead is deeper than the chin and at least 0
      otherwise; it is 0 exactly when forehead and chin share their y or their depth, and
      otherwise its magnitude is acos(|dy| / |forehead chin|) / 1.5 in the (y, z) plane. */
  lemma PitchEstimate(mesh: seq<Point3>, m: Maths)
    requires Exact(m) && HasAnchors(mesh)
    ensures var top, chin := mesh[Forehead], mesh[Chin];
            var a, b := Point2(top.y, top.z), Point2(chin.y, chin.z);
            (top.z > chin.z ==> Pitch(mesh, m) <= 0.0) &&
            (top.z <= chin.z ==> 0.0 <= Pitch(mesh, m)) &&
            (Pitch(mesh, m) == 0.0 <==> top.y == chin.y || top.z == chin.z) &&
            (top.y != chin.y ==>
               0.0 < Segment(a, b, m) &&
               Abs(Pitch(mesh, m)) == m.acos(Abs(top.y - chin.y) / Segment(a, b, m)) / PitchAttenuation)
  {
    var top, chin := mesh[Forehead], mesh[Chin];
    SignedTilt(top.z > chin.z, Point2(top.y, top.z), Point2(chin.y, chin.z), PitchAttenuation, m);
  }

  /** The yaw is at least 0 when the left cheek is deeper than the right and at most 0
      otherwise; it is 0 exactly when the cheeks share their x or their depth, and otherwise
      its magnitude is acos(|dx| / |cheek cheek|) / 1.3 in the (x, z) plane. */
  lemma YawEstimate(mesh: seq<Point3>, m: Maths)
    requires Exact(m) && HasAnchors(mesh)
    ensures var left, right := mesh[LeftCheek], mesh[RightCheek];
            var a, b := Point2(left.x, left.z), Point2(right.x, right.z);
            (left.z > right.z ==> 0.0 <= Yaw(mesh, m)) &&
            (left.z <= right.z ==> Yaw(mesh, m) <= 0.0) &&
            (Yaw(mesh, m) == 0.0 <==> left.x == right.x || left.z == right.z) &&
            (left.x != right.x ==>
               0.0 < Segment(a, b, m) &&
               Abs(Yaw(mesh, m)) == m.acos(Abs(left.x - right.x) / Segment(a, b, m)) / YawAttenuation)
  {
    var left, right := mesh[LeftCheek], mesh[RightCheek];
    SignedTilt(!(left.z > right.z), Point2(left.x, left.z), Point2(right.x, right.z), YawAttenuation, m);
  }

  /** The roll is at least 0 when the left cheek is higher in the image (smaller y) and at
      most 0 otherwise; it is 0 exactly when the cheeks share their x or their y (level
      cheeks give no roll), and otherwise its magnitude is acos(|dx| / |cheek cheek|). */
  lemma RollEstimate(mesh: seq<Point3>, m: Maths)
    requires Exact(m) && HasAnchors(mesh)
    ensures var left, right := mesh[LeftCheek], mesh[RightCheek];
            var a, b := Point2(left.x, left.y), Point2(right.x, right.y);
            (left.y < right.y ==> 0.0 <= Roll(mesh, m)) &&
            (left.y >= right.y ==> Roll(mesh, m) <= 0.0) &&
            (Roll(mesh, m) == 0.0 <==> left.x == right.x || left.y == right.y) &&
            (left.x != right.x ==>
               0.0 < Segment(a, b, m) &&
               Abs(Roll(mesh, m)) == m.acos(Abs(left.x - right.x) / Segment(a, b, m)) / RollAttenuation)
  {
    var left, right := mesh[LeftCheek], mesh[RightCheek];
    SignedTilt(!(left.y < right.y), Point2(left.x, left.y), Point2(right.x, right.y), RollAttenuation, m);
  }

  /** The estimates read only the four anchors: any two meshes that agree there give the same
      angles, width and height. */
  lemma EstimatesReadOnlyAnchors(mesh: seq<Point3>, other: seq<Point3>, m: Maths)
    requires HasAnchors(mesh) && HasAnchors(other)
    requires mesh[Forehead] == other[Forehead] && mesh[Chin] == other[Chin]
    requires mesh[LeftCheek] == other[LeftCheek] && mesh[RightCheek] == other[RightCheek]
    ensures EstimateRotation(mesh, m) == EstimateRotation(other, m)
    ensures FaceWidth(mesh, m) == FaceWidth(other, m) && FaceHeight(mesh, m) == FaceHeight(other, m)
  {
  }

  // ---------------------------------------------------------------------------
  // Scaling an attached object

  /** The factor setGltfScale applies: the larger of width * ratio.x / size.width and
      height * ratio.y / size.height. */
  function ScaleParm(width: real, height: real, ratio: Point2, size: Size): real
    requires size.width != 0.0 && size.height != 0.0
  {
    var byWidth := (width * ratio.x) / size.width;
    var byHeight := (height * ratio.y) / size.height;
    if byWidth > byHeight then byWidth else byHeight
  }

  function Rescaled(size: Size, s: real): Size
  {
    Size(size.width * s, size.height * s)
  }

  lemma ScaledCovers(target: real, c: real, s: real)
    requires c > 0.0 && s >= target / c
    ensures c * s >= target
    ensures s == target / c ==> c * s == target
  {
    assert (target / c) * c == target;
    if s > target / c {
      ProductPositive(s - target / c, c);
    }
  }

  /** After rescaling, the tracked size covers the face scaled by the ideal ratio in both
      dimensions and matches it exactly in at least one. */
  lemma ScaleCoversFace(width: real, height: real, ratio: Point2, size: Size)
    requires size.width > 0.0 && size.height > 0.0
    ensures var r := Rescaled(size, ScaleParm(width, height, ratio, size));
            r.width >= width * ratio.x && r.height >= height * ratio.y &&
            (r.width == width * ratio.x || r.height == height * ratio.y)
  {
    var s := ScaleParm(width, height, ratio, size);
    ScaledCovers(width * ratio.x, size.width, s);
    ScaledCovers(height * ratio.y, size.height, s);
  }

  /** Rescaling by a non-zero factor keeps the aspect ratio. */
  lemma RescaleKeepsAspect(size: Size, s: real)
    requires size.height != 0.0 && s != 0.0
    ensures Rescaled(size, s).height != 0.0
    ensures Rescaled(size, s).width / Rescaled(size, s).height == size.width / size.height
  {
    var q := size.width / size.height;
    assert size.width == q * size.height;
    assert size.width * s == q * (size.height * s);
  }

  lemma QuotientMonotone(n: real, n': real, d: real)
    requires d > 0.0 && n <= n'
    ensures n / d <= n' / d
  {
    assert n' / d - n / d == (n' - n) / d;
  }

  lemma ProductMonotone(u: real, u': real, k: real)
    requires u <= u' && 0.0 <= k
    ensures u * k <= u' * k
  {
    if u < u' && 0.0 < k {
      ProductPositive(u' - u, k);
    }
  }

  /** A wider face never gives a smaller factor (for instance doubling the width). */
  lemma ScaleParmMonotoneInWidth(width: real, width': real, height: real, ratio: Point2, size: Size)
    requires size.width > 0.0 && size.height != 0.0 && ratio.x >= 0.0
    requires width <= width'
    ensures ScaleParm(width, height, ratio, size) <= ScaleParm(width', height, ratio, size)
  {
    ProductMonotone(width, width', ratio.x);
    QuotientMonotone(width * ratio.x, width' * ratio.x, size.width);
  }

  /** The same, for a taller face. */
  lemma ScaleParmMonotoneInHeight(width: real, height: real, height': real, ratio: Point2, size: Size)
    requires size.width != 0.0 && size.height > 0.0 && ratio.y >= 0.0
    requires height <= height'
    ensures ScaleParm(width, height, ratio, size) <= ScaleParm(width, height', ratio, size)
  {
    ProductMonotone(height, height', ratio.y);
    QuotientMonotone(height * ratio.y, height' * ratio.y, size.height);
  }
}
