/** `project`: rotation of a point by the current yaw and pitch, then the
    perspective divide. */
module Projection {
  import opened RealMath
  import opened Sphere
  import opened Orientation

  /** Cosine and sine of the yaw (`cosY`, `sinY`) and of the pitch (`cosX`, `sinX`). */
  datatype View = View(cosY: real, sinY: real, cosX: real, sinX: real)

  /** Both angle pairs lie on the unit circle. */
  predicate Rigid(v: View) {
    OnUnitCircle(v.cosY, v.sinY) && OnUnitCircle(v.cosX, v.sinX)
  }

  /** The view for the current orientation. */
  function ViewOf(m: Math, c: Clock): (v: View)
    ensures Lawful(m) ==> Rigid(v)
  {
    View(m.cos(c.yaw), m.sin(c.yaw), m.cos(c.pitch), m.sin(c.pitch))
  }

  /** A projected point: screen position, depth `z` (rotated depth plus the
      camera distance) and perspective scale `s`. */
  datatype Projected = Projected(x: real, y: real, z: real, s: real)

  /** Distance from the camera to the centre of the sphere. */
  const CameraDistance: real := 2.8

  /** Rotation about the vertical axis by the yaw, then about the horizontal
      axis by the pitch. */
  function Rotate(p: Point, v: View): Point {
    var x := p.x * v.cosY - p.z * v.sinY;
    var z := p.x * v.sinY + p.z * v.cosY;
    Point(x, p.y * v.cosX - z * v.sinX, p.y * v.sinX + z * v.cosX)
  }

  /** Rotation about one axis keeps the squared length in that plane. */
  lemma PlaneRotation(a: real, b: real, c: real, s: real)
    requires OnUnitCircle(c, s)
    ensures (a * c - b * s) * (a * c - b * s) + (a * s + b * c) * (a * s + b * c) == a * a + b * b
  {
    calc {
      (a * c - b * s) * (a * c - b * s) + (a * s + b * c) * (a * s + b * c);
      (a * a + b * b) * (c * c + s * s);
    }
  }

  /** The yaw-then-pitch rotation preserves length. */
  lemma {:induction false} RotatePreservesNorm(p: Point, v: View)
    requires Rigid(v)
    ensures Norm2(Rotate(p, v)) == Norm2(p)
  {
    var z := p.x * v.sinY + p.z * v.cosY;
    PlaneRotation(p.x, p.z, v.cosY, v.sinY);
    PlaneRotation(p.y, z, v.cosX, v.sinX);
  }

  /** `dz`: the rotated depth of p pushed back by the camera distance. */
  function Depth(p: Point, v: View, camZ: real): real {
    Rotate(p, v).z + camZ
  }

  /** A point closer to the centre than the camera stays in front of it:
      its depth is positive. */
  lemma InFrontOfCamera(p: Point, v: View)
    requires Rigid(v)
    requires Norm2(p) < CameraDistance * CameraDistance
    ensures Depth(p, v, CameraDistance) > 0.0
  {
    var q := Rotate(p, v);
    RotatePreservesNorm(p, v);
    assert q.z * q.z <= Norm2(q);
  }

  /** `project(p, fov, camZ)`. The source divides by `fov + dz` unguarded;
      a zero divisor is excluded here. */
  function Project(p: Point, v: View, fov: real, camZ: real): (q: Projected)
    requires fov + Depth(p, v, camZ) != 0.0
    ensures q.z == Rotate(p, v).z + camZ
    ensures q.s * (fov + q.z) == fov
    ensures q.x == Rotate(p, v).x * q.s && q.y == Rotate(p, v).y * q.s
    ensures fov > 0.0 && q.z > 0.0 ==> 0.0 < q.s < 1.0
  {
    var r := Rotate(p, v);
    var dz := r.z + camZ;
    var scale := fov / (fov + dz);
    Projected(r.x * scale, r.y * scale, dz, scale)
  }

  /** q lies in front of the camera and its scale is the perspective scale
      for its depth. */
  predicate InView(q: Projected, fov: real) {
    q.z > 0.0 && q.s * (fov + q.z) == fov
  }

  /** Every projected point is in view. */
  predicate AllInView(qs: seq<Projected>, fov: real) {
    forall k :: 0 <= k < |qs| ==> InView(qs[k], fov)
  }

  /** In view of a positive field of view, the scale lies strictly in (0, 1). */
  lemma InViewScale(q: Projected, fov: real)
    requires fov > 0.0 && InView(q, fov)
    ensures 0.0 < q.s < 1.0
  {
  }

  /** A farther point is drawn smaller: for a positive field of view the
      scale falls as the depth grows, strictly when the depth strictly grows. */
  lemma ScaleFallsWithDepth(p1: Point, p2: Point, v: View, fov: real, camZ: real)
    requires fov > 0.0
    requires Depth(p1, v, camZ) >= Depth(p2, v, camZ) > 0.0
    ensures Project(p1, v, fov, camZ).s <= Project(p2, v, fov, camZ).s
    ensures Depth(p1, v, camZ) > Depth(p2, v, camZ) ==> Project(p1, v, fov, camZ).s < Project(p2, v, fov, camZ).s
  {
    var q1, q2 := Project(p1, v, fov, camZ), Project(p2, v, fov, camZ);
    ScaleOrder(fov, q1.z, q2.z, q1.s, q2.s);
  }

  /** fov / (fov + d) falls as d grows, strictly when d strictly grows. */
  lemma ScaleOrder(fov: real, d1: real, d2: real, s1: real, s2: real)
    requires fov > 0.0 && d1 >= d2 > 0.0
    requires s1 * (fov + d1) == fov && s2 * (fov + d2) == fov
    ensures s1 <= s2
    ensures d1 > d2 ==> s1 < s2
  {
  }

  /** `minDim`: the shorter side of a width x height surface. */
  function MinDim(width: nat, height: nat): (d: real)
    ensures d <= width as real && d <= height as real
    ensures d == width as real || d == height as real
  {
    if width <= height then width as real else height as real
  }

  /** Field of view of the frame: `Math.max(180, minDim * 0.9)`. */
  function FieldOfView(width: nat, height: nat): (fov: real)
    ensures fov >= 180.0
    ensures fov >= MinDim(width, height) * 0.9
    ensures fov == 180.0 || fov == MinDim(width, height) * 0.9
  {
    Max(180.0, MinDim(width, height) * 0.9)
  }

  /** Every point is closer to the centre than the camera. */
  predicate InsideCamera(points: seq<Point>) {
    forall k :: 0 <= k < |points| ==> Norm2(points[k]) < CameraDistance * CameraDistance
  }

  /** Projects every point; all land in front of the camera. */
  function ProjectAll(points: seq<Point>, v: View, fov: real): (qs: seq<Projected>)
    requires Rigid(v) && fov > 0.0 && InsideCamera(points)
    ensures |qs| == |points|
    ensures AllInView(qs, fov)
    decreases |points|
  {
    if |points| == 0 then
      []
    else
      InFrontOfCamera(points[0], v);
      [Project(points[0], v, fov, CameraDistance)] + ProjectAll(points[1..], v, fov)
  }

  /** `points.map(p => project(p, fov, camZ))`: point k of the result is the
      projection of point k, each in front of the camera. */
  lemma {:induction false} ProjectAllPointwise(points: seq<Point>, v: View, fov: real)
    requires Rigid(v) && fov > 0.0 && InsideCamera(points)
    ensures forall k :: 0 <= k < |points| ==> Depth(points[k], v, CameraDistance) > 0.0
    ensures forall k :: 0 <= k < |points| ==> ProjectAll(points, v, fov)[k] == Project(points[k], v, fov, CameraDistance)
    decreases |points|
  {
    if |points| > 0 {
      InFrontOfCamera(points[0], v);
      ProjectAllPointwise(points[1..], v, fov);
      forall k | 0 < k < |points|
        ensures Depth(points[k], v, CameraDistance) > 0.0
      {
        assert points[k] == points[1..][k - 1];
      }
    }
  }
}
