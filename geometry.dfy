// The JavaFX geometry the core computes with: points, bounding boxes,
// ellipses and the affine camera pose. Doubles are modelled as reals.
module Geometry {

  datatype Point3D = Point3D(x: real, y: real, z: real)
  datatype Point2D = Point2D(x: real, y: real)

  const ORIGIN: Point3D := Point3D(0.0, 0.0, 0.0)

  /** A JavaFX Bounds: minimum corner and extent on each axis (max = min + extent). */
  datatype Bounds = Bounds(minX: real, minY: real, minZ: real, width: real, height: real, depth: real)

  /** The rotation axes the core uses (Rotate.X_AXIS, Y_AXIS, Z_AXIS). */
  datatype Axis = XAxis | YAxis | ZAxis

  /** A javafx.scene.transform.Rotate about the origin of its node. */
  datatype Rotate = Rotate(angle: real, axis: Axis)

  /** A javafx.scene.shape.Ellipse: centre and the two radii. */
  datatype Ellipse = Ellipse(centerX: real, centerY: real, radiusX: real, radiusY: real)

  function Add(a: Point3D, b: Point3D): (s: Point3D)
  {
    Point3D(a.x + b.x, a.y + b.y, a.z + b.z)
  }

  function Neg(a: Point3D): (n: Point3D)
  {
    Point3D(-a.x, -a.y, -a.z)
  }

  function Dot(a: Point3D, b: Point3D): (d: real)
  {
    a.x * b.x + a.y * b.y + a.z * b.z
  }

  /** Squared Euclidean length: the square of Point3D.distance from the origin. */
  function NormSq(a: Point3D): (n: real)
  {
    Dot(a, a)
  }

  /** A 3x3 matrix given by its rows. */
  datatype Mat3 = Mat3(row0: Point3D, row1: Point3D, row2: Point3D)

  const IDENTITY3: Mat3 :=
    Mat3(Point3D(1.0, 0.0, 0.0), Point3D(0.0, 1.0, 0.0), Point3D(0.0, 0.0, 1.0))

  function Apply(m: Mat3, v: Point3D): (w: Point3D)
  {
    Point3D(Dot(m.row0, v), Dot(m.row1, v), Dot(m.row2, v))
  }

  function Col(m: Mat3, j: nat): (c: Point3D)
    requires j < 3
  {
    if j == 0 then Point3D(m.row0.x, m.row1.x, m.row2.x)
    else if j == 1 then Point3D(m.row0.y, m.row1.y, m.row2.y)
    else Point3D(m.row0.z, m.row1.z, m.row2.z)
  }

  function Mul(a: Mat3, b: Mat3): (p: Mat3)
  {
    Mat3(Point3D(Dot(a.row0, Col(b, 0)), Dot(a.row0, Col(b, 1)), Dot(a.row0, Col(b, 2))),
         Point3D(Dot(a.row1, Col(b, 0)), Dot(a.row1, Col(b, 1)), Dot(a.row1, Col(b, 2))),
         Point3D(Dot(a.row2, Col(b, 0)), Dot(a.row2, Col(b, 1)), Dot(a.row2, Col(b, 2))))
  }

  /**
   * A javafx.scene.transform.Affine: p is mapped to linear * p + translation.
   */
  datatype Affine = Affine(linear: Mat3, translation: Point3D)

  const IDENTITY: Affine := Affine(IDENTITY3, ORIGIN)

  /** Affine.transform(p). */
  function Transform(a: Affine, p: Point3D): (q: Point3D)
  {
    Add(Apply(a.linear, p), a.translation)
  }

  /** The matrix-vector product distributes over addition. */
  lemma ApplyAdd(m: Mat3, u: Point3D, v: Point3D)
    ensures Apply(m, Add(u, v)) == Add(Apply(m, u), Apply(m, v))
  {
  }

  /** Multiplying by a product of matrices is multiplying by each in turn. */
  lemma ApplyMul(a: Mat3, b: Mat3, v: Point3D)
    ensures Apply(Mul(a, b), v) == Apply(a, Apply(b, v))
  {
  }

  /**
   * Affine.appendTranslation(d): the translation is applied first, in the
   * pose's own coordinates.
   */
  function AppendTranslation(a: Affine, d: Point3D): (r: Affine)
    ensures r.linear == a.linear
    ensures forall p :: Transform(r, p) == Transform(a, Add(d, p))
  {
    forall p ensures Transform(Affine(a.linear, Add(a.translation, Apply(a.linear, d))), p)
                     == Transform(a, Add(d, p)) {
      ApplyAdd(a.linear, d, p);
    }
    Affine(a.linear, Add(a.translation, Apply(a.linear, d)))
  }

  /**
   * Affine.appendRotation(angle, pivot, axis), with the rotation matrix r of
   * that angle and axis: the point pivot + q is sent to where the pose sent
   * pivot + r * q, so the pivot itself stays where it was.
   */
  function AppendRotation(a: Affine, r: Mat3, pivot: Point3D): (res: Affine)
    ensures res.linear == Mul(a.linear, r)
    ensures forall q :: Transform(res, Add(pivot, q)) == Transform(a, Add(pivot, Apply(r, q)))
  {
    var res := Affine(Mul(a.linear, r),
                      Add(Add(a.translation, Apply(a.linear, pivot)), Neg(Apply(Mul(a.linear, r), pivot))));
    forall q ensures Transform(res, Add(pivot, q)) == Transform(a, Add(pivot, Apply(r, q))) {
      ApplyMul(a.linear, r, pivot);
      ApplyMul(a.linear, r, q);
      ApplyAdd(Mul(a.linear, r), pivot, q);
      ApplyAdd(a.linear, pivot, Apply(r, q));
    }
    res
  }

  /** Affine.append(b): b is applied first, then this pose. */
  function Append(a: Affine, b: Affine): (r: Affine)
    ensures forall p :: Transform(r, p) == Transform(a, Transform(b, p))
  {
    var r := Affine(Mul(a.linear, b.linear), Add(a.translation, Apply(a.linear, b.translation)));
    forall p ensures Transform(r, p) == Transform(a, Transform(b, p)) {
      ApplyMul(a.linear, b.linear, p);
      ApplyAdd(a.linear, Apply(b.linear, p), b.translation);
    }
    r
  }

  /** A rotation appended about a pivot leaves the image of the pivot fixed. */
  lemma RotationFixesPivot(a: Affine, r: Mat3, pivot: Point3D)
    ensures Transform(AppendRotation(a, r, pivot), pivot) == Transform(a, pivot)
  {
    assert Add(pivot, ORIGIN) == pivot;
    assert Apply(r, ORIGIN) == ORIGIN;
  }

  /** Translating by d and then by -d restores the pose. */
  lemma TranslationUndone(a: Affine, d: Point3D)
    ensures AppendTranslation(AppendTranslation(a, d), Neg(d)) == a
  {
    ApplyAdd(a.linear, d, Neg(d));
    assert Add(d, Neg(d)) == ORIGIN;
  }

  /** Identity.append(b) is b. */
  lemma AppendIdentity(b: Affine)
    ensures Append(IDENTITY, b) == b
  {
  }
}
