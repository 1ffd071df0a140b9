// util/CoordinateHelper: the centre of a (possibly null) bounding box.
module CoordinateHelper {
  import opened Wrappers
  import opened Geometry

  /**
   * centerOfBounds: a null box has its centre at the origin; otherwise the
   * centre is equally far from the minimum and the maximum on every axis.
   */
  function CenterOfBounds(b: Option<Bounds>): (c: Point3D)
    ensures b.None? ==> c == ORIGIN
    ensures b.Some? ==> c.x - b.value.minX == (b.value.minX + b.value.width) - c.x
    ensures b.Some? ==> c.y - b.value.minY == (b.value.minY + b.value.height) - c.y
    ensures b.Some? ==> c.z - b.value.minZ == (b.value.minZ + b.value.depth) - c.z
  {
    match b
    case None => ORIGIN
    case Some(bb) => Point3D(bb.minX + bb.width / 2.0, bb.minY + bb.height / 2.0, bb.minZ + bb.depth / 2.0)
  }

  /** centerOfBounds2D: the same centre, on the x and y axes only. */
  function CenterOfBounds2D(b: Option<Bounds>): (c: Point2D)
    ensures b.None? ==> c == Point2D(0.0, 0.0)
    ensures b.Some? ==> c.x - b.value.minX == (b.value.minX + b.value.width) - c.x
    ensures b.Some? ==> c.y - b.value.minY == (b.value.minY + b.value.height) - c.y
  {
    match b
    case None => Point2D(0.0, 0.0)
    case Some(bb) => Point2D(bb.minX + bb.width / 2.0, bb.minY + bb.height / 2.0)
  }

  /** The 2D centre is the 3D centre seen from the z axis. */
  lemma CenterOfBounds2DIsProjection(b: Option<Bounds>)
    ensures CenterOfBounds2D(b) == Point2D(CenterOfBounds(b).x, CenterOfBounds(b).y)
  {
  }

  /** For a box of non-negative extent, the centre lies inside the box. */
  lemma CenterInsideBounds(bb: Bounds)
    requires bb.width >= 0.0 && bb.height >= 0.0 && bb.depth >= 0.0
    ensures var c := CenterOfBounds(Some(bb));
      bb.minX <= c.x <= bb.minX + bb.width &&
      bb.minY <= c.y <= bb.minY + bb.height &&
      bb.minZ <= c.z <= bb.minZ + bb.depth
  {
  }
}
