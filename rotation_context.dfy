// util/RotationContext: the camera's rotation angles and its pivot, which
// is either a fixed point or the live centre of a chosen sphere.
module Rotation {
  import opened Wrappers
  import opened Geometry
  import opened SceneGraph
  import CoordinateHelper

  class RotationContext {
    /** The angles a drag starts from; nothing in the viewer ever changes them. */
    const anchorAngleX: real
    const anchorAngleY: real
    const anchorAngleZ: real

    var angleX: real
    var angleY: real
    var angleZ: real

    var pivotX: real
    var pivotY: real
    var pivotZ: real
    /** The pivot sphere, or null for a fixed pivot point. */
    var pivot: Shape3D?

    /** All angles and the pivot start at zero, without a pivot sphere. */
    constructor()
      ensures anchorAngleX == 0.0 && anchorAngleY == 0.0 && anchorAngleZ == 0.0
      ensures angleX == 0.0 && angleY == 0.0 && angleZ == 0.0
      ensures pivotX == 0.0 && pivotY == 0.0 && pivotZ == 0.0 && pivot == null
    {
      anchorAngleX, anchorAngleY, anchorAngleZ := 0.0, 0.0, 0.0;
      angleX, angleY, angleZ := 0.0, 0.0, 0.0;
      pivotX, pivotY, pivotZ := 0.0, 0.0, 0.0;
      pivot := null;
    }

    /** setAngle: all three angles. */
    method SetAngle(x: real, y: real, z: real)
      modifies this
      ensures angleX == x && angleY == y && angleZ == z
      ensures pivotX == old(pivotX) && pivotY == old(pivotY) && pivotZ == old(pivotZ) && pivot == old(pivot)
    {
      angleX, angleY, angleZ := x, y, z;
    }

    /** setAngleX: that angle only. */
    method SetAngleX(x: real)
      modifies this
      ensures angleX == x && angleY == old(angleY) && angleZ == old(angleZ)
      ensures pivotX == old(pivotX) && pivotY == old(pivotY) && pivotZ == old(pivotZ) && pivot == old(pivot)
    {
      angleX := x;
    }

    /** setAngleY: that angle only. */
    method SetAngleY(y: real)
      modifies this
      ensures angleY == y && angleX == old(angleX) && angleZ == old(angleZ)
      ensures pivotX == old(pivotX) && pivotY == old(pivotY) && pivotZ == old(pivotZ) && pivot == old(pivot)
    {
      angleY := y;
    }

    /** setAngleZ: that angle only. */
    method SetAngleZ(z: real)
      modifies this
      ensures angleZ == z && angleX == old(angleX) && angleY == old(angleY)
      ensures pivotX == old(pivotX) && pivotY == old(pivotY) && pivotZ == old(pivotZ) && pivot == old(pivot)
    {
      angleZ := z;
    }

    /** setPivot(x, y, z): the pivot coordinates; the pivot sphere is kept. */
    method SetPivotCoordinates(x: real, y: real, z: real)
      modifies this
      ensures pivotX == x && pivotY == y && pivotZ == z && pivot == old(pivot)
      ensures angleX == old(angleX) && angleY == old(angleY) && angleZ == old(angleZ)
    {
      pivotX, pivotY, pivotZ := x, y, z;
    }

    /** setPivot(Point3D): the point's coordinates, or the origin for null. */
    method SetPivotPoint(p: Option<Point3D>)
      modifies this
      ensures p.None? ==> pivotX == 0.0 && pivotY == 0.0 && pivotZ == 0.0
      ensures p.Some? ==> pivotX == p.value.x && pivotY == p.value.y && pivotZ == p.value.z
      ensures pivot == old(pivot)
      ensures angleX == old(angleX) && angleY == old(angleY) && angleZ == old(angleZ)
    {
      if p.None? {
        SetPivotCoordinates(0.0, 0.0, 0.0);
      } else {
        SetPivotCoordinates(p.value.x, p.value.y, p.value.z);
      }
    }

    /**
     * setPivot(Sphere): the sphere becomes the pivot; the coordinates
     * become the centre of its scene bounds (`sceneBounds`, as JavaFX
     * measures them now), or the origin for null.
     */
    method SetPivotSphere(s: Shape3D?, sceneBounds: Shape3D -> Bounds)
      modifies this
      ensures pivot == s
      ensures s == null ==> pivotX == 0.0 && pivotY == 0.0 && pivotZ == 0.0
      ensures s != null ==> Point3D(pivotX, pivotY, pivotZ) == CoordinateHelper.CenterOfBounds(Some(sceneBounds(s)))
      ensures angleX == old(angleX) && angleY == old(angleY) && angleZ == old(angleZ)
    {
      pivot := s;
      if s == null {
        SetPivotCoordinates(0.0, 0.0, 0.0);
        return;
      }
      var p := CoordinateHelper.CenterOfBounds(Some(sceneBounds(s)));
      SetPivotCoordinates(p.x, p.y, p.z);
    }

    /**
     * getPivot: with a pivot sphere, the centre of its current scene bounds
     * (`sceneBounds` gives the bounds JavaFX reports now); otherwise the
     * stored coordinates.
     */
    function Pivot(sceneBounds: Shape3D -> Bounds): (p: Point3D)
      reads this
      ensures pivot == null ==> p == Point3D(pivotX, pivotY, pivotZ)
      ensures pivot != null ==>
        p.x - sceneBounds(pivot).minX == sceneBounds(pivot).minX + sceneBounds(pivot).width - p.x &&
        p.y - sceneBounds(pivot).minY == sceneBounds(pivot).minY + sceneBounds(pivot).height - p.y &&
        p.z - sceneBounds(pivot).minZ == sceneBounds(pivot).minZ + sceneBounds(pivot).depth - p.z
    {
      if pivot != null then CoordinateHelper.CenterOfBounds(Some(sceneBounds(pivot)))
      else Point3D(pivotX, pivotY, pivotZ)
    }

    /** getPivotX: the x coordinate of getPivot. */
    function PivotX(sceneBounds: Shape3D -> Bounds): (x: real)
      reads this
      ensures x == Pivot(sceneBounds).x
    {
      if pivot != null then CoordinateHelper.CenterOfBounds(Some(sceneBounds(pivot))).x else pivotX
    }

    /** getPivotY: the y coordinate of getPivot. */
    function PivotY(sceneBounds: Shape3D -> Bounds): (y: real)
      reads this
      ensures y == Pivot(sceneBounds).y
    {
      if pivot != null then CoordinateHelper.CenterOfBounds(Some(sceneBounds(pivot))).y else pivotY
    }

    /** getPivotZ: the z coordinate of getPivot. */
    function PivotZ(sceneBounds: Shape3D -> Bounds): (z: real)
      reads this
      ensures z == Pivot(sceneBounds).z
    {
      if pivot != null then CoordinateHelper.CenterOfBounds(Some(sceneBounds(pivot))).z else pivotZ
    }
  }

  /**
   * Right after setPivot(sphere), and for as long as the sphere has not
   * moved, the live pivot and the stored coordinates agree.
   */
  lemma StoredPivotIsLivePivot(rc: RotationContext, sceneBounds: Shape3D -> Bounds)
    requires rc.pivot != null
    requires Point3D(rc.pivotX, rc.pivotY, rc.pivotZ) == CoordinateHelper.CenterOfBounds(Some(sceneBounds(rc.pivot)))
    ensures rc.Pivot(sceneBounds) == Point3D(rc.pivotX, rc.pivotY, rc.pivotZ)
  {
  }
}
