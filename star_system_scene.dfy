// application/StarSystemScene: the scene of one star system. It sizes the
// sub-scene to the window and picks the sphere a mouse click hits.
module StarSystem {
  import opened Geometry
  import opened SceneGraph
  import CameraControl

  /** Double.MAX_VALUE, exactly: (2 - 2^-52) * 2^1023. */
  const DOUBLE_MAX: real := 179769313486231570814527423731704356798070567525844996598917476803157260780028538760589558632766878171540458953514382464234321326889464182768467546703537516986049910576551282076245490090389328944075868508455133942304583236903222948165808559332123348274797826204144723168738177180919299881250404026184124858368.0

  /** The window holding the scene: its size and its minimum size. */
  class Stage {
    var height: real
    var width: real
    var minHeight: real
    var minWidth: real

    constructor(height: real, width: real)
      ensures this.height == height && this.width == width
      ensures minHeight == 0.0 && minWidth == 0.0
    {
      this.height := height;
      this.width := width;
      minHeight := 0.0;
      minWidth := 0.0;
    }
  }

  /**
   * center: once the window has a size, the window decorations are
   * measured (only while still unmeasured, i.e. zero), the window's minimum
   * size becomes the preferred minimum plus the decorations, and the
   * sub-scene takes the window size less the decorations.
   */
  method Center(scene: CameraControl.SmartScene, stage: Stage)
    modifies scene, stage
    ensures stage.height == old(stage.height) && stage.width == old(stage.width)
    ensures scene.cameraTransform == old(scene.cameraTransform) && scene.cameraMode == old(scene.cameraMode)
    ensures !(stage.height > 0.0 && stage.width > 0.0) ==>
      scene.borderHeight == old(scene.borderHeight) && scene.borderWidth == old(scene.borderWidth) &&
      scene.height == old(scene.height) && scene.width == old(scene.width) &&
      stage.minHeight == old(stage.minHeight) && stage.minWidth == old(stage.minWidth)
    ensures stage.height > 0.0 && stage.width > 0.0 ==>
      scene.height == stage.height - scene.borderHeight && scene.width == stage.width - scene.borderWidth
    ensures stage.height > 0.0 && stage.width > 0.0 && old(scene.borderHeight) == 0.0 ==>
      scene.borderHeight == stage.height - old(scene.height) &&
      stage.minHeight == CameraControl.PREF_MIN_HEIGHT + scene.borderHeight
    ensures stage.height > 0.0 && stage.width > 0.0 && old(scene.borderHeight) != 0.0 ==>
      scene.borderHeight == old(scene.borderHeight) && stage.minHeight == old(stage.minHeight)
    ensures stage.height > 0.0 && stage.width > 0.0 && old(scene.borderWidth) == 0.0 ==>
      scene.borderWidth == stage.width - old(scene.width) &&
      stage.minWidth == CameraControl.PREF_MIN_WIDTH + scene.borderWidth
    ensures stage.height > 0.0 && stage.width > 0.0 && old(scene.borderWidth) != 0.0 ==>
      scene.borderWidth == old(scene.borderWidth) && stage.minWidth == old(stage.minWidth)
  {
    var sceneHeight := scene.height;
    var sceneWidth := scene.width;
    var stageHeight := stage.height;
    var stageWidth := stage.width;
    if stageHeight > 0.0 && stageWidth > 0.0 {
      if scene.borderHeight == 0.0 {
        scene.borderHeight := stageHeight - sceneHeight;
        stage.minHeight := CameraControl.PREF_MIN_HEIGHT + scene.borderHeight;
      }
      if scene.borderWidth == 0.0 {
        scene.borderWidth := stageWidth - sceneWidth;
        stage.minWidth := CameraControl.PREF_MIN_WIDTH + scene.borderWidth;
      }
      scene.height := stageHeight - scene.borderHeight;
      scene.width := stageWidth - scene.borderWidth;
    }
  }

  /**
   * What JavaFX measures for each visual delegate of a click: the angle
   * between the view direction and the sphere's centre, the sphere's
   * bounds on screen, and the camera's distance to the sphere's centre.
   */
  datatype PickHost = PickHost(angle: Shape3D -> real, screenBounds: Shape3D -> Bounds, distance: Shape3D -> real)

  /** The point lies in the bounds' x/y rectangle, edges included. */
  predicate OnScreen(b: Bounds, p: Point2D)
  {
    b.minX <= p.x <= b.minX + b.width && b.minY <= p.y <= b.minY + b.height
  }

  /**
   * A sphere the click may select: inside the field of view, under the
   * point, and nearer than the initial distance Double.MAX_VALUE.
   */
  predicate Hit(s: Shape3D, fieldOfView: real, p: Point2D, view: PickHost)
  {
    view.angle(s) < fieldOfView && OnScreen(view.screenBounds(s), p) && view.distance(s) < DOUBLE_MAX
  }

  /**
   * Index k selects among the first n delegates: it is a hit, no hit is
   * nearer, and every earlier hit is strictly farther.
   */
  predicate Selects(delegates: seq<Shape3D>, n: nat, k: int, fieldOfView: real, p: Point2D, view: PickHost)
    requires n <= |delegates|
  {
    0 <= k < n && Hit(delegates[k], fieldOfView, p, view) &&
    (forall j :: 0 <= j < n && Hit(delegates[j], fieldOfView, p, view) ==>
       view.distance(delegates[k]) <= view.distance(delegates[j])) &&
    (forall j :: 0 <= j < k && Hit(delegates[j], fieldOfView, p, view) ==>
       view.distance(delegates[k]) < view.distance(delegates[j]))
  }

  /** At most one index selects: the selection is determined by the delegates. */
  lemma SelectionUnique(delegates: seq<Shape3D>, n: nat, k1: int, k2: int, fieldOfView: real, p: Point2D, view: PickHost)
    requires n <= |delegates|
    requires Selects(delegates, n, k1, fieldOfView, p, view) && Selects(delegates, n, k2, fieldOfView, p, view)
    ensures k1 == k2
  {
  }

  /**
   * traverseNodes: the sphere a click at the screen point selects, or null
   * when no visual delegate is a hit. Among the hits the nearest wins and,
   * the comparison being strict, the first of equally near ones.
   */
  method TraverseNodes(delegates: seq<Shape3D>, fieldOfView: real, screenPoint: Point2D, view: PickHost)
    returns (sphere: Shape3D?)
    ensures sphere == null <==> forall i :: 0 <= i < |delegates| ==> !Hit(delegates[i], fieldOfView, screenPoint, view)
    ensures sphere != null ==>
      exists k :: Selects(delegates, |delegates|, k, fieldOfView, screenPoint, view) && delegates[k] == sphere
  {
    sphere := null;
    var distance := DOUBLE_MAX;
    ghost var k := -1;
    for i := 0 to |delegates|
      invariant sphere == null <==> forall j :: 0 <= j < i ==> !Hit(delegates[j], fieldOfView, screenPoint, view)
      invariant sphere == null ==> k == -1 && distance == DOUBLE_MAX
      invariant sphere != null ==>
        Selects(delegates, i, k, fieldOfView, screenPoint, view) && delegates[k] == sphere &&
        distance == view.distance(sphere)
    {
      var s := delegates[i];
      var angle := view.angle(s);
      var screenBounds := view.screenBounds(s);
      if angle < fieldOfView {
        if screenPoint.x >= screenBounds.minX && screenPoint.x <= screenBounds.minX + screenBounds.width
          && screenPoint.y >= screenBounds.minY && screenPoint.y <= screenBounds.minY + screenBounds.height
        {
          if view.distance(s) < distance {
            distance := view.distance(s);
            sphere := s;
            k := i;
          }
        }
      }
    }
  }
}
