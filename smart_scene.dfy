// util/SmartScene: the camera controller. The camera's pose is an affine
// transform that rotations and translations are appended to; a free camera
// turns about a pivot point, a chase camera rides in the pane of a chosen
// sphere and turns about it; translations that would leave the sky box are
// refused.
module CameraControl {
  import opened Wrappers
  import opened Geometry
  import opened SceneGraph
  import opened Rotation
  import opened Translation

  datatype CameraMode = FreeCam | ChaseCam

  const CAMERA_ROTATE_SCALE: real := 0.1
  const PREF_MIN_WIDTH: real := 800.0
  const PREF_MIN_HEIGHT: real := 700.0
  const SKYBOX_SIZE: real := 100000.0
  const FARCLIP: real := SKYBOX_SIZE * 2.0
  /** The farthest the camera may be translated from the scene origin. */
  const MAX_ZOOM: real := SKYBOX_SIZE / 3.0

  /**
   * What JavaFX measures for the controller: the matrix of a rotation by an
   * angle (in degrees) about an axis; a sphere's bounds in scene
   * coordinates; the distance from the camera, placed by a pose, to a
   * point (camPosition().distance(p)); and the camera's local-to-scene
   * transform for a pose.
   */
  datatype SceneHost = SceneHost(rotation: (real, Axis) -> Mat3,
                                 sceneBounds: Shape3D -> Bounds,
                                 camDistance: (Affine, Point3D) -> real,
                                 localToScene: Affine -> Affine)

  /** The rotation rotate() appends for one axis: none for a zero angle. */
  function AxisTurn(rotation: (real, Axis) -> Mat3, angle: real, axis: Axis): (m: Mat3)
    ensures angle == 0.0 ==> m == IDENTITY3
  {
    if angle == 0.0 then IDENTITY3 else rotation(angle, axis)
  }

  /** Multiplying by the identity changes nothing. */
  lemma MulIdentity(a: Mat3)
    ensures Mul(a, IDENTITY3) == a
  {
  }

  /**
   * The orientation after rotate(pivot, aX, aY, aZ): the X, then the Y,
   * then the Z rotation appended to the linear part.
   */
  function Turned(linear: Mat3, rotation: (real, Axis) -> Mat3, aX: real, aY: real, aZ: real): Mat3
  {
    Mul(Mul(Mul(linear, AxisTurn(rotation, aX, XAxis)), AxisTurn(rotation, aY, YAxis)), AxisTurn(rotation, aZ, ZAxis))
  }

  /** Turning by three zero angles keeps the orientation. */
  lemma {:induction false} TurnedByNothing(linear: Mat3, rotation: (real, Axis) -> Mat3)
    ensures Turned(linear, rotation, 0.0, 0.0, 0.0) == linear
  {
    MulIdentity(linear);
  }

  /** The orientation after freeCamRotate(p, dX, dY, dZ). */
  function FreeTurned(linear: Mat3, rotation: (real, Axis) -> Mat3, dX: real, dY: real, dZ: real): Mat3
  {
    Turned(linear, rotation, -dY * CAMERA_ROTATE_SCALE, dX * CAMERA_ROTATE_SCALE, dZ * CAMERA_ROTATE_SCALE)
  }

  /**
   * The point cameraRotate(p, ...) keeps in place: the pivot p itself for
   * a free camera; for a chase camera the point ahead of the camera at
   * its distance to p, which the camera circles.
   */
  ghost predicate TurnCentreKept(mode: CameraMode, before: Affine, after: Affine, p: Point3D, host: SceneHost)
  {
    (mode == FreeCam ==> Transform(after, p) == Transform(before, p)) &&
    (mode == ChaseCam ==>
       var ahead := Point3D(0.0, 0.0, host.camDistance(before, p));
       Transform(after, ahead) == Transform(before, ahead))
  }

  /** A pose is determined by its linear part and the image of any one point. */
  lemma PoseDeterminedByPoint(a: Affine, b: Affine, p: Point3D)
    requires a.linear == b.linear && Transform(a, p) == Transform(b, p)
    ensures a == b
  {
  }

  /** The camera origin, placed by the pose, lies within MAX_ZOOM of the scene origin. */
  predicate WithinSkyBox(pose: Affine)
  {
    NormSq(Transform(pose, ORIGIN)) <= MAX_ZOOM * MAX_ZOOM
  }

  /** The pose translate leaves: the translated pose if it stays within the sky box, else the pose itself. */
  function Clamped(pose: Affine, d: Point3D): (next: Affine)
    ensures next == pose || next == AppendTranslation(pose, d)
    ensures WithinSkyBox(pose) ==> WithinSkyBox(next)
  {
    if WithinSkyBox(AppendTranslation(pose, d)) then AppendTranslation(pose, d) else pose
  }

  /**
   * The zoom step of the mouse wheel: deltaY * 25, or deltaX * 5 with
   * shift, or deltaY * 0.2 with control (control wins over shift).
   */
  function ScrollDelta(deltaX: real, deltaY: real, shiftDown: bool, controlDown: bool): (d: real)
    ensures controlDown ==> d == deltaY * 0.2
    ensures !controlDown && shiftDown ==> d == deltaX * 5.0
    ensures !controlDown && !shiftDown ==> d == deltaY * 25.0
  {
    var (delta, multiplier) :=
      if controlDown then (deltaY, 0.2)
      else if shiftDown then (deltaX, 5.0)
      else (deltaY, 25.0);
    delta * multiplier
  }

  /** The keys the key handler turns the camera with; every other key is Other. */
  datatype Key = W | S | Q | E | A | D | Other

  /** The (dX, dY, dZ) a key press hands to cameraRotate, if any: ten degrees about one axis. */
  function KeyTurn(key: Key): (t: Option<(real, real, real)>)
    ensures t.None? <==> key == Other
    ensures t.Some? ==>
      var (dX, dY, dZ) := t.value;
      (dX == 0.0 && dY == 0.0 && (dZ == 10.0 || dZ == -10.0)) ||
      (dX == 0.0 && dZ == 0.0 && (dY == 10.0 || dY == -10.0)) ||
      (dY == 0.0 && dZ == 0.0 && (dX == 10.0 || dX == -10.0))
  {
    match key
    case W => Some((0.0, -10.0, 0.0))
    case S => Some((0.0, 10.0, 0.0))
    case Q => Some((0.0, 0.0, -10.0))
    case E => Some((0.0, 0.0, 10.0))
    case A => Some((-10.0, 0.0, 0.0))
    case D => Some((10.0, 0.0, 0.0))
    case Other => None
  }

  class SmartScene {
    var cameraTransform: Affine
    var cameraMode: CameraMode
    const rotationContext: RotationContext
    const translateContext: TranslateContext
    const camera: Camera
    /** The window decorations, measured once by center(). */
    var borderHeight: real
    var borderWidth: real
    /** The sub-scene's size. */
    var width: real
    var height: real

    /** A free camera at the identity pose, in a sub-scene of the preferred size. */
    constructor(camera: Camera)
      ensures this.camera == camera && cameraTransform == IDENTITY && cameraMode == FreeCam
      ensures fresh(rotationContext) && fresh(translateContext)
      ensures rotationContext.pivot == null
      ensures borderHeight == 0.0 && borderWidth == 0.0
      ensures width == PREF_MIN_WIDTH && height == PREF_MIN_HEIGHT
    {
      this.camera := camera;
      cameraTransform := IDENTITY;
      cameraMode := FreeCam;
      rotationContext := new RotationContext();
      translateContext := new TranslateContext();
      borderHeight := 0.0;
      borderWidth := 0.0;
      width := PREF_MIN_WIDTH;
      height := PREF_MIN_HEIGHT;
    }

    /** The pane of the pivot sphere, which holds the camera in chase mode. */
    function PivotPane(): set<object>
      reads this, rotationContext
    {
      if rotationContext.pivot != null then {rotationContext.pivot.parent} else {}
    }

    /**
     * rotate: the X, Y and Z rotations about the pivot, each appended only
     * for a nonzero angle. The pivot's image stays where it was.
     */
    method Rotate(pivot: Point3D, dX: real, dY: real, dZ: real, host: SceneHost)
      modifies this
      ensures cameraTransform.linear == Turned(old(cameraTransform).linear, host.rotation, dX, dY, dZ)
      ensures Transform(cameraTransform, pivot) == Transform(old(cameraTransform), pivot)
      ensures cameraMode == old(cameraMode)
    {
      if dX != 0.0 {
        RotationFixesPivot(cameraTransform, host.rotation(dX, XAxis), pivot);
        cameraTransform := AppendRotation(cameraTransform, host.rotation(dX, XAxis), pivot);
      } else {
        MulIdentity(cameraTransform.linear);
      }
      if dY != 0.0 {
        RotationFixesPivot(cameraTransform, host.rotation(dY, YAxis), pivot);
        cameraTransform := AppendRotation(cameraTransform, host.rotation(dY, YAxis), pivot);
      } else {
        MulIdentity(cameraTransform.linear);
      }
      if dZ != 0.0 {
        RotationFixesPivot(cameraTransform, host.rotation(dZ, ZAxis), pivot);
        cameraTransform := AppendRotation(cameraTransform, host.rotation(dZ, ZAxis), pivot);
      } else {
        MulIdentity(cameraTransform.linear);
      }
    }

    /** freeCamRotate: a mouse move (dX, dY) turns about the Y and X axes, scaled by 0.1. */
    method FreeCamRotate(p: Point3D, dX: real, dY: real, dZ: real, host: SceneHost)
      modifies this
      ensures cameraTransform.linear == FreeTurned(old(cameraTransform).linear, host.rotation, dX, dY, dZ)
      ensures Transform(cameraTransform, p) == Transform(old(cameraTransform), p)
      ensures cameraMode == old(cameraMode)
    {
      Rotate(p, -dY * CAMERA_ROTATE_SCALE, dX * CAMERA_ROTATE_SCALE, dZ * CAMERA_ROTATE_SCALE, host);
    }

    /**
     * chaseCamRotate: move forward by the camera's distance d to p, turn
     * about the camera, move back by d. The point d ahead of the camera
     * stays where it was, so the camera circles it.
     */
    method ChaseCamRotate(p: Point3D, dX: real, dY: real, dZ: real, host: SceneHost)
      modifies this
      ensures cameraTransform.linear == FreeTurned(old(cameraTransform).linear, host.rotation, dX, dY, dZ)
      ensures var ahead := Point3D(0.0, 0.0, host.camDistance(old(cameraTransform), p));
        Transform(cameraTransform, ahead) == Transform(old(cameraTransform), ahead)
      ensures cameraMode == old(cameraMode)
    {
      var distance := host.camDistance(cameraTransform, p);
      var ahead := Point3D(0.0, 0.0, distance);
      ghost var start := cameraTransform;
      TranslateNoConstraint(ahead);
      assert Add(ahead, ORIGIN) == ahead;
      FreeCamRotate(ORIGIN, dX, dY, dZ, host);
      ghost var turned := cameraTransform;
      TranslateNoConstraint(Neg(ahead));
      assert Add(Neg(ahead), ahead) == ORIGIN;
      assert Transform(cameraTransform, ahead) == Transform(turned, ORIGIN);
    }

    /** cameraRotate: free or chase rotation, by the camera mode. */
    method CameraRotate(p: Point3D, dX: real, dY: real, dZ: real, host: SceneHost)
      modifies this
      ensures cameraTransform.linear == FreeTurned(old(cameraTransform).linear, host.rotation, dX, dY, dZ)
      ensures TurnCentreKept(old(cameraMode), old(cameraTransform), cameraTransform, p, host)
      ensures cameraMode == old(cameraMode)
    {
      if cameraMode == FreeCam {
        FreeCamRotate(p, dX, dY, dZ, host);
      }
      if cameraMode == ChaseCam {
        ChaseCamRotate(p, dX, dY, dZ, host);
      }
    }

    /**
     * checkClipDistance: whether the camera, translated by d, stays within
     * MAX_ZOOM of the scene origin (distances compared by their squares).
     */
    function CheckClipDistance(d: Point3D): (ok: bool)
      reads this
      ensures ok <==> NormSq(Add(cameraTransform.translation, Apply(cameraTransform.linear, d))) <= MAX_ZOOM * MAX_ZOOM
    {
      var checkPoint := Transform(AppendTranslation(cameraTransform, d), ORIGIN);
      assert checkPoint == Transform(cameraTransform, Add(d, ORIGIN));
      assert Add(d, ORIGIN) == d;
      !(NormSq(checkPoint) > MAX_ZOOM * MAX_ZOOM)
    }

    /** translateNoConstraint: the translation, appended unchecked. */
    method TranslateNoConstraint(d: Point3D)
      modifies this
      ensures cameraTransform.linear == old(cameraTransform).linear
      ensures forall q :: Transform(cameraTransform, q) == Transform(old(cameraTransform), Add(d, q))
      ensures cameraMode == old(cameraMode)
    {
      cameraTransform := AppendTranslation(cameraTransform, d);
    }

    /**
     * translate: the translation is appended only if the camera then stays
     * within the sky box; otherwise the pose is kept. A camera inside the
     * sky box never leaves it by translating.
     */
    method Translate(d: Point3D)
      modifies this
      ensures WithinSkyBox(AppendTranslation(old(cameraTransform), d)) ==>
        cameraTransform == AppendTranslation(old(cameraTransform), d)
      ensures !WithinSkyBox(AppendTranslation(old(cameraTransform), d)) ==> cameraTransform == old(cameraTransform)
      ensures WithinSkyBox(old(cameraTransform)) ==> WithinSkyBox(cameraTransform)
      ensures cameraMode == old(cameraMode)
    {
      if CheckClipDistance(d) == false {
        assert !WithinSkyBox(AppendTranslation(cameraTransform, d)) by {
          assert Add(d, ORIGIN) == d;
        }
        return;
      }
      assert Add(d, ORIGIN) == d;
      cameraTransform := AppendTranslation(cameraTransform, d);
    }

    /** zoom: a translation along the camera's own z axis, the viewing direction. */
    method Zoom(delta: real)
      modifies this
      ensures var d := Point3D(0.0, 0.0, delta);
        (WithinSkyBox(AppendTranslation(old(cameraTransform), d)) ==>
           cameraTransform == AppendTranslation(old(cameraTransform), d)) &&
        (!WithinSkyBox(AppendTranslation(old(cameraTransform), d)) ==> cameraTransform == old(cameraTransform))
      ensures WithinSkyBox(old(cameraTransform)) ==> WithinSkyBox(cameraTransform)
      ensures cameraMode == old(cameraMode)
    {
      Translate(Point3D(0.0, 0.0, delta));
    }

    /** The scroll handler: a zoom by the wheel's delta, scaled by the modifier keys. */
    method OnScroll(deltaX: real, deltaY: real, shiftDown: bool, controlDown: bool)
      modifies this
      ensures var d := Point3D(0.0, 0.0, ScrollDelta(deltaX, deltaY, shiftDown, controlDown));
        (WithinSkyBox(AppendTranslation(old(cameraTransform), d)) ==>
           cameraTransform == AppendTranslation(old(cameraTransform), d)) &&
        (!WithinSkyBox(AppendTranslation(old(cameraTransform), d)) ==> cameraTransform == old(cameraTransform))
      ensures cameraMode == old(cameraMode)
    {
      var delta := ScrollDelta(deltaX, deltaY, shiftDown, controlDown);
      Zoom(delta);
    }

    /**
     * initCameraPosition: from the identity pose, two turns about the
     * origin and a zoom back by 500.
     */
    method InitCameraPosition(host: SceneHost)
      modifies this
      ensures cameraTransform.linear ==
        FreeTurned(FreeTurned(IDENTITY3, host.rotation, 0.0, -800.0, 0.0), host.rotation, 0.0, 1800.0, 0.0)
      ensures cameraMode == old(cameraMode)
    {
      cameraTransform := IDENTITY;
      CameraRotate(ORIGIN, 0.0, -800.0, 0.0, host);
      CameraRotate(ORIGIN, 0.0, 1800.0, 0.0, host);
      ghost var turned := cameraTransform.linear;
      Zoom(-500.0);
      assert cameraTransform.linear == turned;
    }

    /**
     * initChaseCameraPosition: from the identity pose, a turn about the
     * pivot and a zoom back by 200.
     */
    method InitChaseCameraPosition(host: SceneHost)
      modifies this
      ensures cameraTransform.linear == FreeTurned(IDENTITY3, host.rotation, 0.0, 100.0 / CAMERA_ROTATE_SCALE, 0.0)
      ensures cameraMode == old(cameraMode)
    {
      cameraTransform := IDENTITY;
      CameraRotate(rotationContext.Pivot(host.sceneBounds), 0.0, 100.0 / CAMERA_ROTATE_SCALE, 0.0, host);
      ghost var turned := cameraTransform.linear;
      Zoom(-200.0);
      assert cameraTransform.linear == turned;
    }

    /**
     * removeChaseCam: without a pivot sphere nothing happens; otherwise the
     * camera leaves the sphere's pane and its pose becomes the scene
     * transform it had there, so it does not jump.
     */
    method RemoveChaseCam(host: SceneHost) returns (r: Outcome<Exception>)
      modifies this, PivotPane()
      ensures cameraMode == old(cameraMode)
      ensures rotationContext.pivot == null ==> r == Pass && cameraTransform == old(cameraTransform)
      ensures rotationContext.pivot != null ==>
        var pane := rotationContext.pivot.parent;
        (old(pane.children) == [] || !IsSmartSphere(old(pane.children)[0]) ==>
           r.Fail? && cameraTransform == old(cameraTransform) && pane.children == old(pane.children)) &&
        (old(pane.children) != [] && IsSmartSphere(old(pane.children)[0]) ==>
           r == Pass && cameraTransform == host.localToScene(old(cameraTransform)) &&
           pane.children == RemoveFirst(old(pane.children), CameraNode(camera)))
    {
      var pivot := rotationContext.pivot;
      if pivot == null {
        return Pass;
      }
      var localToScene := host.localToScene(cameraTransform);
      r := pivot.parent.RemoveCamera(camera);
      if r.Fail? {
        return;
      }
      AppendIdentity(localToScene);
      cameraTransform := Append(IDENTITY, localToScene);
    }

    /** setChaseCam: the camera joins the pane of the sphere. */
    method SetChaseCam(sphere: Shape3D) returns (r: Outcome<Exception>)
      modifies sphere.parent
      ensures r.Pass? <==> old(sphere.parent.children) != [] && IsSmartSphere(old(sphere.parent.children)[0])
      ensures r.Pass? ==> CameraNode(camera) in sphere.parent.children
      ensures r.Fail? ==> sphere.parent.children == old(sphere.parent.children)
      ensures old(sphere.parent.children) == [] ==> r == Fail(IndexOutOfBoundsException)
      ensures old(sphere.parent.children) != [] && !IsSmartSphere(old(sphere.parent.children)[0]) ==>
        r == Fail(IllegalStateException)
      ensures r.Pass? ==> sphere.parent.children == AddedOnce(old(sphere.parent.children), CameraNode(camera))
    {
      r := sphere.parent.AddCamera(camera);
    }

    /**
     * onMouseClicked: clicking the sphere already chased does nothing;
     * otherwise the camera switches to chase mode, leaves the old pivot's
     * pane, joins the clicked sphere's pane, takes the sphere as pivot and
     * starts from the chase position.
     */
    method OnMouseClicked(sphere: Shape3D, host: SceneHost) returns (r: Outcome<Exception>)
      modifies this, rotationContext, PivotPane(), sphere.parent
      ensures old(rotationContext.pivot) == sphere && old(cameraMode) == ChaseCam ==>
        r == Pass && cameraTransform == old(cameraTransform) && rotationContext.pivot == sphere &&
        cameraMode == ChaseCam
      ensures !(old(rotationContext.pivot) == sphere && old(cameraMode) == ChaseCam) ==> cameraMode == ChaseCam
      ensures !(old(rotationContext.pivot) == sphere && old(cameraMode) == ChaseCam) && r.Pass? ==>
        rotationContext.pivot == sphere && CameraNode(camera) in sphere.parent.children &&
        Point3D(rotationContext.pivotX, rotationContext.pivotY, rotationContext.pivotZ) ==
          CoordinateHelper.CenterOfBounds(Some(host.sceneBounds(sphere))) &&
        cameraTransform.linear == FreeTurned(IDENTITY3, host.rotation, 0.0, 100.0 / CAMERA_ROTATE_SCALE, 0.0)
      ensures !(old(rotationContext.pivot) == sphere && old(cameraMode) == ChaseCam) &&
              old(rotationContext.pivot) != null ==>
        var pane := old(rotationContext.pivot).parent;
        old(pane.children) == [] || !IsSmartSphere(old(pane.children)[0]) ==>
          r.Fail? && cameraTransform == old(cameraTransform) && pane.children == old(pane.children) &&
          rotationContext.pivot == old(rotationContext.pivot)
      ensures !(old(rotationContext.pivot) == sphere && old(cameraMode) == ChaseCam) && r.Pass? ==>
        var left := if old(rotationContext.pivot) != null && old(rotationContext.pivot).parent == sphere.parent
                    then RemoveFirst(old(sphere.parent.children), CameraNode(camera))
                    else old(sphere.parent.children);
        sphere.parent.children == AddedOnce(left, CameraNode(camera))
      ensures !(old(rotationContext.pivot) == sphere && old(cameraMode) == ChaseCam) && r.Pass? &&
              old(rotationContext.pivot) != null && old(rotationContext.pivot).parent != sphere.parent ==>
        var pane := old(rotationContext.pivot).parent;
        pane.children == RemoveFirst(old(pane.children), CameraNode(camera))
    {
      if rotationContext.pivot == sphere && cameraMode == ChaseCam {
        return Pass;
      }
      cameraMode := ChaseCam;
      r := RemoveChaseCam(host);
      if r.Fail? {
        return;
      }
      r := SetChaseCam(sphere);
      if r.Fail? {
        return;
      }
      rotationContext.SetPivotSphere(sphere, host.sceneBounds);
      InitChaseCameraPosition(host);
    }

    /** The mouse-pressed handler: the drag starts here. */
    method OnMousePressed(mouseX: real, mouseY: real)
      modifies translateContext
      ensures translateContext.mouseAnchorX == mouseX && translateContext.mouseAnchorY == mouseY
    {
      translateContext.SetMouseAnchor(mouseX, mouseY);
    }

    /**
     * The drag handler. With the primary button the camera turns by the
     * mouse's move since the anchor; with the secondary button a chase
     * camera first becomes a free camera without a pivot sphere, then the
     * camera is translated against the move. Both restart the anchor.
     */
    method OnMouseDragged(mouseX: real, mouseY: real, primaryDown: bool, secondaryDown: bool, host: SceneHost)
      returns (r: Outcome<Exception>)
      modifies this, rotationContext, translateContext, PivotPane()
      ensures !primaryDown && !secondaryDown ==>
        r == Pass && cameraTransform == old(cameraTransform) && cameraMode == old(cameraMode) &&
        rotationContext.pivot == old(rotationContext.pivot)
      ensures primaryDown ==>
        var dX, dY := mouseX - old(translateContext.mouseAnchorX), mouseY - old(translateContext.mouseAnchorY);
        rotationContext.angleY == rotationContext.anchorAngleY + dX &&
        rotationContext.angleX == rotationContext.anchorAngleX - dY
      ensures primaryDown && !secondaryDown ==>
        var dX, dY := mouseX - old(translateContext.mouseAnchorX), mouseY - old(translateContext.mouseAnchorY);
        r == Pass && cameraMode == old(cameraMode) &&
        cameraTransform.linear == FreeTurned(old(cameraTransform).linear, host.rotation, dX, dY, 0.0)
      ensures primaryDown && !secondaryDown ==>
        TurnCentreKept(old(cameraMode), old(cameraTransform), cameraTransform,
                       old(rotationContext.Pivot(host.sceneBounds)), host)
      ensures secondaryDown && old(cameraMode) == ChaseCam && r.Pass? ==>
        cameraMode == FreeCam && rotationContext.pivot == null
      ensures secondaryDown && old(cameraMode) == FreeCam ==> r == Pass && cameraMode == FreeCam
      ensures !primaryDown && secondaryDown && r.Pass? ==>
        var dX, dY := mouseX - old(translateContext.mouseAnchorX), mouseY - old(translateContext.mouseAnchorY);
        var start := if old(cameraMode) == ChaseCam && old(rotationContext.pivot) != null
                     then host.localToScene(old(cameraTransform)) else old(cameraTransform);
        cameraTransform == Clamped(start, Point3D(-dX, -dY, 0.0))
      ensures (primaryDown || secondaryDown) && r.Pass? ==>
        translateContext.mouseAnchorX == mouseX && translateContext.mouseAnchorY == mouseY
    {
      var dX := mouseX - translateContext.mouseAnchorX;
      var dY := mouseY - translateContext.mouseAnchorY;
      r := Pass;
      if primaryDown {
        PrimaryDrag(mouseX, mouseY, dX, dY, host);
      }
      if secondaryDown {
        r := SecondaryDrag(mouseX, mouseY, dX, dY, host);
      }
    }

    /** The primary-button half of the drag handler: a turn by (dX, dY). */
    method PrimaryDrag(mouseX: real, mouseY: real, dX: real, dY: real, host: SceneHost)
      modifies this, rotationContext, translateContext
      ensures rotationContext.angleY == rotationContext.anchorAngleY + dX
      ensures rotationContext.angleX == rotationContext.anchorAngleX - dY
      ensures rotationContext.pivot == old(rotationContext.pivot)
      ensures translateContext.mouseAnchorX == mouseX && translateContext.mouseAnchorY == mouseY
      ensures cameraMode == old(cameraMode)
      ensures cameraTransform.linear == FreeTurned(old(cameraTransform).linear, host.rotation, dX, dY, 0.0)
      ensures TurnCentreKept(old(cameraMode), old(cameraTransform), cameraTransform,
                             old(rotationContext.Pivot(host.sceneBounds)), host)
    {
      translateContext.SetMouseAnchor(mouseX, mouseY);
      rotationContext.SetAngleY(rotationContext.anchorAngleY + dX);
      rotationContext.SetAngleX(rotationContext.anchorAngleX - dY);
      CameraRotate(rotationContext.Pivot(host.sceneBounds), dX, dY, 0.0, host);
    }

    /**
     * The secondary-button half of the drag handler: leave chase mode if
     * in it, then a translation by (-dX, -dY, 0).
     */
    method SecondaryDrag(mouseX: real, mouseY: real, dX: real, dY: real, host: SceneHost)
      returns (r: Outcome<Exception>)
      modifies this, rotationContext, translateContext, PivotPane()
      ensures rotationContext.angleX == old(rotationContext.angleX)
      ensures rotationContext.angleY == old(rotationContext.angleY)
      ensures old(cameraMode) == FreeCam ==> r == Pass && cameraMode == FreeCam
      ensures old(cameraMode) == ChaseCam && r.Pass? ==> cameraMode == FreeCam && rotationContext.pivot == null
      ensures r.Pass? ==> translateContext.mouseAnchorX == mouseX && translateContext.mouseAnchorY == mouseY
      ensures r.Pass? ==>
        var start := if old(cameraMode) == ChaseCam && old(rotationContext.pivot) != null
                     then host.localToScene(old(cameraTransform)) else old(cameraTransform);
        cameraTransform == Clamped(start, Point3D(-dX, -dY, 0.0))
      ensures r.Fail? ==> cameraTransform == old(cameraTransform)
    {
      r := Pass;
      if cameraMode == ChaseCam {
        r := RemoveChaseCam(host);
        if r.Fail? {
          return;
        }
        rotationContext.SetPivotSphere(null, host.sceneBounds);
        cameraMode := FreeCam;
      }
      Translate(Point3D(-dX, -dY, 0.0));
      translateContext.SetMouseAnchor(mouseX, mouseY);
    }

    /** The key handler: W/S, Q/E and A/D turn the camera by ten degrees. */
    method OnKeyPressed(key: Key, host: SceneHost)
      modifies this
      ensures KeyTurn(key).None? ==> cameraTransform == old(cameraTransform)
      ensures KeyTurn(key).Some? ==>
        var (dX, dY, dZ) := KeyTurn(key).value;
        cameraTransform.linear == FreeTurned(old(cameraTransform).linear, host.rotation, dX, dY, dZ)
      ensures TurnCentreKept(old(cameraMode), old(cameraTransform), cameraTransform,
                             old(rotationContext.Pivot(host.sceneBounds)), host)
      ensures cameraMode == old(cameraMode)
    {
      var pivot := rotationContext.Pivot(host.sceneBounds);
      match key
      case W => CameraRotate(pivot, 0.0, -10.0, 0.0, host);
      case S => CameraRotate(pivot, 0.0, 10.0, 0.0, host);
      case Q => CameraRotate(pivot, 0.0, 0.0, -10.0, host);
      case E => CameraRotate(pivot, 0.0, 0.0, 10.0, host);
      case A => CameraRotate(pivot, -10.0, 0.0, 0.0, host);
      case D => CameraRotate(pivot, 10.0, 0.0, 0.0, host);
      case Other =>
    }
  }
}
