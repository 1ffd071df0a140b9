// The parts of the JavaFX scene graph the core builds and rewires:
// util/SmartPane (a Pane whose first child identifies what it carries),
// the spheres and cylinders that draw the bodies, the ellipses that draw
// the orbits, and the camera.
module SceneGraph {
  import opened Wrappers
  import opened Geometry

  /** The two shapes a body is drawn with: a SmartSphere, or a Cylinder for a ring. */
  datatype ShapeKind = SphereShape | CylinderShape

  /**
   * A child in a pane's child list. Nodes that are objects in JavaFX and
   * that the core mutates afterwards are class references; an orbit's
   * ellipse is never changed once added, so it is a value.
   */
  datatype Node =
    | PaneNode(pane: SmartPane)
    | ShapeNode(shape: Shape3D)
    | CameraNode(camera: Camera)
    | EllipseNode(ellipse: Ellipse, stroked: bool)

  /** instanceof SmartSphere: the node is a sphere shape. */
  predicate IsSmartSphere(n: Node)
  {
    n.ShapeNode? && n.shape.kind == SphereShape
  }

  /** The first occurrence of x removed (java.util.List.remove(Object)). */
  function RemoveFirst(s: seq<Node>, x: Node): (r: seq<Node>)
    ensures x !in s ==> r == s
    ensures x in s ==> |r| == |s| - 1 && multiset(r) == multiset(s) - multiset{x}
  {
    if s == [] then []
    else
      assert s == [s[0]] + s[1..];
      if s[0] == x then s[1..]
      else [s[0]] + RemoveFirst(s[1..], x)
  }

  /**
   * The list after adding `x` at most once: unchanged when `x` is already
   * in it, otherwise `x` at the end.
   */
  function AddedOnce(s: seq<Node>, x: Node): (r: seq<Node>)
    ensures x in r && |s| <= |r| <= |s| + 1 && r[..|s|] == s
    ensures x in s <==> r == s
    ensures x !in s ==> r == s + [x]
  {
    if x in s then s else s + [x]
  }

  /** Removing an element that was appended to a list without it gives the list back. */
  lemma {:induction false} RemoveFirstUndoesAppend(s: seq<Node>, x: Node)
    requires x !in s
    ensures RemoveFirst(s + [x], x) == s
  {
    if s != [] {
      assert (s + [x])[1..] == s[1..] + [x];
      RemoveFirstUndoesAppend(s[1..], x);
    }
  }

  /** The scene's camera; only its place in the scene graph matters here. */
  class Camera {
    constructor()
    {
    }
  }

  /**
   * A drawn body: a SmartSphere (which remembers its body, here by name)
   * or the Cylinder of a ring. The shape sits in its translation pane,
   * `parent`, from creation on. Neither kind ever picks on its bounds.
   */
  class Shape3D {
    const kind: ShapeKind
    const radius: real
    const height: real
    const pickOnBounds: bool
    /** The angle given to applyAxialTilt. */
    const axialTilt: real
    const ownerName: string
    const parent: SmartPane
    var mouseTransparent: bool
    /** The rotate property the rotation timer advances. */
    var rotate: real

    constructor(kind: ShapeKind, radius: real, height: real, axialTilt: real, ownerName: string, parent: SmartPane)
      ensures this.kind == kind && this.radius == radius && this.height == height
      ensures this.axialTilt == axialTilt && this.ownerName == ownerName && this.parent == parent
      ensures !pickOnBounds && !mouseTransparent && rotate == 0.0
    {
      this.kind := kind;
      this.radius := radius;
      this.height := height;
      this.axialTilt := axialTilt;
      this.ownerName := ownerName;
      this.parent := parent;
      pickOnBounds := false;
      mouseTransparent := false;
      rotate := 0.0;
    }
  }

  /** util/SmartPane. */
  class SmartPane {
    var children: seq<Node>
    var transforms: seq<Rotate>
    var mouseTransparent: bool
    const pickOnBounds: bool

    /** A new pane is empty and never picks on its bounds. */
    constructor()
      ensures children == [] && transforms == [] && !mouseTransparent && !pickOnBounds
    {
      children := [];
      transforms := [];
      mouseTransparent := false;
      pickOnBounds := false;
    }

    /**
     * addCamera: only a translation pane (first child a SmartSphere) may
     * carry the camera; the camera is added at most once.
     */
    method AddCamera(camera: Camera) returns (r: Outcome<Exception>)
      modifies this
      ensures transforms == old(transforms) && mouseTransparent == old(mouseTransparent)
      ensures old(children) == [] ==> r == Fail(IndexOutOfBoundsException) && children == old(children)
      ensures old(children) != [] && !IsSmartSphere(old(children)[0]) ==>
        r == Fail(IllegalStateException) && children == old(children)
      ensures old(children) != [] && IsSmartSphere(old(children)[0]) ==>
        r == Pass &&
        children == AddedOnce(old(children), CameraNode(camera))
    {
      if children == [] {
        return Fail(IndexOutOfBoundsException);
      }
      if !IsSmartSphere(children[0]) {
        return Fail(IllegalStateException);
      }
      if CameraNode(camera) in children {
        return Pass;
      }
      children := children + [CameraNode(camera)];
      r := Pass;
    }

    /**
     * removeCamera: only a translation pane may be asked; the camera is
     * removed if it is a child.
     */
    method RemoveCamera(camera: Camera) returns (r: Outcome<Exception>)
      modifies this
      ensures transforms == old(transforms) && mouseTransparent == old(mouseTransparent)
      ensures old(children) == [] ==> r == Fail(IndexOutOfBoundsException) && children == old(children)
      ensures old(children) != [] && !IsSmartSphere(old(children)[0]) ==>
        r == Fail(IllegalStateException) && children == old(children)
      ensures old(children) != [] && IsSmartSphere(old(children)[0]) ==>
        r == Pass && children == RemoveFirst(old(children), CameraNode(camera))
    {
      if children == [] {
        return Fail(IndexOutOfBoundsException);
      }
      if !IsSmartSphere(children[0]) {
        return Fail(IllegalStateException);
      }
      children := RemoveFirst(children, CameraNode(camera));
      r := Pass;
    }
  }
}
