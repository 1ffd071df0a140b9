// util/TranslateContext: where a drag started, on screen and in the scene.
module Translation {
  import opened Geometry

  class TranslateContext {
    var mouseAnchorX: real
    var mouseAnchorY: real
    var translateAnchorX: real
    var translateAnchorY: real
    var translateAnchorZ: real

    /** Every anchor starts at zero, as Java's default field values. */
    constructor()
      ensures mouseAnchorX == 0.0 && mouseAnchorY == 0.0
      ensures translateAnchorX == 0.0 && translateAnchorY == 0.0 && translateAnchorZ == 0.0
    {
      mouseAnchorX, mouseAnchorY := 0.0, 0.0;
      translateAnchorX, translateAnchorY, translateAnchorZ := 0.0, 0.0, 0.0;
    }

    /** setMouseAnchorX: that anchor only. */
    method SetMouseAnchorX(x: real)
      modifies this
      ensures mouseAnchorX == x && mouseAnchorY == old(mouseAnchorY)
      ensures translateAnchorX == old(translateAnchorX) && translateAnchorY == old(translateAnchorY)
      ensures translateAnchorZ == old(translateAnchorZ)
    {
      mouseAnchorX := x;
    }

    /** setMouseAnchorY: that anchor only. */
    method SetMouseAnchorY(y: real)
      modifies this
      ensures mouseAnchorY == y && mouseAnchorX == old(mouseAnchorX)
      ensures translateAnchorX == old(translateAnchorX) && translateAnchorY == old(translateAnchorY)
      ensures translateAnchorZ == old(translateAnchorZ)
    {
      mouseAnchorY := y;
    }

    /** setMouseAnchor(x, y): both mouse anchors; the translate anchors are kept. */
    method SetMouseAnchor(x: real, y: real)
      modifies this
      ensures mouseAnchorX == x && mouseAnchorY == y
      ensures translateAnchorX == old(translateAnchorX) && translateAnchorY == old(translateAnchorY)
      ensures translateAnchorZ == old(translateAnchorZ)
    {
      mouseAnchorX, mouseAnchorY := x, y;
    }

    /** setMouseAnchor(Point2D): the same as setMouseAnchor(p.x, p.y). */
    method SetMouseAnchorPoint(p: Point2D)
      modifies this
      ensures mouseAnchorX == p.x && mouseAnchorY == p.y
      ensures translateAnchorX == old(translateAnchorX) && translateAnchorY == old(translateAnchorY)
      ensures translateAnchorZ == old(translateAnchorZ)
    {
      SetMouseAnchor(p.x, p.y);
    }

    /** setTranslateAnchorX: that anchor only. */
    method SetTranslateAnchorX(x: real)
      modifies this
      ensures translateAnchorX == x && translateAnchorY == old(translateAnchorY) && translateAnchorZ == old(translateAnchorZ)
      ensures mouseAnchorX == old(mouseAnchorX) && mouseAnchorY == old(mouseAnchorY)
    {
      translateAnchorX := x;
    }

    /** setTranslateAnchorY: that anchor only. */
    method SetTranslateAnchorY(y: real)
      modifies this
      ensures translateAnchorY == y && translateAnchorX == old(translateAnchorX) && translateAnchorZ == old(translateAnchorZ)
      ensures mouseAnchorX == old(mouseAnchorX) && mouseAnchorY == old(mouseAnchorY)
    {
      translateAnchorY := y;
    }

    /** setTranslateAnchorZ: that anchor only. */
    method SetTranslateAnchorZ(z: real)
      modifies this
      ensures translateAnchorZ == z && translateAnchorX == old(translateAnchorX) && translateAnchorY == old(translateAnchorY)
      ensures mouseAnchorX == old(mouseAnchorX) && mouseAnchorY == old(mouseAnchorY)
    {
      translateAnchorZ := z;
    }

    /** setTranslateAnchor(Point2D): x and y from the point, z back to zero. */
    method SetTranslateAnchorPoint(p: Point2D)
      modifies this
      ensures translateAnchorX == p.x && translateAnchorY == p.y && translateAnchorZ == 0.0
      ensures mouseAnchorX == old(mouseAnchorX) && mouseAnchorY == old(mouseAnchorY)
    {
      SetTranslateAnchorX(p.x);
      SetTranslateAnchorY(p.y);
      SetTranslateAnchorZ(0.0);
    }

    /** setTranslateAnchor(x, y, z): all three translate anchors. */
    method SetTranslateAnchor(x: real, y: real, z: real)
      modifies this
      ensures translateAnchorX == x && translateAnchorY == y && translateAnchorZ == z
      ensures mouseAnchorX == old(mouseAnchorX) && mouseAnchorY == old(mouseAnchorY)
    {
      SetTranslateAnchorX(x);
      SetTranslateAnchorY(y);
      SetTranslateAnchorZ(z);
    }
  }
}
