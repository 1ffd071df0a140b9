// The arithmetic of datamodel/AstronomicalObject: the scale constants,
// the orbit ellipse, the orbit and rotation timing, and the clearance a
// body leaves around itself and its satellites. Bounding boxes of shapes
// and panes are measured by JavaFX and enter here as inputs.
module OrbitGeometry {
  import opened Wrappers
  import opened Geometry

  /** One astronomical unit in km. */
  const AU: real := 149597870.7
  /** Distances in km are divided by this to get scene units. */
  const SCALE_DISTANCE: real := 4000000.0
  /** Radii in km are divided by this to get scene units. */
  const SCALE_RADIUS: real := 1000.0
  /** The star is drawn this many times smaller again. */
  const SCALE_SOL_RADIUS: real := 7.0
  const SCALE_INCLINATION: real := 1.0
  /** Simulated seconds per real second for the spin of a body (86400/10 in Java int arithmetic). */
  const ROTATION_PERIOD_SPEED: real := 8640.0
  /** Simulated seconds per real second for the orbit of a body (86400/1). */
  const ORBITAL_PERIOD_SPEED: real := 86400.0

  /** The width, height and depth of a JavaFX bounding box. */
  datatype Extent = Extent(width: real, height: real, depth: real)

  /**
   * What the clearance computations read about one satellite: whether it
   * has an orbital pane, the box of its shape and the box of its orbital
   * pane (the latter read only when the pane exists).
   */
  datatype SatelliteView = SatelliteView(hasOrbitalDelegate: bool, shape: Extent, orbit: Extent)

  /** The inner class Size2D. */
  datatype Size2D = Size2D(width: real, height: real)

  // ---------------------------------------------------------------- scale

  /** An orbital distance in AU as scene units: value / SCALE_DISTANCE * AU. */
  function ScaleDistance(au: real): (d: real)
    ensures d * SCALE_DISTANCE == au * AU
  {
    au / SCALE_DISTANCE * AU
  }

  /** Scaling preserves the order of distances, so comparing scaled values compares the data. */
  lemma ScaleDistanceMonotone(a: real, b: real)
    ensures ScaleDistance(a) < ScaleDistance(b) <==> a < b
  {
    assert ScaleDistance(b) - ScaleDistance(a) == (b - a) * (AU / SCALE_DISTANCE);
  }

  // -------------------------------------------------------------- ellipse

  /** sqrt returns the non-negative square root of x (when x is not negative). */
  predicate SqrtAt(sqrt: real -> real, x: real)
  {
    x >= 0.0 ==> sqrt(x) >= 0.0 && sqrt(x) * sqrt(x) == x
  }

  /**
   * createEllipticalOrbit(aphelion, perihelion): the ellipse of the orbit
   * with the central body at the origin. Its centre is shifted by the
   * focus distance, so the far end of the major axis lies at the
   * aphelion and the near end at minus the perihelion. `sqrt` stands for
   * Math.sqrt.
   */
  function EllipticalOrbit(aphelion: real, perihelion: real, sqrt: real -> real): (e: Ellipse)
    ensures e.centerY == 0.0
    ensures e.centerX + e.radiusX == aphelion
    ensures e.centerX - e.radiusX == -perihelion
  {
    var sMajorA := (aphelion + perihelion) / 2.0;
    var focus := (aphelion - perihelion) / 2.0;
    var sMinorA := sqrt(sMajorA * sMajorA - focus * focus);
    Ellipse(focus, 0.0, sMajorA, sMinorA)
  }

  /**
   * With an exact square root, the semi-minor axis b satisfies
   * b^2 = aphelion * perihelion, and the origin is a focus of the ellipse:
   * the centre lies c from it with c^2 = a^2 - b^2.
   */
  lemma EllipticalOrbitFocus(aphelion: real, perihelion: real, sqrt: real -> real)
    requires 0.0 <= perihelion <= aphelion
    requires SqrtAt(sqrt, aphelion * perihelion)
    ensures var e := EllipticalOrbit(aphelion, perihelion, sqrt);
      e.radiusY >= 0.0 && e.radiusY * e.radiusY == aphelion * perihelion &&
      e.centerX >= 0.0 && e.radiusY <= e.radiusX &&
      e.centerX * e.centerX == e.radiusX * e.radiusX - e.radiusY * e.radiusY
  {
    var sMajorA := (aphelion + perihelion) / 2.0;
    var focus := (aphelion - perihelion) / 2.0;
    assert sMajorA * sMajorA - focus * focus == aphelion * perihelion;
    var e := EllipticalOrbit(aphelion, perihelion, sqrt);
    assert e.radiusY == sqrt(aphelion * perihelion);
    if e.radiusY > e.radiusX {
      SquareMonotone(e.radiusX, e.radiusY);
      assert false;
    }
  }

  lemma ScaledWithin(d: real, f: real)
    ensures 0.0 <= f <= 1.0 && d >= 0.0 ==> 0.0 <= d * f <= d
  {
    if 0.0 <= f <= 1.0 && d >= 0.0 {
      var g := 1.0 - f;
      assert d * g >= 0.0;
      assert d * f + d * g == d;
    }
  }

  lemma SquareMonotone(a: real, b: real)
    requires 0.0 <= a < b
    ensures a * a < b * b
  {
    var ab := a * b;
    assert a * a <= ab;
    assert ab < b * b;
  }

  /**
   * createEllipticalOrbit(aphelion, perihelion, invertedOrbit): the same
   * ellipse, mirrored through the central body when inverted, so that
   * the far end then lies at minus the aphelion.
   */
  function EllipticalOrbitInverted(aphelion: real, perihelion: real, inverted: bool, sqrt: real -> real): (e: Ellipse)
    ensures var plain := EllipticalOrbit(aphelion, perihelion, sqrt);
      e.centerY == plain.centerY && e.radiusX == plain.radiusX && e.radiusY == plain.radiusY
    ensures !inverted ==> e == EllipticalOrbit(aphelion, perihelion, sqrt)
    ensures inverted ==> e.centerX - e.radiusX == -aphelion && e.centerX + e.radiusX == perihelion
  {
    var e := EllipticalOrbit(aphelion, perihelion, sqrt);
    if inverted then e.(centerX := -e.centerX) else e
  }

  /**
   * createEllipticalOrbit(invertedOrbit) once the orbit is known to exist:
   * both distances are scaled; an aphelion below the perihelion is
   * refused; a missing central body (None for its width) is a null
   * dereference; otherwise both distances are pushed out by half the
   * central body's width plus half the width of this body with its
   * satellites.
   */
  function OrbitEllipse(aphelion: real, perihelion: real, centralWidth: Option<real>, clusterWidth: real,
                        inverted: bool, sqrt: real -> real): (r: Result<Ellipse, Exception>)
    ensures r == Failure(IllegalArgumentException) <==> aphelion < perihelion
    ensures r == Failure(NullPointerException) <==> aphelion >= perihelion && centralWidth.None?
    ensures r.Success? ==>
      var adaptation := centralWidth.value / 2.0 + clusterWidth / 2.0;
      r.value == EllipticalOrbitInverted(ScaleDistance(aphelion) + adaptation,
                                         ScaleDistance(perihelion) + adaptation, inverted, sqrt) &&
      r.value.radiusX == (ScaleDistance(aphelion) + ScaleDistance(perihelion)) / 2.0 + adaptation &&
      (!inverted ==> r.value.centerX == (ScaleDistance(aphelion) - ScaleDistance(perihelion)) / 2.0)
  {
    var a := ScaleDistance(aphelion);
    var p := ScaleDistance(perihelion);
    ScaleDistanceMonotone(aphelion, perihelion);
    if a < p then Failure(IllegalArgumentException)
    else if centralWidth.None? then Failure(NullPointerException)
    else
      var adaptation := centralWidth.value / 2.0 + clusterWidth / 2.0;
      Success(EllipticalOrbitInverted(a + adaptation, p + adaptation, inverted, sqrt))
  }

  /** The path of the orbital transition: the orbit ellipse with its centre moved by the clearance. */
  function ShiftCenter(e: Ellipse, dx: real, dy: real): (s: Ellipse)
    ensures s.radiusX == e.radiusX && s.radiusY == e.radiusY
    ensures s.centerX - e.centerX == dx && s.centerY - e.centerY == dy
  {
    e.(centerX := e.centerX + dx, centerY := e.centerY + dy)
  }

  /**
   * applyInclination then applyLongitudeOfAscendingNode: the rotations
   * both the body's inclination pane and its orbital pane receive.
   */
  function OrbitRotations(inclination: real, longitudeOfAscendingNode: real): (rs: seq<Rotate>)
    ensures |rs| == 2
    ensures rs[0] == Rotate(-inclination, YAxis)
    ensures rs[1] == Rotate(longitudeOfAscendingNode, ZAxis)
  {
    [Rotate(inclination * (SCALE_INCLINATION * -1.0), YAxis), Rotate(longitudeOfAscendingNode, ZAxis)]
  }

  // --------------------------------------------------------------- timing

  /**
   * The duration in seconds of one orbit in the scene: the period in days
   * converted to seconds and sped up by ORBITAL_PERIOD_SPEED, which makes
   * one scene second stand for one day.
   */
  function OrbitDuration(orbitalPeriod: real): (d: real)
    ensures d == orbitalPeriod
  {
    orbitalPeriod * 60.0 * 60.0 * 24.0 / ORBITAL_PERIOD_SPEED
  }

  /**
   * applyArgumentOfPerihelion: the play head at which the orbit starts,
   * the same fraction of a cycle as the argument of perihelion is of a
   * full turn.
   */
  function PerihelionOffset(duration: real, argumentOfPerihelion: real): (t: real)
    ensures t == duration * (argumentOfPerihelion / 360.0)
    ensures argumentOfPerihelion == 360.0 ==> t == duration
    ensures 0.0 <= argumentOfPerihelion <= 360.0 && duration >= 0.0 ==> 0.0 <= t <= duration
  {
    var f := argumentOfPerihelion / 360.0;
    ScaledWithin(duration, f);
    assert duration * argumentOfPerihelion / 360.0 == duration * f;
    duration * argumentOfPerihelion / 360.0
  }

  /**
   * prepareAnimation: degrees per nanosecond for a body that turns once in
   * `rotationPeriod` days, sped up by ROTATION_PERIOD_SPEED. A zero period
   * has no finite rate (None).
   */
  function AngleForOneNano(rotationPeriod: real): (r: Option<real>)
    ensures r.None? <==> rotationPeriod == 0.0
    ensures r.Some? ==> r.value * (rotationPeriod / ROTATION_PERIOD_SPEED * 86400.0 * 1000000000.0) == 360.0
  {
    if rotationPeriod == 0.0 then None
    else
      var rotation := rotationPeriod / ROTATION_PERIOD_SPEED;
      Some(360.0 / rotation / 24.0 / 60.0 / 60.0 / 1000.0 / 1000.0 / 1000.0)
  }

  // ------------------------------------------------------------ clearance

  function Max(a: real, b: real): (m: real)
    ensures m >= a && m >= b && (m == a || m == b)
  {
    if a >= b then a else b
  }

  /** The value of a running maximum that starts at `floor` and takes in xs from the left. */
  function MaxFrom(floor: real, xs: seq<real>): (m: real)
    ensures m >= floor && forall i :: 0 <= i < |xs| ==> xs[i] <= m
  {
    if xs == [] then floor else Max(MaxFrom(floor, xs[..|xs| - 1]), xs[|xs| - 1])
  }

  /** The running maximum is an upper bound of floor and every value, and equals one of them. */
  lemma {:induction false} MaxFromIsMaximum(floor: real, xs: seq<real>)
    ensures MaxFrom(floor, xs) >= floor
    ensures forall i :: 0 <= i < |xs| ==> MaxFrom(floor, xs) >= xs[i]
    ensures MaxFrom(floor, xs) == floor || exists i :: 0 <= i < |xs| && MaxFrom(floor, xs) == xs[i]
    decreases |xs|
  {
    if xs != [] {
      var init := xs[..|xs| - 1];
      MaxFromIsMaximum(floor, init);
      assert forall i :: 0 <= i < |init| ==> init[i] == xs[i];
      if MaxFrom(floor, init) != floor {
        var j :| 0 <= j < |init| && MaxFrom(floor, init) == init[j];
        assert MaxFrom(floor, init) == xs[j];
      }
    }
  }

  /** Extending the values by one extends the running maximum by one step. */
  lemma MaxFromSnoc(floor: real, xs: seq<real>, i: nat)
    requires i < |xs|
    ensures MaxFrom(floor, xs[..i + 1]) == Max(MaxFrom(floor, xs[..i]), xs[i])
  {
    assert xs[..i + 1][..i] == xs[..i];
  }

  /** The widest a ring can be seen from any side. */
  function RingSize(e: Extent): (s: real)
    ensures s >= e.width && s >= e.height && s >= e.depth
    ensures s == e.width || s == e.height || s == e.depth
  {
    Max(Max(e.width, e.height), e.depth)
  }

  /** calculateXTranslation's value per satellite: the shape width of a ring, else the orbit width. */
  function XWidths(sats: seq<SatelliteView>): (ws: seq<real>)
    ensures |ws| == |sats|
  {
    seq(|sats|, i requires 0 <= i < |sats| =>
      if sats[i].hasOrbitalDelegate then sats[i].orbit.width else sats[i].shape.width)
  }

  /** calculateYTranslation's value per satellite: half the body's own height for a ring, else the orbit height. */
  function YHeights(sats: seq<SatelliteView>, ownHeight: real): (hs: seq<real>)
    ensures |hs| == |sats|
  {
    seq(|sats|, i requires 0 <= i < |sats| =>
      if sats[i].hasOrbitalDelegate then sats[i].orbit.height else ownHeight / 2.0)
  }

  /** sizeWithSatellites' width per satellite: the ring size of a ring, else the orbit width. */
  function ClusterWidths(sats: seq<SatelliteView>): (ws: seq<real>)
    ensures |ws| == |sats|
  {
    seq(|sats|, i requires 0 <= i < |sats| =>
      if sats[i].hasOrbitalDelegate then sats[i].orbit.width else RingSize(sats[i].shape))
  }

  /** sizeWithSatellites' height per satellite: the ring size of a ring, else the orbit height. */
  function ClusterHeights(sats: seq<SatelliteView>): (hs: seq<real>)
    ensures |hs| == |sats|
  {
    seq(|sats|, i requires 0 <= i < |sats| =>
      if sats[i].hasOrbitalDelegate then sats[i].orbit.height else RingSize(sats[i].shape))
  }

  /**
   * The x shift of an orbit path: half the body's width without
   * satellites (an empty list is Java's null list), else the mean of half
   * its width and the widest satellite.
   */
  function XTranslation(own: Extent, sats: seq<SatelliteView>): (x: real)
  {
    if sats == [] then own.width / 2.0
    else (own.width / 2.0 + MaxFrom(0.0, XWidths(sats))) / 2.0
  }

  /**
   * The y shift of an orbit path: half the body's depth without
   * satellites, else the mean of half its height and the tallest satellite.
   */
  function YTranslation(own: Extent, sats: seq<SatelliteView>): (y: real)
  {
    if sats == [] then own.depth / 2.0
    else (own.height / 2.0 + MaxFrom(0.0, YHeights(sats, own.height))) / 2.0
  }

  /** The box of a body together with its satellites and their orbits. */
  function ClusterSize(own: Extent, sats: seq<SatelliteView>): (size: Size2D)
    ensures size.width >= own.width && size.height >= own.height
  {
    Size2D(Max(own.width, MaxFrom(0.0, ClusterWidths(sats))), Max(own.height, MaxFrom(0.0, ClusterHeights(sats))))
  }

  /**
   * The shift clears every satellite: with satellites, the x shift is at
   * least half of half the body's width plus each satellite's width, and
   * exactly that for the widest one (or for none, when no width is positive).
   */
  lemma XTranslationClearsSatellites(own: Extent, sats: seq<SatelliteView>)
    requires sats != []
    ensures forall i :: 0 <= i < |sats| ==> XTranslation(own, sats) >= (own.width / 2.0 + XWidths(sats)[i]) / 2.0
    ensures XTranslation(own, sats) >= own.width / 4.0
    ensures XTranslation(own, sats) == own.width / 4.0 ||
            exists i :: 0 <= i < |sats| && XTranslation(own, sats) == (own.width / 2.0 + XWidths(sats)[i]) / 2.0
  {
    MaxFromIsMaximum(0.0, XWidths(sats));
  }

  /** The same for the y shift and the satellites' heights. */
  lemma YTranslationClearsSatellites(own: Extent, sats: seq<SatelliteView>)
    requires sats != []
    ensures forall i :: 0 <= i < |sats| ==>
      YTranslation(own, sats) >= (own.height / 2.0 + YHeights(sats, own.height)[i]) / 2.0
    ensures YTranslation(own, sats) >= own.height / 4.0
    ensures YTranslation(own, sats) == own.height / 4.0 ||
            exists i :: 0 <= i < |sats| &&
              YTranslation(own, sats) == (own.height / 2.0 + YHeights(sats, own.height)[i]) / 2.0
  {
    MaxFromIsMaximum(0.0, YHeights(sats, own.height));
  }

  /**
   * The cluster box holds the body and every satellite's ring or orbit,
   * and each side equals one of them (or zero).
   */
  lemma ClusterSizeBounds(own: Extent, sats: seq<SatelliteView>)
    ensures var s := ClusterSize(own, sats);
      s.width >= own.width && s.height >= own.height && s.width >= 0.0 && s.height >= 0.0
    ensures forall i :: 0 <= i < |sats| ==>
      ClusterSize(own, sats).width >= ClusterWidths(sats)[i] && ClusterSize(own, sats).height >= ClusterHeights(sats)[i]
    ensures var s := ClusterSize(own, sats);
      s.width == own.width || s.width == 0.0 || exists i :: 0 <= i < |sats| && s.width == ClusterWidths(sats)[i]
  {
    MaxFromIsMaximum(0.0, ClusterWidths(sats));
    MaxFromIsMaximum(0.0, ClusterHeights(sats));
  }

  /** calculateXTranslation, as a loop over the satellites. */
  method CalculateXTranslation(own: Extent, sats: seq<SatelliteView>) returns (x: real)
    ensures x == XTranslation(own, sats)
  {
    if sats == [] {
      x := own.width / 2.0;
      return;
    }
    var width := own.width;
    var satelliteWidth := 0.0;
    var i := 0;
    while i < |sats|
      invariant 0 <= i <= |sats|
      invariant satelliteWidth == MaxFrom(0.0, XWidths(sats)[..i])
    {
      MaxFromSnoc(0.0, XWidths(sats), i);
      if !sats[i].hasOrbitalDelegate {
        var ringWidth := sats[i].shape.width;
        satelliteWidth := Max(satelliteWidth, ringWidth);
      } else {
        var orbitWidth := sats[i].orbit.width;
        satelliteWidth := Max(satelliteWidth, orbitWidth);
      }
      i := i + 1;
    }
    assert XWidths(sats)[..i] == XWidths(sats);
    width := width / 2.0 + satelliteWidth;
    x := width / 2.0;
  }

  /** calculateYTranslation, as a loop over the satellites. */
  method CalculateYTranslation(own: Extent, sats: seq<SatelliteView>) returns (y: real)
    ensures y == YTranslation(own, sats)
  {
    if sats == [] {
      y := own.depth / 2.0;
      return;
    }
    var height := own.height;
    var satelliteHeight := 0.0;
    var i := 0;
    while i < |sats|
      invariant 0 <= i <= |sats|
      invariant satelliteHeight == MaxFrom(0.0, YHeights(sats, own.height)[..i])
    {
      MaxFromSnoc(0.0, YHeights(sats, own.height), i);
      if !sats[i].hasOrbitalDelegate {
        satelliteHeight := Max(satelliteHeight, height / 2.0);
      } else {
        var orbitHeight := sats[i].orbit.height;
        satelliteHeight := Max(satelliteHeight, orbitHeight);
      }
      i := i + 1;
    }
    assert YHeights(sats, own.height)[..i] == YHeights(sats, own.height);
    height := height / 2.0 + satelliteHeight;
    y := height / 2.0;
  }

  /** sizeWithSatellites, as a loop over the satellites. */
  method SizeWithSatellites(own: Extent, sats: seq<SatelliteView>) returns (size: Size2D)
    ensures size == ClusterSize(own, sats)
  {
    var width := own.width;
    var height := own.height;
    var satelliteWidth := 0.0;
    var satelliteHeight := 0.0;
    var i := 0;
    while i < |sats|
      invariant 0 <= i <= |sats|
      invariant satelliteWidth == MaxFrom(0.0, ClusterWidths(sats)[..i])
      invariant satelliteHeight == MaxFrom(0.0, ClusterHeights(sats)[..i])
    {
      MaxFromSnoc(0.0, ClusterWidths(sats), i);
      MaxFromSnoc(0.0, ClusterHeights(sats), i);
      if !sats[i].hasOrbitalDelegate {
        var ringSize := Max(Max(sats[i].shape.width, sats[i].shape.height), sats[i].shape.depth);
        satelliteWidth := Max(satelliteWidth, ringSize);
        satelliteHeight := Max(satelliteHeight, ringSize);
      } else {
        satelliteWidth := Max(satelliteWidth, sats[i].orbit.width);
        satelliteHeight := Max(satelliteHeight, sats[i].orbit.height);
      }
      i := i + 1;
    }
    assert ClusterWidths(sats)[..i] == ClusterWidths(sats);
    assert ClusterHeights(sats)[..i] == ClusterHeights(sats);
    width := Max(width, satelliteWidth);
    height := Max(height, satelliteHeight);
    size := Size2D(width, height);
  }
}
