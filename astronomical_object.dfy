// datamodel/AstronomicalObject with its subclasses Star and Planet: a body
// of the solar system, the panes and shape that draw it, the orbit pane
// and orbital transition made for it once every body exists, and its
// property list.
module Astronomical {
  import opened Wrappers
  import opened Geometry
  import opened SceneGraph
  import opened Animation
  import opened Properties
  import opened Physical
  import opened Orbital
  import opened OrbitGeometry

  /** The type tag of a body: "Star", "Planet", "Satellite" or "Ring". */
  datatype BodyType = Star | Planet | Satellite | Ring

  /**
   * What JavaFX measures: the local bounds of a shape and of a pane, as
   * they stand when an orbit is made.
   */
  datatype Host = Host(shapeBounds: Shape3D -> Extent, paneBounds: SmartPane -> Extent)

  /** physicalCharacteristics(): a body without physical data reads as all zeros. */
  function PhysicsOf(pc: Option<PhysicalCharacteristics>): (p: PhysicalCharacteristics)
    ensures pc.Some? ==> p == pc.value
    ensures pc.None? ==> p.radius == 0.0 && p.mass == 0.0 && p.rotationPeriod == 0.0 && p.axialTilt == 0.0
  {
    match pc
    case Some(v) => v
    case None => ZERO
  }

  // ------------------------------------------------------------ delegates

  /** The scene radius of a body: a star is drawn SCALE_SOL_RADIUS times smaller than the rest. */
  function DelegateRadius(kind: BodyType, radius: real): (r: real)
    ensures kind == Star ==> r * (SCALE_RADIUS * SCALE_SOL_RADIUS) == radius
    ensures kind != Star ==> r * SCALE_RADIUS == radius
  {
    if kind == Star then radius / (SCALE_RADIUS * SCALE_SOL_RADIUS) else radius / SCALE_RADIUS
  }

  /** The same radius gives a star a sphere seven times smaller than a planet's. */
  lemma StarDrawnSmaller(radius: real)
    ensures DelegateRadius(Star, radius) * SCALE_SOL_RADIUS == DelegateRadius(Planet, radius)
    ensures radius > 0.0 ==> 0.0 < DelegateRadius(Star, radius) < DelegateRadius(Planet, radius)
  {
    var s, p := DelegateRadius(Star, radius), DelegateRadius(Planet, radius);
    assert s * 7000.0 == p * 1000.0;
  }

  /**
   * prepareAnimation: a rotation timer for `node` turning once in
   * `rotationPeriod` days (sped up), registered with the handler.
   */
  method PrepareAnimation(node: Shape3D, rotationPeriod: real, handler: AnimationHandler) returns (timer: RotationTimer)
    requires handler.Valid()
    modifies handler
    ensures handler.Valid() && fresh(timer)
    ensures timer.node == node && timer.angleForOneNano == AngleForOneNano(rotationPeriod)
    ensures timer.oldTimeStamp == 0 && !timer.active
    ensures handler.animationTimers == old(handler.animationTimers) + [timer]
    ensures handler.transitions == old(handler.transitions) && handler.runningTimer == old(handler.runningTimer)
    ensures handler.running == old(handler.running)
  {
    timer := new RotationTimer(node, AngleForOneNano(rotationPeriod));
    handler.AddAnimationTimer(timer);
  }

  /**
   * Star.createAstronomicalDelegate: a sphere scaled down for a star,
   * tilted by the star's axial tilt and spun at its rotation period.
   */
  method CreateStarDelegate(name: string, pc: PhysicalCharacteristics, parent: SmartPane, handler: AnimationHandler)
    returns (s: Shape3D)
    requires handler.Valid()
    modifies handler
    ensures handler.Valid() && fresh(s)
    ensures s.kind == SphereShape && s.radius * (SCALE_RADIUS * SCALE_SOL_RADIUS) == pc.radius
    ensures !s.pickOnBounds && !s.mouseTransparent && s.rotate == 0.0
    ensures s.axialTilt == pc.axialTilt && s.ownerName == name && s.parent == parent
    ensures |handler.animationTimers| == |old(handler.animationTimers)| + 1
    ensures handler.animationTimers[..|old(handler.animationTimers)|] == old(handler.animationTimers)
    ensures var t := handler.animationTimers[|old(handler.animationTimers)|];
      fresh(t) && t.node == s && t.angleForOneNano == AngleForOneNano(pc.rotationPeriod) && !t.active
    ensures handler.transitions == old(handler.transitions) && handler.runningTimer == old(handler.runningTimer)
    ensures handler.running == old(handler.running)
  {
    var scale := SCALE_RADIUS;
    scale := scale * SCALE_SOL_RADIUS;
    s := new Shape3D(SphereShape, pc.radius / scale, 0.0, pc.axialTilt, name, parent);
    var timer := PrepareAnimation(s, pc.rotationPeriod, handler);
  }

  /**
   * Planet.createAstronomicalDelegate: a sphere at the common scale,
   * tilted by the planet's axial tilt and spun at its rotation period.
   */
  method CreatePlanetDelegate(name: string, pc: PhysicalCharacteristics, parent: SmartPane, handler: AnimationHandler)
    returns (s: Shape3D)
    requires handler.Valid()
    modifies handler
    ensures handler.Valid() && fresh(s)
    ensures s.kind == SphereShape && s.radius * SCALE_RADIUS == pc.radius
    ensures !s.pickOnBounds && !s.mouseTransparent && s.rotate == 0.0
    ensures s.axialTilt == pc.axialTilt && s.ownerName == name && s.parent == parent
    ensures |handler.animationTimers| == |old(handler.animationTimers)| + 1
    ensures handler.animationTimers[..|old(handler.animationTimers)|] == old(handler.animationTimers)
    ensures var t := handler.animationTimers[|old(handler.animationTimers)|];
      fresh(t) && t.node == s && t.angleForOneNano == AngleForOneNano(pc.rotationPeriod) && !t.active
    ensures handler.transitions == old(handler.transitions) && handler.runningTimer == old(handler.runningTimer)
    ensures handler.running == old(handler.running)
  {
    s := new Shape3D(SphereShape, pc.radius / SCALE_RADIUS, 0.0, pc.axialTilt, name, parent);
    var timer := PrepareAnimation(s, pc.rotationPeriod, handler);
  }

  /**
   * AstronomicalObject.createAstronomicalDelegate, used for satellites and
   * rings: a ring is a flat cylinder 0.1 high, anything else a sphere.
   */
  method CreateBaseDelegate(name: string, kind: BodyType, pc: PhysicalCharacteristics, parent: SmartPane,
                            handler: AnimationHandler) returns (s: Shape3D)
    requires handler.Valid()
    modifies handler
    ensures handler.Valid() && fresh(s)
    ensures s.kind == (if kind == Ring then CylinderShape else SphereShape)
    ensures s.radius * SCALE_RADIUS == pc.radius && s.height == (if kind == Ring then 0.1 else 0.0)
    ensures !s.pickOnBounds && !s.mouseTransparent && s.rotate == 0.0
    ensures s.axialTilt == pc.axialTilt && s.ownerName == name && s.parent == parent
    ensures |handler.animationTimers| == |old(handler.animationTimers)| + 1
    ensures handler.animationTimers[..|old(handler.animationTimers)|] == old(handler.animationTimers)
    ensures var t := handler.animationTimers[|old(handler.animationTimers)|];
      fresh(t) && t.node == s && t.angleForOneNano == AngleForOneNano(pc.rotationPeriod) && !t.active
    ensures handler.transitions == old(handler.transitions) && handler.runningTimer == old(handler.runningTimer)
    ensures handler.running == old(handler.running)
  {
    if kind == Ring {
      s := new Shape3D(CylinderShape, pc.radius / SCALE_RADIUS, 0.1, pc.axialTilt, name, parent);
    } else {
      s := new Shape3D(SphereShape, pc.radius / SCALE_RADIUS, 0.0, pc.axialTilt, name, parent);
    }
    var timer := PrepareAnimation(s, pc.rotationPeriod, handler);
  }

  /**
   * createDelegate: the inclination pane holds the translation pane,
   * which holds the body's shape; a shape that is not a sphere (a ring)
   * is made transparent to the mouse.
   */
  method CreateDelegate(name: string, kind: BodyType, pc: PhysicalCharacteristics, handler: AnimationHandler)
    returns (inclinationPane: SmartPane, translationPane: SmartPane, shape: Shape3D)
    requires handler.Valid()
    modifies handler
    ensures handler.Valid()
    ensures fresh(inclinationPane) && fresh(translationPane) && fresh(shape)
    ensures inclinationPane != translationPane
    ensures inclinationPane.children == [PaneNode(translationPane)] && inclinationPane.transforms == []
    ensures translationPane.children == [ShapeNode(shape)] && translationPane.transforms == []
    ensures !inclinationPane.mouseTransparent && !translationPane.mouseTransparent
    ensures shape.kind == (if kind == Ring then CylinderShape else SphereShape)
    ensures shape.radius == DelegateRadius(kind, pc.radius)
    ensures shape.mouseTransparent <==> kind == Ring
    ensures !shape.pickOnBounds && shape.rotate == 0.0
    ensures shape.axialTilt == pc.axialTilt && shape.ownerName == name && shape.parent == translationPane
    ensures |handler.animationTimers| == |old(handler.animationTimers)| + 1
    ensures handler.animationTimers[..|old(handler.animationTimers)|] == old(handler.animationTimers)
    ensures var t := handler.animationTimers[|old(handler.animationTimers)|];
      fresh(t) && t.node == shape && t.angleForOneNano == AngleForOneNano(pc.rotationPeriod) && !t.active
    ensures handler.transitions == old(handler.transitions) && handler.runningTimer == old(handler.runningTimer)
    ensures handler.running == old(handler.running)
  {
    inclinationPane := new SmartPane();
    translationPane := new SmartPane();
    match kind {
      case Star => shape := CreateStarDelegate(name, pc, translationPane, handler);
      case Planet => shape := CreatePlanetDelegate(name, pc, translationPane, handler);
      case _ => shape := CreateBaseDelegate(name, kind, pc, translationPane, handler);
    }
    translationPane.children := translationPane.children + [ShapeNode(shape)];
    inclinationPane.children := inclinationPane.children + [PaneNode(translationPane)];
    if shape.kind != SphereShape {
      shape.mouseTransparent := true;
    }
  }

  // ----------------------------------------------------------- properties

  /** The key under which getProperties lists the i-th satellite. */
  function SatelliteKey(i: nat): (k: string)
    ensures |k| >= 12 && k[0] == 'S'
  {
    "Satellite #" + DecimalString(i)
  }

  /** Different satellites are listed under different keys. */
  lemma SatelliteKeyInjective(i: nat, j: nat)
    requires SatelliteKey(i) == SatelliteKey(j)
    ensures i == j
  {
    assert SatelliteKey(i)[11..] == DecimalString(i);
    assert SatelliteKey(j)[11..] == DecimalString(j);
    DecimalStringInjective(i, j);
  }

  /** The satellite entries of getProperties: each satellite's name under its position. */
  function SatelliteEntries(names: seq<string>): (m: PropertyMap)
    ensures |m| == |names|
    ensures forall i :: 0 <= i < |names| ==> m[i] == (SatelliteKey(i), Text(names[i]))
  {
    seq(|names|, i requires 0 <= i < |names| => (SatelliteKey(i), Text(names[i])))
  }

  /** The entries every body lists before its satellites. */
  function BaseProperties(name: string, physics: PhysicalCharacteristics, orbitProperties: PropertyMap): (props: PropertyMap)
  {
    [("name", Text(name))] + physics.GetProperties() + orbitProperties
  }

  /** The names of a list of bodies, in order. */
  function NamesOf(bodies: seq<AstronomicalObject>): (names: seq<string>)
    ensures |names| == |bodies|
    ensures forall i :: 0 <= i < |bodies| ==> names[i] == bodies[i].name
  {
    seq(|bodies|, i requires 0 <= i < |bodies| => bodies[i].name)
  }

  /** The orbit entries of getProperties: none for a body without an orbit. */
  function OrbitProperties(orbit: Option<OrbitalCharacteristics<AstronomicalObject>>): (props: PropertyMap)
    requires orbit.Some? ==> orbit.value.centralObject.Some?
  {
    if orbit.Some? then orbit.value.GetProperties((o: AstronomicalObject) => o.name).value else []
  }

  /** The entries before the satellites have distinct keys, none of them beginning with 'S'. */
  lemma BaseKeysLowerCase(name: string, physics: PhysicalCharacteristics,
                          orbit: Option<OrbitalCharacteristics<AstronomicalObject>>)
    requires orbit.Some? ==> orbit.value.centralObject.Some?
    ensures var base := BaseProperties(name, physics, OrbitProperties(orbit));
      UniqueKeys(base) && forall i :: 0 <= i < |base| ==> |base[i].0| > 0 && base[i].0[0] != 'S'
  {
    PhysicalKeyLengths(physics);
    OrbitKeyLengths(orbit);
    KeysCombine(name, physics.GetProperties(), OrbitProperties(orbit));
  }

  /**
   * The name, then keys of lengths 4, 6, 9 or 14 other than "name", then
   * keys of other lengths: no key repeats when each part has unique keys,
   * and none begins with 'S' when no part's key does.
   */
  lemma KeysCombine(name: string, phys: PropertyMap, orb: PropertyMap)
    requires UniqueKeys(phys) && UniqueKeys(orb)
    requires forall i :: 0 <= i < |phys| ==>
      (|phys[i].0| == 4 || |phys[i].0| == 6 || |phys[i].0| == 9 || |phys[i].0| == 14) &&
      phys[i].0 != "name" && phys[i].0[0] != 'S'
    requires forall j :: 0 <= j < |orb| ==>
      |orb[j].0| > 0 && |orb[j].0| != 4 && |orb[j].0| != 6 && |orb[j].0| != 9 && |orb[j].0| != 14 && orb[j].0[0] != 'S'
    ensures var base := [("name", Text(name))] + phys + orb;
      UniqueKeys(base) && forall i :: 0 <= i < |base| ==> |base[i].0| > 0 && base[i].0[0] != 'S'
  {
    var head: PropertyMap := [("name", Text(name))];
    UniqueKeysConcat(head, phys);
    var hp := head + phys;
    forall i | 0 <= i < |hp|
      ensures (|hp[i].0| == 4 || |hp[i].0| == 6 || |hp[i].0| == 9 || |hp[i].0| == 14) && hp[i].0[0] != 'S'
    {
      if i > 0 {
        assert hp[i] == phys[i - 1];
      }
    }
    UniqueKeysConcat(hp, orb);
    var base := hp + orb;
    forall i | 0 <= i < |base| ensures |base[i].0| > 0 && base[i].0[0] != 'S' {
      if i < |hp| {
        assert base[i] == hp[i];
      } else {
        assert base[i] == orb[i - |hp|];
      }
    }
  }

  /** The physical keys are 4, 6, 9 or 14 characters long; none is "name" or begins with 'S'. */
  lemma PhysicalKeyLengths(physics: PhysicalCharacteristics)
    ensures var phys := physics.GetProperties();
      forall i :: 0 <= i < |phys| ==>
        (|phys[i].0| == 4 || |phys[i].0| == 6 || |phys[i].0| == 9 || |phys[i].0| == 14) &&
        phys[i].0 != "name" && phys[i].0[0] != 'S'
  {
  }

  /** The keys of the orbit entries, in the order getProperties lists them. */
  const ORBIT_KEYS: seq<string> :=
    ["centralObject", "aphelion", "perihelion", "semiMajorAxis", "orbitalPeriod",
     "averageOrbitalSpeed", "inclination", "longitudeOfAscendingNode", "argumentOfPerihelion", "epoch"]

  /** The orbit entries carry exactly the orbit keys, or none without an orbit. */
  lemma OrbitKeyList(orbit: Option<OrbitalCharacteristics<AstronomicalObject>>)
    requires orbit.Some? ==> orbit.value.centralObject.Some?
    ensures Keys(OrbitProperties(orbit)) == (if orbit.Some? then ORBIT_KEYS else [])
  {
  }

  /** No orbit key is empty, 4, 6, 9 or 14 characters long, or begins with 'S'. */
  lemma OrbitKeyListLengths()
    ensures forall j :: 0 <= j < |ORBIT_KEYS| ==>
      |ORBIT_KEYS[j]| > 0 && |ORBIT_KEYS[j]| != 4 && |ORBIT_KEYS[j]| != 6 && |ORBIT_KEYS[j]| != 9 && |ORBIT_KEYS[j]| != 14 &&
      ORBIT_KEYS[j][0] != 'S'
  {
  }

  /** The orbit keys are unique, never empty, never 4, 6, 9 or 14 characters long, and none begins with 'S'. */
  lemma OrbitKeyLengths(orbit: Option<OrbitalCharacteristics<AstronomicalObject>>)
    requires orbit.Some? ==> orbit.value.centralObject.Some?
    ensures var orb := OrbitProperties(orbit);
      UniqueKeys(orb) &&
      forall j :: 0 <= j < |orb| ==>
        |orb[j].0| > 0 && |orb[j].0| != 4 && |orb[j].0| != 6 && |orb[j].0| != 9 && |orb[j].0| != 14 && orb[j].0[0] != 'S'
  {
    var orb := OrbitProperties(orbit);
    OrbitKeyList(orbit);
    OrbitKeyListLengths();
    assert forall j :: 0 <= j < |orb| ==> orb[j].0 == Keys(orb)[j];
  }

  /** Putting the name, the physical entries and the orbit entries one after the other lists them in order. */
  lemma BaseByPuts(name: string, physics: PhysicalCharacteristics,
                   orbit: Option<OrbitalCharacteristics<AstronomicalObject>>)
    requires orbit.Some? ==> orbit.value.centralObject.Some?
    ensures PutAll(PutAll(Put([], "name", Text(name)), physics.GetProperties()), OrbitProperties(orbit))
            == BaseProperties(name, physics, OrbitProperties(orbit))
    ensures var base := BaseProperties(name, physics, OrbitProperties(orbit));
      UniqueKeys(base) && forall i :: 0 <= i < |base| ==> |base[i].0| > 0 && base[i].0[0] != 'S'
  {
    var head: PropertyMap := [("name", Text(name))];
    var phys := physics.GetProperties();
    var orb := OrbitProperties(orbit);
    BaseKeysLowerCase(name, physics, orbit);
    var base := head + phys + orb;
    assert base == BaseProperties(name, physics, orb);
    forall i | 0 <= i < |phys| ensures phys[i].0 !in Keys(head) {
      assert base[1 + i] == phys[i] && base[0] == head[0];
    }
    PutAllFresh(head, phys);
    forall j | 0 <= j < |orb| ensures orb[j].0 !in Keys(head + phys) {
      assert base[|head + phys| + j] == orb[j];
      forall i | 0 <= i < |head + phys| ensures (head + phys)[i].0 != orb[j].0 {
        assert base[i] == (head + phys)[i];
      }
    }
    PutAllFresh(head + phys, orb);
  }

  /**
   * Putting the i-th satellite after the base entries and the satellites
   * before it appends its entry and keeps the keys distinct.
   */
  lemma PutSatellite(base: PropertyMap, names: seq<string>, i: nat)
    requires i < |names|
    requires forall k :: 0 <= k < |base| ==> |base[k].0| > 0 && base[k].0[0] != 'S'
    requires UniqueKeys(base + SatelliteEntries(names[..i]))
    ensures Put(base + SatelliteEntries(names[..i]), SatelliteKey(i), Text(names[i]))
            == base + SatelliteEntries(names[..i + 1])
    ensures UniqueKeys(base + SatelliteEntries(names[..i + 1]))
  {
    var m := base + SatelliteEntries(names[..i]);
    var key := SatelliteKey(i);
    forall k | 0 <= k < |m| ensures m[k].0 != key {
      if k < |base| {
        assert m[k] == base[k];
      } else {
        assert m[k] == SatelliteEntries(names[..i])[k - |base|];
        if m[k].0 == key {
          SatelliteKeyInjective(k - |base|, i);
        }
      }
    }
    assert key !in Keys(m);
    assert SatelliteEntries(names[..i + 1]) == SatelliteEntries(names[..i]) + [(key, Text(names[i]))];
    PutKeepsKeysUnique(m, key, Text(names[i]));
  }

  /** The satellite loop of getProperties: one put per satellite, in order. */
  method PutSatellites(base: PropertyMap, names: seq<string>) returns (properties: PropertyMap)
    requires UniqueKeys(base)
    requires forall k :: 0 <= k < |base| ==> |base[k].0| > 0 && base[k].0[0] != 'S'
    ensures properties == base + SatelliteEntries(names)
    ensures UniqueKeys(properties)
  {
    properties := base;
    var i := 0;
    assert base + SatelliteEntries(names[..0]) == base;
    while i < |names|
      invariant 0 <= i <= |names|
      invariant properties == base + SatelliteEntries(names[..i])
      invariant UniqueKeys(properties)
    {
      PutSatellite(base, names, i);
      properties := Put(properties, SatelliteKey(i), Text(names[i]));
      i := i + 1;
    }
    assert names[..|names|] == names;
  }

  // ------------------------------------------------------------ the body

  class AstronomicalObject {
    const name: string
    const kind: BodyType
    const physicalCharacteristics: Option<PhysicalCharacteristics>
    /** None for the star. */
    const orbit: Option<OrbitalCharacteristics<AstronomicalObject>>
    /** The visual astronomical delegate: the topmost pane, turned by the orbit's inclination. */
    const inclinationPane: SmartPane
    /** The pane the orbital transition moves; it holds the shape and the satellites' panes. */
    const translationPane: SmartPane
    const shape: Shape3D
    /** The bodies orbiting this one; empty stands for the Java null list. */
    var satellites: seq<AstronomicalObject>
    /** The visual orbital delegate, once made. */
    var orbitalDelegate: SmartPane?

    /** The physical data of the body, zeros when it has none. */
    function Physics(): PhysicalCharacteristics
    {
      PhysicsOf(physicalCharacteristics)
    }

    /**
     * The constructor: the fields as given, and the delegate panes with
     * the body's shape, whose rotation timer joins the handler.
     */
    constructor(name: string, kind: BodyType, physicalCharacteristics: Option<PhysicalCharacteristics>,
                orbit: Option<OrbitalCharacteristics<AstronomicalObject>>, handler: AnimationHandler)
      requires handler.Valid()
      modifies handler
      ensures handler.Valid()
      ensures this.name == name && this.kind == kind && this.physicalCharacteristics == physicalCharacteristics
      ensures this.orbit == orbit && satellites == [] && orbitalDelegate == null
      ensures fresh(inclinationPane) && fresh(translationPane) && fresh(shape)
      ensures inclinationPane != translationPane
      ensures inclinationPane.children == [PaneNode(translationPane)] && inclinationPane.transforms == []
      ensures translationPane.children == [ShapeNode(shape)] && translationPane.transforms == []
      ensures shape.kind == (if kind == Ring then CylinderShape else SphereShape)
      ensures shape.radius == DelegateRadius(kind, Physics().radius) && shape.axialTilt == Physics().axialTilt
      ensures shape.mouseTransparent <==> kind == Ring
      ensures shape.ownerName == name && shape.parent == translationPane
      ensures |handler.animationTimers| == |old(handler.animationTimers)| + 1
      ensures handler.animationTimers[..|old(handler.animationTimers)|] == old(handler.animationTimers)
      ensures var t := handler.animationTimers[|old(handler.animationTimers)|];
        fresh(t) && t.node == shape && t.angleForOneNano == AngleForOneNano(Physics().rotationPeriod)
      ensures handler.transitions == old(handler.transitions) && handler.runningTimer == old(handler.runningTimer)
      ensures handler.running == old(handler.running)
    {
      this.name := name;
      this.kind := kind;
      this.physicalCharacteristics := physicalCharacteristics;
      this.orbit := orbit;
      var incl, trans, s := CreateDelegate(name, kind, PhysicsOf(physicalCharacteristics), handler);
      inclinationPane := incl;
      translationPane := trans;
      shape := s;
      satellites := [];
      orbitalDelegate := null;
    }

    /** addSatellite: the satellite goes to the end of the list. */
    method AddSatellite(satellite: AstronomicalObject)
      modifies this
      ensures satellites == old(satellites) + [satellite]
      ensures orbitalDelegate == old(orbitalDelegate)
    {
      satellites := satellites + [satellite];
    }

    /**
     * getProperties: the name, the physical data, the orbit data (a null
     * central body is a null dereference) and one entry per satellite, in
     * that order and each key once.
     */
    method GetProperties() returns (r: Result<PropertyMap, Exception>)
      ensures r.Failure? <==> orbit.Some? && orbit.value.centralObject.None?
      ensures r.Failure? ==> r.error == NullPointerException
      ensures r.Success? ==> UniqueKeys(r.value)
      ensures r.Success? ==>
        r.value == BaseProperties(name, Physics(), OrbitProperties(orbit)) + SatelliteEntries(NamesOf(satellites))
    {
      if orbit.Some? && orbit.value.centralObject.None? {
        assert orbit.value.GetProperties((o: AstronomicalObject) => o.name).Failure?;
        return Failure(NullPointerException);
      }
      var properties: PropertyMap := [];
      properties := Put(properties, "name", Text(name));
      properties := PutAll(properties, Physics().GetProperties());
      properties := PutAll(properties, OrbitProperties(orbit));
      BaseByPuts(name, Physics(), orbit);
      properties := PutSatellites(properties, NamesOf(satellites));
      r := Success(properties);
    }

    /** Whether the body has an orbit to draw: an orbit with a distance other than zero. */
    predicate HasOrbitPath()
    {
      orbit.Some? && !(orbit.value.perihelion == 0.0 && orbit.value.aphelion == 0.0)
    }

    /** The width of the central body's delegate, or None for a missing central body. */
    function CentralWidth(host: Host): (w: Option<real>)
      requires orbit.Some?
      ensures w.None? <==> orbit.value.centralObject.None?
      ensures w.Some? ==> w.value == host.paneBounds(orbit.value.centralObject.value.inclinationPane).width
    {
      match orbit.value.centralObject
      case None => None
      case Some(c) => Some(host.paneBounds(c.inclinationPane).width)
    }

    /**
     * createEllipticalOrbit(false): the ellipse drawn for the orbit and
     * followed by the orbital transition, or the exception it raises.
     */
    function OrbitPath(host: Host, sqrt: real -> real): (r: Result<Ellipse, Exception>)
      requires HasOrbitPath()
      reads this, satellites
      ensures r.Failure? ==> r.error == IllegalArgumentException || r.error == NullPointerException
      ensures r == Failure(IllegalArgumentException) <==> orbit.value.aphelion < orbit.value.perihelion
      ensures r == Failure(NullPointerException) <==>
        orbit.value.aphelion >= orbit.value.perihelion && orbit.value.centralObject.None?
    {
      var o := orbit.value;
      OrbitEllipse(o.aphelion, o.perihelion, CentralWidth(host),
                   ClusterSize(host.shapeBounds(shape), ViewsOf(satellites, host)).width, false, sqrt)
    }

    /**
     * createEllipticalOrbit(false), for a body with an orbit path: the
     * cluster size of the body and its satellites, then the orbit ellipse.
     */
    method CreateEllipticalOrbit(host: Host, sqrt: real -> real) returns (r: Result<Ellipse, Exception>)
      requires HasOrbitPath()
      ensures r == OrbitPath(host, sqrt)
    {
      var size := SizeWithSatellites(host.shapeBounds(shape), ViewsOf(satellites, host));
      var o := orbit.value;
      r := OrbitEllipse(o.aphelion, o.perihelion, CentralWidth(host), size.width, false, sqrt);
    }

    /**
     * applyOrbitalTransition with applyArgumentOfPerihelion: a transition
     * moving the translation pane along the ellipse shifted by the body's
     * clearance, one cycle per orbital period, its play head set to the
     * argument of perihelion, registered with the handler.
     */
    method ApplyOrbitalTransition(host: Host, handler: AnimationHandler, ellipse: Ellipse) returns (t: Transition)
      requires HasOrbitPath() && handler.Valid()
      modifies handler
      ensures handler.Valid() && fresh(t)
      ensures var own := host.shapeBounds(shape);
        var views := ViewsOf(satellites, host);
        var duration := OrbitDuration(orbit.value.orbitalPeriod);
        t.node == translationPane && t.duration == duration &&
        t.path == ShiftCenter(ellipse, XTranslation(own, views), YTranslation(own, views)) &&
        t.currentTime == ClampedTime(PerihelionOffset(duration, orbit.value.argumentOfPerihelion)) && !t.playing
      ensures handler.transitions == old(handler.transitions) + [t]
      ensures handler.runningTimer == old(handler.runningTimer) + [t.currentTime]
      ensures handler.animationTimers == old(handler.animationTimers) && handler.running == old(handler.running)
    {
      var own := host.shapeBounds(shape);
      var views := ViewsOf(satellites, host);
      var duration := OrbitDuration(orbit.value.orbitalPeriod);
      var x := CalculateXTranslation(own, views);
      var y := CalculateYTranslation(own, views);
      t := new Transition(translationPane, ShiftCenter(ellipse, x, y), duration);
      t.JumpTo(PerihelionOffset(duration, orbit.value.argumentOfPerihelion));
      handler.AddTransition(t);
      assert ViewsOf(satellites, host) == views;
    }

    /**
     * applyInclination then applyLongitudeOfAscendingNode: each rotation
     * goes to the inclination pane and to the orbit pane.
     */
    method ApplyOrbitRotations(pane: SmartPane)
      requires orbit.Some? && pane != inclinationPane
      modifies inclinationPane, pane
      ensures var rotations := OrbitRotations(orbit.value.inclination, orbit.value.longitudeOfAscendingNode);
        inclinationPane.transforms == old(inclinationPane.transforms) + rotations &&
        pane.transforms == old(pane.transforms) + rotations
      ensures inclinationPane.children == old(inclinationPane.children) && pane.children == old(pane.children)
      ensures inclinationPane.mouseTransparent == old(inclinationPane.mouseTransparent)
      ensures pane.mouseTransparent == old(pane.mouseTransparent)
    {
      var rotations := OrbitRotations(orbit.value.inclination, orbit.value.longitudeOfAscendingNode);
      inclinationPane.transforms := inclinationPane.transforms + [rotations[0]];
      pane.transforms := pane.transforms + [rotations[0]];
      inclinationPane.transforms := inclinationPane.transforms + [rotations[1]];
      pane.transforms := pane.transforms + [rotations[1]];
    }

    /**
     * The part of createOrbitalDelegate after the ellipse is made: the
     * ellipse drawn in the new orbit pane, the orbital transition, and the
     * orbit's rotations on both panes.
     */
    method DrawOrbit(pane: SmartPane, host: Host, handler: AnimationHandler, ellipse: Ellipse)
      requires HasOrbitPath() && handler.Valid() && pane != inclinationPane
      requires pane.children == [] && pane.transforms == []
      modifies pane, inclinationPane, handler
      ensures handler.Valid()
      ensures inclinationPane.children == old(inclinationPane.children)
      ensures pane.mouseTransparent == old(pane.mouseTransparent)
      ensures handler.animationTimers == old(handler.animationTimers) && handler.running == old(handler.running)
      ensures var rotations := OrbitRotations(orbit.value.inclination, orbit.value.longitudeOfAscendingNode);
        pane.children == [EllipseNode(ellipse, kind != Satellite)] &&
        pane.transforms == rotations &&
        inclinationPane.transforms == old(inclinationPane.transforms) + rotations
      ensures |handler.transitions| == |old(handler.transitions)| + 1
      ensures handler.transitions[..|old(handler.transitions)|] == old(handler.transitions)
      ensures fresh(handler.transitions[|old(handler.transitions)|])
      ensures OrbitalTransition(handler.transitions[|old(handler.transitions)|], host, ellipse)
      ensures handler.runningTimer == old(handler.runningTimer) + [handler.transitions[|old(handler.transitions)|].currentTime]
    {
      pane.children := pane.children + [EllipseNode(ellipse, kind != Satellite)];
      var t := ApplyOrbitalTransition(host, handler, ellipse);
      assert OrbitalTransition(t, host, ellipse);
      ApplyOrbitRotations(pane);
      assert OrbitalTransition(t, host, ellipse);
    }

    /**
     * createOrbitalDelegate: refused once the orbit pane exists; nothing
     * for a body without an orbit path; otherwise a new pane, transparent
     * to the mouse, that draws the orbit ellipse (invisible for a
     * satellite), the orbital transition, and the orbit's two rotations on
     * both the orbit pane and the inclination pane. When the ellipse
     * cannot be made, the empty pane stays and the exception is returned.
     */
    method CreateOrbitalDelegate(host: Host, handler: AnimationHandler, sqrt: real -> real)
      returns (r: Outcome<Exception>)
      requires handler.Valid()
      modifies this, inclinationPane, handler
      ensures handler.Valid()
      ensures satellites == old(satellites) && inclinationPane.children == old(inclinationPane.children)
      ensures handler.animationTimers == old(handler.animationTimers) && handler.running == old(handler.running)
      ensures old(orbitalDelegate) != null ==>
        r == Fail(IllegalStateException) && orbitalDelegate == old(orbitalDelegate) &&
        unchanged(inclinationPane) && unchanged(handler)
      ensures old(orbitalDelegate) == null && !HasOrbitPath() ==>
        r == Pass && orbitalDelegate == null && unchanged(inclinationPane) && unchanged(handler)
      ensures old(orbitalDelegate) == null && HasOrbitPath() ==>
        orbitalDelegate != null && fresh(orbitalDelegate) && orbitalDelegate.mouseTransparent
      ensures old(orbitalDelegate) == null && HasOrbitPath() && OrbitPath(host, sqrt).Failure? ==>
        r == Fail(OrbitPath(host, sqrt).error) &&
        orbitalDelegate.children == [] && orbitalDelegate.transforms == [] &&
        unchanged(inclinationPane) && unchanged(handler)
      ensures old(orbitalDelegate) == null && HasOrbitPath() && OrbitPath(host, sqrt).Success? ==>
        var rotations := OrbitRotations(orbit.value.inclination, orbit.value.longitudeOfAscendingNode);
        r == Pass &&
        orbitalDelegate.children == [EllipseNode(OrbitPath(host, sqrt).value, kind != Satellite)] &&
        orbitalDelegate.transforms == rotations &&
        inclinationPane.transforms == old(inclinationPane.transforms) + rotations &&
        |handler.transitions| == |old(handler.transitions)| + 1 &&
        handler.transitions[..|old(handler.transitions)|] == old(handler.transitions) &&
        fresh(handler.transitions[|old(handler.transitions)|]) &&
        OrbitalTransition(handler.transitions[|old(handler.transitions)|], host, OrbitPath(host, sqrt).value) &&
        handler.runningTimer == old(handler.runningTimer) + [handler.transitions[|old(handler.transitions)|].currentTime]
    {
      if orbitalDelegate != null {
        return Fail(IllegalStateException);
      }
      if !HasOrbitPath() {
        return Pass;
      }
      var pane := new SmartPane();
      pane.mouseTransparent := true;
      orbitalDelegate := pane;

      var ellipse := CreateEllipticalOrbit(host, sqrt);
      if ellipse.Failure? {
        return Fail(ellipse.error);
      }
      DrawOrbit(pane, host, handler, ellipse.value);
      assert OrbitPath(host, sqrt) == ellipse;
      r := Pass;
    }

    /**
     * The transition applyOrbitalTransition makes for `path`: it moves
     * the translation pane along the path shifted by the clearance, one
     * cycle per orbital period, starting at the argument of perihelion.
     */
    ghost predicate OrbitalTransition(t: Transition, host: Host, path: Ellipse)
      requires HasOrbitPath()
      reads this, satellites, t
    {
      var own := host.shapeBounds(shape);
      var views := ViewsOf(satellites, host);
      var duration := OrbitDuration(orbit.value.orbitalPeriod);
      t.node == translationPane && t.duration == duration &&
      t.path == ShiftCenter(path, XTranslation(own, views), YTranslation(own, views)) &&
      t.currentTime == ClampedTime(PerihelionOffset(duration, orbit.value.argumentOfPerihelion)) && !t.playing
    }

    /** The panes buildHierarchy adds to the central body's translation pane. */
    function HierarchyPanes(): (nodes: seq<Node>)
      reads this
      ensures |nodes| >= 1 && nodes[0] == PaneNode(inclinationPane)
      ensures |nodes| == 2 <==> orbitalDelegate != null
      ensures orbitalDelegate != null ==> nodes[1] == PaneNode(orbitalDelegate)
    {
      [PaneNode(inclinationPane)] + (if orbitalDelegate != null then [PaneNode(orbitalDelegate)] else [])
    }

    /**
     * buildHierarchy: nothing for a body without an orbit; a missing
     * central body is a null dereference; otherwise this body's
     * inclination pane and then its orbit pane, if any, join the central
     * body's translation pane.
     */
    method BuildHierarchy() returns (r: Outcome<Exception>)
      modifies if orbit.Some? && orbit.value.centralObject.Some? then {orbit.value.centralObject.value.translationPane} else {}
      ensures orbit.None? ==> r == Pass
      ensures orbit.Some? && orbit.value.centralObject.None? ==> r == Fail(NullPointerException)
      ensures orbit.Some? && orbit.value.centralObject.Some? ==>
        var target := orbit.value.centralObject.value.translationPane;
        r == Pass && target.transforms == old(target.transforms) &&
        target.children == old(target.children) + old(HierarchyPanes())
    {
      if orbit.None? {
        return Pass;
      }
      if orbit.value.centralObject.None? {
        return Fail(NullPointerException);
      }
      var target := orbit.value.centralObject.value.translationPane;
      target.children := target.children + [PaneNode(inclinationPane)];
      if orbitalDelegate != null {
        target.children := target.children + [PaneNode(orbitalDelegate)];
      }
      r := Pass;
    }
  }

  /** What the clearance computations read about a satellite. */
  function ViewOf(o: AstronomicalObject, host: Host): (v: SatelliteView)
    reads o
    ensures v.hasOrbitalDelegate <==> o.orbitalDelegate != null
    ensures v.shape == host.shapeBounds(o.shape)
    ensures o.orbitalDelegate != null ==> v.orbit == host.paneBounds(o.orbitalDelegate)
  {
    if o.orbitalDelegate != null then SatelliteView(true, host.shapeBounds(o.shape), host.paneBounds(o.orbitalDelegate))
    else SatelliteView(false, host.shapeBounds(o.shape), Extent(0.0, 0.0, 0.0))
  }

  /** The views of a list of satellites, in order. */
  function ViewsOf(sats: seq<AstronomicalObject>, host: Host): (vs: seq<SatelliteView>)
    reads sats
    ensures |vs| == |sats|
    ensures forall i :: 0 <= i < |sats| ==> vs[i] == ViewOf(sats[i], host)
  {
    if sats == [] then []
    else ViewsOf(sats[..|sats| - 1], host) + [ViewOf(sats[|sats| - 1], host)]
  }
}
