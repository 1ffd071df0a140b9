// datamodel/SolarSystemModel: the registry of every body of the solar
// system by name, filled from the catalogue in a fixed order (the star,
// the planets, the satellites, the rings, then every orbit, then the
// scene hierarchy), and the queries the application asks of it.
module Catalog {
  import opened Wrappers
  import opened SceneGraph
  import opened Animation
  import opened Physical
  import opened Orbital
  import opened Astronomical

  /** The physical data of one catalogue entry. */
  datatype PhysicalRecord = PhysicalRecord(radius: real, mass: real, rotationPeriod: real, axialTilt: real)

  /** The orbit data of one catalogue entry; the central object is named. */
  datatype OrbitRecord = OrbitRecord(
    centralObject: string,
    aphelion: real,
    perihelion: real,
    semiMajorAxis: real,
    orbitalPeriod: real,
    averageOrbitalSpeed: real,
    inclination: real,
    longitudeOfAscendingNode: real,
    argumentOfPerihelion: real,
    epoch: string)

  /** One catalogue entry; the orbit is absent when the entry has none. */
  datatype BodyRecord = BodyRecord(name: string, physical: PhysicalRecord, orbit: Option<OrbitRecord>)

  /** The catalogue: the star and the lists of planets, satellites and rings. */
  datatype SystemRecord = SystemRecord(star: BodyRecord, planets: seq<BodyRecord>,
                                       satellites: seq<BodyRecord>, rings: seq<BodyRecord>)

  /**
   * A body made from `entry` took as its central object the body stored in
   * `m` under the entry's central name, or none when no body has that name.
   */
  ghost predicate CentralResolved(entry: BodyRecord, o: AstronomicalObject, m: map<string, AstronomicalObject>)
  {
    entry.orbit.Some? && o.orbit.Some? &&
    (o.orbit.value.centralObject.Some? <==> entry.orbit.value.centralObject in m) &&
    (o.orbit.value.centralObject.Some? ==> o.orbit.value.centralObject.value == m[entry.orbit.value.centralObject])
  }

  /** The panes of a set of bodies. */
  function Panes(bodies: set<AstronomicalObject>): (panes: set<SmartPane>)
  {
    (set b | b in bodies :: b.inclinationPane) + (set b | b in bodies :: b.translationPane)
  }

  class SolarSystemModel {
    /** The bodies by name. */
    var objects: map<string, AstronomicalObject>
    /** Every body made so far, including any whose name a later entry took over. */
    ghost var bodies: set<AstronomicalObject>
    /** The animation handler every body registers its timers and transitions with. */
    const handler: AnimationHandler

    /**
     * Each body is stored under its own name; every stored body and every
     * central body of a known body is known.
     */
    ghost predicate Valid()
      reads this, handler
    {
      handler.Valid() &&
      (forall k :: k in objects ==> objects[k].name == k && objects[k] in bodies) &&
      (forall b :: b in bodies && b.orbit.Some? && b.orbit.value.centralObject.Some? ==>
         b.orbit.value.centralObject.value in bodies)
    }

    /** A model with no bodies yet. */
    constructor(handler: AnimationHandler)
      requires handler.Valid()
      ensures Valid() && this.handler == handler && objects == map[] && bodies == {}
    {
      this.handler := handler;
      objects := map[];
      bodies := {};
    }

    /**
     * readPhysicalCharacteristics: the builder given the radius, then the
     * mass, rotation period and axial tilt of the entry.
     */
    method ReadPhysicalCharacteristics(source: PhysicalRecord) returns (pc: PhysicalCharacteristics)
      ensures pc.radius == source.radius && pc.mass == source.mass
      ensures pc.rotationPeriod == source.rotationPeriod && pc.axialTilt == source.axialTilt
    {
      var b := new Physical.Builder(source.radius);
      b := b.Mass(source.mass);
      b := b.RotationPeriod(source.rotationPeriod);
      b := b.AxialTilt(source.axialTilt);
      pc := b.Build();
    }

    /**
     * readOrbitCharacteristics: a missing orbit is a null dereference; the
     * central object is looked up by name among the bodies made so far
     * (None when there is none of that name); every other field is copied.
     */
    method ReadOrbitCharacteristics(source: Option<OrbitRecord>)
      returns (r: Result<OrbitalCharacteristics<AstronomicalObject>, Exception>)
      ensures source.None? <==> r.Failure?
      ensures r.Failure? ==> r.error == NullPointerException
      ensures r.Success? ==>
        var s, o := source.value, r.value;
        (o.centralObject.Some? <==> s.centralObject in objects) &&
        (o.centralObject.Some? ==> o.centralObject.value == objects[s.centralObject]) &&
        o.aphelion == s.aphelion && o.perihelion == s.perihelion && o.semiMajorAxis == s.semiMajorAxis &&
        o.orbitalPeriod == s.orbitalPeriod && o.averageOrbitalSpeed == s.averageOrbitalSpeed &&
        o.inclination == s.inclination && o.longitudeOfAscendingNode == s.longitudeOfAscendingNode &&
        o.argumentOfPerihelion == s.argumentOfPerihelion && o.epoch == Some(s.epoch)
    {
      if source.None? {
        return Failure(NullPointerException);
      }
      var s := source.value;
      var central := if s.centralObject in objects then Some(objects[s.centralObject]) else None;
      var b := new Orbital.Builder(central);
      b := b.Aphelion(s.aphelion);
      b := b.Perihelion(s.perihelion);
      b := b.SemiMajorAxis(s.semiMajorAxis);
      b := b.OrbitalPeriod(s.orbitalPeriod);
      b := b.AverageOrbitalSpeed(s.averageOrbitalSpeed);
      b := b.Inclination(s.inclination);
      b := b.LongitudeOfAscendingNode(s.longitudeOfAscendingNode);
      b := b.ArgumentOfPerihelion(s.argumentOfPerihelion);
      b := b.Epoch(Some(s.epoch));
      var o := b.Build();
      r := Success(o);
    }

    /** Registers a newly made body under its name. */
    method Register(body: AstronomicalObject)
      requires Valid() && body !in bodies
      requires body.orbit.Some? && body.orbit.value.centralObject.Some? ==>
        body.orbit.value.centralObject.value in bodies
      modifies this
      ensures Valid()
      ensures objects == old(objects)[body.name := body] && bodies == old(bodies) + {body}
    {
      objects := objects[body.name := body];
      bodies := bodies + {body};
    }

    /** createStar: the star, without an orbit, stored under its name. */
    method CreateStar(data: BodyRecord) returns (star: AstronomicalObject)
      requires Valid()
      modifies this, handler
      ensures Valid() && fresh(star) && fresh(star.inclinationPane) && fresh(star.translationPane)
      ensures star.name == data.name && star.kind == Star && star.orbit.None? && star.orbitalDelegate == null
      ensures star.physicalCharacteristics.Some? && star.physicalCharacteristics.value.radius == data.physical.radius
      ensures star.satellites == []
      ensures objects == old(objects)[data.name := star] && bodies == old(bodies) + {star}
    {
      var pc := ReadPhysicalCharacteristics(data.physical);
      star := new AstronomicalObject(data.name, Star, Some(pc), None, handler);
      Register(star);
    }

    /**
     * createPlanet: a planet with its orbit, stored under its name; an
     * entry without an orbit is a null dereference and changes nothing.
     */
    method CreatePlanet(data: BodyRecord) returns (r: Outcome<Exception>, planet: AstronomicalObject?)
      requires Valid()
      modifies this, handler
      ensures Valid()
      ensures data.orbit.None? ==>
        r == Fail(NullPointerException) && planet == null && objects == old(objects) && bodies == old(bodies)
      ensures data.orbit.Some? ==>
        r == Pass && planet != null && fresh(planet) &&
        fresh(planet.inclinationPane) && fresh(planet.translationPane) &&
        planet.name == data.name && planet.kind == Planet && planet.orbitalDelegate == null && planet.satellites == [] &&
        CentralResolved(data, planet, old(objects)) &&
        objects == old(objects)[data.name := planet] && bodies == old(bodies) + {planet}
    {
      var pc := ReadPhysicalCharacteristics(data.physical);
      var orbit := ReadOrbitCharacteristics(data.orbit);
      if orbit.Failure? {
        return Fail(orbit.error), null;
      }
      planet := new AstronomicalObject(data.name, Planet, Some(pc), Some(orbit.value), handler);
      Register(planet);
      r := Pass;
    }

    /**
     * createAstronomicalObject, for a satellite or a ring: the body is
     * made and stored under its name, then appended to the satellites of
     * the body stored under its central object's name (looked up after
     * the store). An entry without an orbit is a null dereference before
     * anything is made; an unknown central object is one after the store.
     */
    method CreateAstronomicalObject(data: BodyRecord, kind: BodyType) returns (r: Outcome<Exception>, ghost made: seq<AstronomicalObject>)
      requires Valid() && (kind == Satellite || kind == Ring)
      modifies this, handler, bodies
      ensures forall b :: b in old(bodies) ==> b.orbitalDelegate == old(b.orbitalDelegate)
      ensures Valid()
      ensures forall b :: b in bodies && b !in old(bodies) ==>
        fresh(b) && fresh(b.inclinationPane) && fresh(b.translationPane) && b.kind == kind && b.orbitalDelegate == null
      ensures |made| == (if data.orbit.Some? then 1 else 0)
      ensures data.orbit.None? ==> bodies == old(bodies) && objects == old(objects)
      ensures data.orbit.Some? ==>
        var body := made[0];
        fresh(body) && body.kind == kind && body.name == data.name && CentralResolved(data, body, old(objects)) &&
        bodies == old(bodies) + {body} && objects == old(objects)[data.name := body]
      ensures data.orbit.None? ==> r == Fail(NullPointerException)
      ensures data.orbit.Some? ==> (r.Pass? <==> data.orbit.value.centralObject in old(objects))
      ensures r.Fail? ==> r.error == NullPointerException
      ensures forall b {:trigger b.satellites} :: b in bodies ==>
        b.satellites == (if b in old(bodies) then old(b.satellites) else []) + JoinedTo(b, old(objects), made)
    {
      var pc := ReadPhysicalCharacteristics(data.physical);
      var orbit := ReadOrbitCharacteristics(data.orbit);
      if orbit.Failure? {
        return Fail(orbit.error), [];
      }
      var body := new AstronomicalObject(data.name, kind, Some(pc), Some(orbit.value), handler);
      made := [body];
      assert made[..0] == [];
      Register(body);
      assert StoredAfter(old(objects), made) == objects;
      if orbit.value.centralObject.None? {
        return Fail(NullPointerException), made;
      }
      var central := orbit.value.centralObject.value;
      assert central.name == data.orbit.value.centralObject && central.name in objects;
      var parent := objects[central.name];
      assert ParentIn(objects, body) == Some(parent);
      parent.AddSatellite(body);
      r := Pass;
    }

    /** createPlanets: every planet entry in order; the first failure ends the run. */
    method CreatePlanets(data: seq<BodyRecord>) returns (r: Outcome<Exception>, ghost made: seq<AstronomicalObject>)
      requires Valid()
      modifies this, handler
      ensures Valid() && Recorded(bodies, objects, old(bodies), old(objects), data, made, Planet)
      ensures forall b :: b in bodies && b !in old(bodies) ==>
        fresh(b) && fresh(b.inclinationPane) && fresh(b.translationPane) &&
        b.orbitalDelegate == null && b.satellites == []
      ensures r.Pass? <==> forall i :: 0 <= i < |data| ==> data[i].orbit.Some?
      ensures r.Pass? ==> |made| == |data|
      ensures r.Fail? ==> r.error == NullPointerException
    {
      made := [];
      var i := 0;
      while i < |data|
        invariant 0 <= i <= |data| && |made| == i
        invariant Valid() && Recorded(bodies, objects, old(bodies), old(objects), data, made, Planet)
        invariant forall b :: b in bodies && b !in old(bodies) ==>
          fresh(b) && fresh(b.inclinationPane) && fresh(b.translationPane) &&
          b.orbitalDelegate == null && b.satellites == []
        invariant forall j :: 0 <= j < i ==> data[j].orbit.Some?
      {
        var planet;
        ghost var known, stored := bodies, objects;
        r, planet := CreatePlanet(data[i]);
        if r.Fail? {
          return;
        }
        RecordedSnoc(known, stored, old(bodies), old(objects), data, made, Planet, planet);
        made := made + [planet];
        i := i + 1;
      }
      r := Pass;
    }

    /**
     * createAstronomicalObjects: every satellite (or every ring) entry in
     * order; the first failure ends the run. Each body made joins the
     * satellites of its central body, in the order of the entries.
     */
    method CreateAstronomicalObjects(data: seq<BodyRecord>, kind: BodyType)
      returns (r: Outcome<Exception>, ghost made: seq<AstronomicalObject>)
      requires Valid() && (kind == Satellite || kind == Ring)
      modifies this, handler, bodies
      ensures forall b :: b in old(bodies) ==> b.orbitalDelegate == old(b.orbitalDelegate)
      ensures Valid() && Recorded(bodies, objects, old(bodies), old(objects), data, made, kind)
      ensures forall b :: b in bodies && b !in old(bodies) ==>
        fresh(b) && fresh(b.inclinationPane) && fresh(b.translationPane) && b.orbitalDelegate == null
      ensures forall b {:trigger b.satellites} :: b in bodies ==>
        b.satellites == (if b in old(bodies) then old(b.satellites) else []) + JoinedTo(b, old(objects), made)
      ensures r.Fail? ==> r.error == NullPointerException
      ensures r.Pass? ==> |made| == |data| && forall j :: 0 <= j < |made| ==>
        made[j].orbit.Some? && made[j].orbit.value.centralObject.Some?
    {
      ghost var base := map b | b in bodies :: b.satellites;
      made := [];
      var i := 0;
      while i < |data|
        invariant 0 <= i <= |data| && |made| == i
        invariant Valid() && JoinedUpTo(data, kind, old(bodies), old(objects), base, made)
        invariant forall b :: b in old(bodies) ==> b.orbitalDelegate == old(b.orbitalDelegate)
        invariant forall b :: b in bodies && b !in old(bodies) ==>
          fresh(b) && fresh(b.inclinationPane) && fresh(b.translationPane) && b.orbitalDelegate == null
      {
        r, made := CreateNext(data, kind, i, old(bodies), old(objects), base, made);
        if r.Fail? {
          return;
        }
        i := i + 1;
      }
      r := Pass;
    }

    /**
     * What the loop of createAstronomicalObjects keeps: the bodies and
     * names record the bodies made so far, every one of which found its
     * central body, and every body's satellites are those it had at the
     * start (`base`) followed by the ones that joined it.
     */
    ghost predicate JoinedUpTo(data: seq<BodyRecord>, kind: BodyType, before: set<AstronomicalObject>,
                               start: map<string, AstronomicalObject>, base: map<AstronomicalObject, seq<AstronomicalObject>>,
                               made: seq<AstronomicalObject>)
      reads this, bodies
    {
      Recorded(bodies, objects, before, start, data, made, kind) && base.Keys == before &&
      (forall j :: 0 <= j < |made| ==> made[j].orbit.Some? && made[j].orbit.value.centralObject.Some?) &&
      (forall b {:trigger b.satellites} :: b in bodies ==> b.satellites == (if b in base then base[b] else []) + JoinedTo(b, start, made))
    }

    /**
     * The satellites lists after one more body: what the bodies had, plus
     * what joined each of them during the step.
     */
    twostate lemma SatellitesJoinedStep(new base: map<AstronomicalObject, seq<AstronomicalObject>>,
                                        start: map<string, AstronomicalObject>, new made: seq<AstronomicalObject>,
                                        new step: seq<AstronomicalObject>)
      requires base.Keys <= old(bodies) && forall j :: 0 <= j < |made| ==> made[j] in old(bodies)
      requires forall b {:trigger old(b.satellites)} :: b in old(bodies) ==>
        old(b.satellites) == (if b in base then base[b] else []) + JoinedTo(b, start, made)
      requires forall b :: b in bodies && b !in old(bodies) ==> fresh(b)
      requires forall b {:trigger b.satellites} :: b in bodies ==>
        b.satellites == (if b in old(bodies) then old(b.satellites) else []) + JoinedTo(b, StoredAfter(start, made), step)
      ensures forall b {:trigger b.satellites} :: b in bodies ==>
        b.satellites == (if b in base then base[b] else []) + JoinedTo(b, start, made + step)
    {
      forall b | b in bodies
        ensures b.satellites == (if b in base then base[b] else []) + JoinedTo(b, start, made + step)
      {
        var was := if b in base then base[b] else [];
        if b in old(bodies) {
          JoinedStep(b, start, made, step, was, old(b.satellites), b.satellites);
        } else {
          JoinedToStranger(b, start, made);
          JoinedStep(b, start, made, step, was, [], b.satellites);
        }
      }
    }

    /**
     * One turn of the loop of createAstronomicalObjects: the next entry is
     * made, stored and joined to its central body.
     */
    method CreateNext(data: seq<BodyRecord>, kind: BodyType, i: nat, ghost before: set<AstronomicalObject>,
                      ghost start: map<string, AstronomicalObject>,
                      ghost base: map<AstronomicalObject, seq<AstronomicalObject>>, ghost made: seq<AstronomicalObject>)
      returns (r: Outcome<Exception>, ghost made': seq<AstronomicalObject>)
      requires Valid() && (kind == Satellite || kind == Ring) && i == |made| < |data|
      requires JoinedUpTo(data, kind, before, start, base, made)
      modifies this, handler, bodies
      ensures Valid()
      ensures r.Pass? ==> |made'| == |made| + 1 && JoinedUpTo(data, kind, before, start, base, made')
      ensures r.Fail? ==> r.error == NullPointerException
      ensures r.Fail? ==> (Recorded(bodies, objects, before, start, data, made', kind) &&
        forall b {:trigger b.satellites} :: b in bodies ==> b.satellites == (if b in base then base[b] else []) + JoinedTo(b, start, made'))
      ensures forall b :: b in old(bodies) ==> b.orbitalDelegate == old(b.orbitalDelegate)
      ensures forall b :: b in bodies && b !in old(bodies) ==>
        fresh(b) && fresh(b.inclinationPane) && fresh(b.translationPane) && b.orbitalDelegate == null
    {
      ghost var step;
      label creating:
      r, step := CreateAstronomicalObject(data[i], kind);
      NextJoined@creating(data, kind, before, start, base, made, step);
      made' := made + step;
    }

    /**
     * What one call of createAstronomicalObject adds to the record kept by
     * the loop: the body made from the next entry, if any, is known and
     * stored, and has joined the satellites of its central body.
     */
    twostate lemma NextJoined(new data: seq<BodyRecord>, new kind: BodyType, new before: set<AstronomicalObject>,
                              new start: map<string, AstronomicalObject>,
                              new base: map<AstronomicalObject, seq<AstronomicalObject>>,
                              new made: seq<AstronomicalObject>, new step: seq<AstronomicalObject>)
      requires old(allocated(before)) && old(allocated(start)) && old(allocated(base)) && old(allocated(made))
      requires old(JoinedUpTo(data, kind, before, start, base, made)) && |made| < |data|
      requires |step| == (if data[|made|].orbit.Some? then 1 else 0)
      requires data[|made|].orbit.None? ==> bodies == old(bodies) && objects == old(objects)
      requires data[|made|].orbit.Some? ==>
        var body := step[0];
        fresh(body) && body.kind == kind && body.name == data[|made|].name &&
        CentralResolved(data[|made|], body, old(objects)) &&
        bodies == old(bodies) + {body} && objects == old(objects)[data[|made|].name := body]
      requires forall b {:trigger b.satellites} :: b in bodies ==>
        b.satellites == (if b in old(bodies) then old(b.satellites) else []) + JoinedTo(b, old(objects), step)
      ensures Recorded(bodies, objects, before, start, data, made + step, kind)
      ensures forall b {:trigger b.satellites} :: b in bodies ==>
        b.satellites == (if b in base then base[b] else []) + JoinedTo(b, start, made + step)
      ensures data[|made|].orbit.Some? && data[|made|].orbit.value.centralObject in old(objects) ==>
        |step| == 1 && JoinedUpTo(data, kind, before, start, base, made + step)
    {
      if step != [] {
        assert step == [step[0]];
        RecordedSnoc(old(bodies), old(objects), before, start, data, made, kind, step[0]);
      } else {
        assert made + step == made;
      }
      SatellitesJoinedStep(base, start, made, step);
    }

    /**
     * getAstronomicalObjects: every stored body once, in the map's
     * iteration order (an arbitrary order here).
     */
    method GetAstronomicalObjects() returns (list: seq<AstronomicalObject>)
      requires Valid()
      ensures |list| == |objects|
      ensures forall i :: 0 <= i < |list| ==> list[i] in objects.Values
      ensures forall k :: k in objects ==> objects[k] in list
      ensures Distinct(list)
    {
      list := [];
      var remaining := objects.Keys;
      while remaining != {}
        invariant remaining <= objects.Keys
        invariant |list| + |remaining| == |objects|
        invariant forall i :: 0 <= i < |list| ==> list[i] in objects.Values && list[i].name !in remaining
        invariant forall k :: k in objects && k !in remaining ==> objects[k] in list
        invariant Distinct(list)
        decreases |remaining|
      {
        var k :| k in remaining;
        list := list + [objects[k]];
        remaining := remaining - {k};
      }
    }

    /** The stored bodies of one type, each once, in iteration order. */
    method ObjectsOfKind(kind: BodyType) returns (list: seq<AstronomicalObject>)
      requires Valid()
      ensures forall o :: o in list <==> o in objects.Values && o.kind == kind
      ensures Distinct(list)
    {
      var all := GetAstronomicalObjects();
      list := [];
      for i := 0 to |all|
        invariant forall o :: o in list <==> o in all[..i] && o.kind == kind
        invariant Distinct(list)
      {
        if all[i].kind == kind {
          assert all[i] !in all[..i];
          list := list + [all[i]];
        }
      }
      assert all[..|all|] == all;
    }

    /** getPlanets: exactly the planets. */
    method GetPlanets() returns (planets: seq<AstronomicalObject>)
      requires Valid()
      ensures forall o :: o in planets <==> o in objects.Values && o.kind == Planet
      ensures Distinct(planets)
    {
      planets := ObjectsOfKind(Planet);
    }

    /** getSatellites: exactly the bodies typed "Satellite"; rings are not among them. */
    method GetSatellites() returns (satellites: seq<AstronomicalObject>)
      requires Valid()
      ensures forall o :: o in satellites <==> o in objects.Values && o.kind == Satellite
      ensures Distinct(satellites)
    {
      satellites := ObjectsOfKind(Satellite);
    }

    /** getStar: a stored body typed "Star", or null when there is none. */
    method GetStar() returns (star: AstronomicalObject?)
      requires Valid()
      ensures star != null ==> star in objects.Values && star.kind == Star
      ensures star == null <==> forall k :: k in objects ==> objects[k].kind != Star
    {
      var all := GetAstronomicalObjects();
      for i := 0 to |all|
        invariant forall j :: 0 <= j < i ==> all[j].kind != Star
      {
        if all[i].kind == Star {
          return all[i];
        }
      }
      star := null;
    }

    /** getObject: the body stored under `name`, or null. */
    method GetObject(name: string) returns (o: AstronomicalObject?)
      requires Valid()
      ensures o != null <==> name in objects
      ensures o != null ==> o == objects[name] && o.name == name
    {
      o := if name in objects then objects[name] else null;
    }

    /** getProperties(name): the properties of the named body; an unknown name is a null dereference. */
    method GetProperties(name: string) returns (r: Result<Properties.PropertyMap, Exception>)
      requires Valid()
      ensures name !in objects ==> r == Failure(NullPointerException)
      ensures name in objects ==>
        var o := objects[name];
        (r.Failure? <==> o.orbit.Some? && o.orbit.value.centralObject.None?) &&
        (r.Success? ==> |r.value| > 0 && r.value[0] == ("name", Properties.Text(name)) && Properties.UniqueKeys(r.value)) &&
        (r.Failure? ==> r.error == NullPointerException)
      ensures name in objects && r.Success? ==>
        var o := objects[name];
        r.value == BaseProperties(o.name, o.Physics(), OrbitProperties(o.orbit)) + SatelliteEntries(NamesOf(o.satellites))
    {
      var o := GetObject(name);
      if o == null {
        return Failure(NullPointerException);
      }
      r := o.GetProperties();
    }

    /** getObjectNames: an array with the name of every stored body once. */
    method GetObjectNames() returns (names: array<string>)
      requires Valid()
      ensures fresh(names) && names.Length == |objects|
      ensures forall i :: 0 <= i < names.Length ==> names[i] in objects
      ensures forall k :: k in objects ==> k in names[..]
      ensures Distinct(names[..])
    {
      names := new string[|objects|];
      var all := GetAstronomicalObjects();
      var i := 0;
      while i < |all|
        invariant 0 <= i <= |all|
        invariant forall j :: 0 <= j < i ==> names[j] == all[j].name
      {
        names[i] := all[i].name;
        i := i + 1;
      }
      assert names[..] == NameList(all);
      NameListCoversKeys(all, objects);
    }

    /** getVisualDelegates: the shape of every stored body drawn as a sphere; ring cylinders are left out. */
    method GetVisualDelegates() returns (delegates: seq<Shape3D>)
      requires Valid()
      ensures |delegates| <= |objects|
      ensures forall i :: 0 <= i < |delegates| ==>
        delegates[i].kind == SphereShape && exists k :: k in objects && objects[k].shape == delegates[i]
      ensures forall k :: k in objects && objects[k].shape.kind == SphereShape ==> objects[k].shape in delegates
    {
      var all := GetAstronomicalObjects();
      delegates := [];
      for i := 0 to |all|
        invariant |delegates| <= i
        invariant forall j :: 0 <= j < |delegates| ==>
          delegates[j].kind == SphereShape && exists k :: k in objects && objects[k].shape == delegates[j]
        invariant forall j :: 0 <= j < i && all[j].shape.kind == SphereShape ==> all[j].shape in delegates
      {
        var shape := all[i].shape;
        if shape.kind == SphereShape {
          assert all[i] == objects[all[i].name];
          delegates := delegates + [shape];
        }
      }
      forall k | k in objects && objects[k].shape.kind == SphereShape ensures objects[k].shape in delegates {
        var j :| 0 <= j < |all| && all[j] == objects[k];
      }
    }

    /**
     * createOrbits: the orbit of every satellite, then of every planet
     * (a planet's orbit is sized by its satellites' orbits); rings and the
     * star get none. The first failure ends the run. `order` is the order
     * in which the bodies were asked.
     */
    method CreateOrbits(host: Host, sqrt: real -> real) returns (r: Outcome<Exception>, order: seq<AstronomicalObject>)
      requires Valid()
      modifies handler, bodies, Panes(bodies)
      ensures Valid() && objects == old(objects) && bodies == old(bodies)
      ensures forall o :: o in order <==> o in objects.Values && (o.kind == Satellite || o.kind == Planet)
      ensures forall i, j :: 0 <= i < |order| && 0 <= j < |order| && order[i].kind == Satellite && order[j].kind == Planet ==>
        i < j
      ensures forall b :: b in bodies && b !in order ==> b.orbitalDelegate == old(b.orbitalDelegate)
      ensures forall b {:trigger b.satellites} :: b in bodies ==> b.satellites == old(b.satellites)
      ensures r.Pass? ==> forall o :: o in old(bodies) && o in order ==>
        old(o.orbitalDelegate) == null && (o.orbitalDelegate != null <==> o.HasOrbitPath())
    {
      var satellites := GetSatellites();
      var planets := GetPlanets();
      order := satellites + planets;
      forall i, j | 0 <= i < j < |order| ensures order[i] != order[j] {
        if j < |satellites| {
          assert order[i] == satellites[i] && order[j] == satellites[j];
        } else if i >= |satellites| {
          assert order[i] == planets[i - |satellites|] && order[j] == planets[j - |satellites|];
        } else {
          assert order[i] in satellites && order[j] in planets;
        }
      }
      r := CreateOrbitsOf(order, handler, host, sqrt);
      forall o | o in old(bodies) && o in order
        ensures r.Pass? ==> old(o.orbitalDelegate) == null && (o.orbitalDelegate != null <==> o.HasOrbitPath())
      {
        var j :| 0 <= j < |order| && order[j] == o;
      }
    }

    /**
     * buildHierarchy: every body, in map order, hangs its panes under its
     * central body; the first body whose central body is missing ends the
     * run with a null dereference.
     */
    method BuildHierarchy() returns (r: Outcome<Exception>)
      requires Valid()
      modifies Panes(bodies)
      ensures Valid() && objects == old(objects) && bodies == old(bodies)
      ensures r.Pass? ==> forall k :: k in objects && objects[k].orbit.Some? ==> objects[k].orbit.value.centralObject.Some?
      ensures r.Fail? ==> exists k :: k in objects && objects[k].orbit.Some? && objects[k].orbit.value.centralObject.None?
      ensures r.Fail? ==> r.error == NullPointerException
      ensures r.Pass? ==> forall k :: k in objects ==> Attached(objects[k])
      ensures forall b :: b in old(bodies) ==> old(b.translationPane.children) <= b.translationPane.children
    {
      var list := GetAstronomicalObjects();
      ghost var start: map<AstronomicalObject, seq<Node>> := map b: AstronomicalObject | b in bodies :: b.translationPane.children;
      ghost var failed;
      r, failed := AttachAll(list, bodies, start);
      forall b | b in old(bodies) ensures old(b.translationPane.children) <= b.translationPane.children {
        assert start[b] == old(b.translationPane.children);
        assert Extends(start[b], b.translationPane.children);
      }
      if r.Fail? {
        ghost var k :| k in objects && objects[k] == list[failed];
        return;
      }
      forall k | k in objects
        ensures Attached(objects[k]) && (objects[k].orbit.Some? ==> objects[k].orbit.value.centralObject.Some?)
      {
        var j :| 0 <= j < |list| && list[j] == objects[k];
      }
    }

    /**
     * What loading left when the bodies `made` came from the first entries
     * of the catalogue: the bodies are exactly those made, each from its
     * entry and of its entry's type, stored by name in order, and the
     * satellites of every body are the satellites and rings that joined
     * it, in catalogue order.
     */
    ghost predicate LoadedFrom(data: SystemRecord, made: seq<AstronomicalObject>)
      reads this, bodies
    {
      (forall b :: b in bodies ==> b in made) && (forall j :: 0 <= j < |made| ==> made[j] in bodies) &&
      MadeFrom(map[], Catalogue(data), made) && objects == StoredAfter(map[], made) &&
      (forall j :: 0 <= j < |made| ==> made[j].kind == CatalogueKind(data, j)) &&
      (forall b {:trigger b.satellites} :: b in bodies ==> b.satellites == JoinedTo(b, map[], made))
    }

    /**
     * The creation half of the constructor's loading sequence on an empty
     * model: the star, the planets, the satellites and then the rings. The
     * first exception ends it. `made` lists the bodies made, in catalogue
     * order.
     */
    method CreateObjects(data: SystemRecord) returns (r: Outcome<Exception>, ghost made: seq<AstronomicalObject>)
      requires Valid() && bodies == {}
      modifies this, handler
      ensures Valid() && LoadedFrom(data, made)
      ensures forall b :: b in bodies ==> fresh(b) && fresh(b.inclinationPane) && fresh(b.translationPane)
      ensures forall b :: b in bodies ==> b.orbitalDelegate == null
      ensures r.Fail? ==> r.error == NullPointerException
      ensures r.Pass? ==> |made| == |Catalogue(data)|
      ensures r.Pass? ==> data.star.name in objects
      ensures r.Pass? ==> forall i :: 0 <= i < |data.planets| ==> data.planets[i].name in objects
      ensures r.Pass? ==> forall i :: 0 <= i < |data.satellites| ==> data.satellites[i].name in objects
      ensures r.Pass? ==> forall i :: 0 <= i < |data.rings| ==> data.rings[i].name in objects
    {
      assert objects.Keys == {} by {
        forall k | k in objects ensures objects[k] in bodies { }
      }
      assert objects == map[];
      var star := CreateStar(data.star);
      made := [star];
      LoadedStar(data, star);

      r, made := LoadPlanets(data, made);
      if r.Fail? {
        return;
      }
      r, made := LoadOrbiting(data, made);
      if r.Pass? {
        CatalogueNames(data, made);
      }
    }

    /** The planets phase of createObjects, after the star. */
    method LoadPlanets(data: SystemRecord, ghost made: seq<AstronomicalObject>)
      returns (r: Outcome<Exception>, ghost made': seq<AstronomicalObject>)
      requires Valid() && LoadedFrom(data, made) && |made| == 1
      modifies this, handler
      ensures Valid() && LoadedFrom(data, made')
      ensures forall b :: b in bodies && b !in old(bodies) ==>
        fresh(b) && fresh(b.inclinationPane) && fresh(b.translationPane) && b.orbitalDelegate == null
      ensures r.Fail? ==> r.error == NullPointerException
      ensures r.Pass? ==> |made'| == 1 + |data.planets|
    {
      ghost var more;
      r, more := CreatePlanets(data.planets);
      CataloguePhase(data, |made|, data.planets, Planet);
      PlanetsJoinNone(old(objects), more);
      LoadedStep(data, made, more, data.planets, Planet);
      made' := made + more;
    }

    /** Planets join no central body: the satellites lists stay as they were. */
    twostate lemma PlanetsJoinNone(start: map<string, AstronomicalObject>, new more: seq<AstronomicalObject>)
      requires forall j :: 0 <= j < |more| ==> more[j].kind == Planet
      requires forall b :: b in old(bodies) ==> b.satellites == old(b.satellites)
      requires forall b :: b in bodies && b !in old(bodies) ==> b.satellites == []
      ensures forall b {:trigger b.satellites} :: b in bodies ==>
        b.satellites == (if b in old(bodies) then old(b.satellites) else []) + JoinedTo(b, start, more)
    {
      forall b | b in bodies
        ensures b.satellites == (if b in old(bodies) then old(b.satellites) else []) + JoinedTo(b, start, more)
      {
        JoinedToNone(b, start, more);
      }
    }

    /** The satellites and then the rings phase of createObjects. */
    method LoadOrbiting(data: SystemRecord, ghost made: seq<AstronomicalObject>)
      returns (r: Outcome<Exception>, ghost made': seq<AstronomicalObject>)
      requires Valid() && LoadedFrom(data, made) && |made| == 1 + |data.planets|
      modifies this, handler, bodies
      ensures Valid() && LoadedFrom(data, made')
      ensures forall b :: b in old(bodies) ==> b.orbitalDelegate == old(b.orbitalDelegate)
      ensures forall b :: b in bodies && b !in old(bodies) ==>
        fresh(b) && fresh(b.inclinationPane) && fresh(b.translationPane) && b.orbitalDelegate == null
      ensures r.Fail? ==> r.error == NullPointerException
      ensures r.Pass? ==> |made'| == |Catalogue(data)|
    {
      r, made' := LoadOrbiters(data, data.satellites, Satellite, made);
      if r.Fail? {
        return;
      }
      r, made' := LoadOrbiters(data, data.rings, Ring, made');
    }

    /** The satellites or the rings phase of createObjects. */
    method LoadOrbiters(data: SystemRecord, segment: seq<BodyRecord>, kind: BodyType, ghost made: seq<AstronomicalObject>)
      returns (r: Outcome<Exception>, ghost made': seq<AstronomicalObject>)
      requires (|made| == 1 + |data.planets| && segment == data.satellites && kind == Satellite) ||
               (|made| == 1 + |data.planets| + |data.satellites| && segment == data.rings && kind == Ring)
      requires Valid() && LoadedFrom(data, made)
      modifies this, handler, bodies
      ensures Valid() && LoadedFrom(data, made')
      ensures forall b :: b in old(bodies) ==> b.orbitalDelegate == old(b.orbitalDelegate)
      ensures forall b :: b in bodies && b !in old(bodies) ==>
        fresh(b) && fresh(b.inclinationPane) && fresh(b.translationPane) && b.orbitalDelegate == null
      ensures r.Fail? ==> r.error == NullPointerException
      ensures r.Pass? ==> |made'| == |made| + |segment|
    {
      ghost var more;
      r, more := CreateAstronomicalObjects(segment, kind);
      CataloguePhase(data, |made|, segment, kind);
      LoadedStep(data, made, more, segment, kind);
      made' := made + more;
    }

    /** Loading starts with the star, alone in the model. */
    lemma LoadedStar(data: SystemRecord, star: AstronomicalObject)
      requires bodies == {star} && objects == map[data.star.name := star]
      requires star.name == data.star.name && star.kind == Star && star.orbit.None? && star.satellites == []
      ensures LoadedFrom(data, [star])
    {
      assert [star][..0] == [];
      assert StoredAfter(map[], [star]) == objects;
      assert JoinedTo(star, map[], [star]) == [];
    }

    /**
     * One phase of loading: the bodies `more`, made from the next segment
     * of the catalogue, extend what was loaded, and the satellites and
     * rings among them have joined their central bodies.
     */
    twostate lemma LoadedStep(new data: SystemRecord, made: seq<AstronomicalObject>, new more: seq<AstronomicalObject>,
                              new segment: seq<BodyRecord>, new kind: BodyType)
      requires old(LoadedFrom(data, made))
      requires |made| + |segment| <= |Catalogue(data)| && Catalogue(data)[|made|..|made| + |segment|] == segment
      requires forall j :: |made| <= j < |made| + |segment| ==> CatalogueKind(data, j) == kind
      requires Recorded(bodies, objects, old(bodies), old(objects), segment, more, kind)
      requires forall b {:trigger b.satellites} :: b in bodies ==>
        b.satellites == (if b in old(bodies) then old(b.satellites) else []) + JoinedTo(b, old(objects), more)
      ensures LoadedFrom(data, made + more)
    {
      MadeFromNames(old(objects), segment, more);
      StoredAfterAppend(map[], made, more);
      MadeFromAppend(map[], Catalogue(data), made, segment, more);
      KindsAppend(data, made, more, kind);
      forall b | b in bodies
        ensures b.satellites == JoinedTo(b, map[], made + more)
      {
        JoinedToAppend(b, map[], made, more);
        if b !in old(bodies) {
          JoinedToStranger(b, map[], made);
        }
      }
    }

    /**
     * The constructor's loading sequence on an empty model: the bodies,
     * then the orbits and the scene hierarchy. The first exception ends the
     * sequence (the constructor catches and reports it, leaving the model
     * as far as it got).
     */
    method Load(data: SystemRecord, host: Host, sqrt: real -> real)
      returns (r: Outcome<Exception>, ghost made: seq<AstronomicalObject>)
      requires Valid() && bodies == {}
      modifies this, handler
      ensures Valid() && LoadedFrom(data, made)
      ensures r.Pass? ==> |made| == |Catalogue(data)|
      ensures r.Pass? ==> data.star.name in objects
      ensures r.Pass? ==> forall i :: 0 <= i < |data.planets| ==> data.planets[i].name in objects
      ensures r.Pass? ==> forall i :: 0 <= i < |data.satellites| ==> data.satellites[i].name in objects
      ensures r.Pass? ==> forall i :: 0 <= i < |data.rings| ==> data.rings[i].name in objects
      ensures r.Pass? ==> forall k :: k in objects ==>
        (objects[k].kind == Satellite || objects[k].kind == Planet ==>
           (objects[k].orbitalDelegate != null <==> objects[k].HasOrbitPath())) &&
        (objects[k].kind == Star || objects[k].kind == Ring ==> objects[k].orbitalDelegate == null)
      ensures r.Pass? ==> forall k :: k in objects ==> Attached(objects[k])
    {
      r, made := CreateObjects(data);
      if r.Fail? {
        return;
      }
      label scene:
      r := ArrangeScene(host, sqrt);
      LoadedKept@scene(data, made);
    }

    /**
     * The scene half of the constructor's loading sequence: the orbits,
     * then the pane hierarchy, over bodies that have no orbit panes yet.
     */
    method ArrangeScene(host: Host, sqrt: real -> real) returns (r: Outcome<Exception>)
      requires Valid() && forall b :: b in bodies ==> b.orbitalDelegate == null
      modifies handler, bodies, Panes(bodies)
      ensures Valid() && objects == old(objects) && bodies == old(bodies)
      ensures forall b {:trigger b.satellites} :: b in bodies ==> b.satellites == old(b.satellites)
      ensures r.Pass? ==> forall k :: k in objects ==>
        (objects[k].kind == Satellite || objects[k].kind == Planet ==>
           (objects[k].orbitalDelegate != null <==> objects[k].HasOrbitPath())) &&
        (objects[k].kind == Star || objects[k].kind == Ring ==> objects[k].orbitalDelegate == null)
      ensures r.Pass? ==> forall k :: k in objects ==> Attached(objects[k])
    {
      var order;
      r, order := CreateOrbits(host, sqrt);
      if r.Fail? {
        return;
      }
      r := BuildHierarchy();
    }

    /** Making orbits and hanging panes leave the loaded bodies, names and satellites as they were. */
    twostate lemma LoadedKept(new data: SystemRecord, made: seq<AstronomicalObject>)
      requires old(LoadedFrom(data, made))
      requires bodies == old(bodies) && objects == old(objects)
      requires forall b {:trigger b.satellites} :: b in bodies ==> b.satellites == old(b.satellites)
      ensures LoadedFrom(data, made)
    {
    }
  }

  /**
   * The name map after the bodies `made` were stored one after the other
   * over `start`: a later body takes over the name of an earlier one.
   */
  ghost function StoredAfter(start: map<string, AstronomicalObject>, made: seq<AstronomicalObject>)
    : (m: map<string, AstronomicalObject>)
    decreases |made|
  {
    if made == [] then start
    else StoredAfter(start, made[..|made| - 1])[made[|made| - 1].name := made[|made| - 1]]
  }

  /**
   * The body a newly stored satellite or ring joins: the body stored,
   * right after its own store into `m`, under the name of its central
   * object. None when it has no central object, which is where the loader
   * throws instead.
   */
  ghost function ParentIn(m: map<string, AstronomicalObject>, o: AstronomicalObject): (p: Option<AstronomicalObject>)
    ensures p.Some? ==> (o.orbit.Some? && o.orbit.value.centralObject.Some? &&
      o.orbit.value.centralObject.value.name in m && p.value == m[o.orbit.value.centralObject.value.name])
  {
    if (o.kind == Satellite || o.kind == Ring) && o.orbit.Some? && o.orbit.value.centralObject.Some?
       && o.orbit.value.centralObject.value.name in m
    then Some(m[o.orbit.value.centralObject.value.name])
    else None
  }

  /**
   * The satellites that join `b`, in the order they were made, when the
   * bodies `made` are stored over `start` one after the other.
   */
  ghost function JoinedTo(b: AstronomicalObject, start: map<string, AstronomicalObject>, made: seq<AstronomicalObject>)
    : (js: seq<AstronomicalObject>)
    ensures |js| <= |made|
    ensures forall o :: o in js ==> o in made && (o.kind == Satellite || o.kind == Ring)
    decreases |made|
  {
    if made == [] then []
    else
      var last := made[|made| - 1];
      JoinedTo(b, start, made[..|made| - 1]) + (if ParentIn(StoredAfter(start, made), last) == Some(b) then [last] else [])
  }

  /**
   * The bodies are those known `before` and the bodies `made`, which are
   * new and of type `kind`.
   */
  ghost predicate Grown(bodies: set<AstronomicalObject>, before: set<AstronomicalObject>,
                        made: seq<AstronomicalObject>, kind: BodyType)
  {
    before <= bodies && (forall b :: b in bodies ==> b in before || b in made) &&
    (forall j :: 0 <= j < |made| ==> made[j] in bodies && made[j] !in before && made[j].kind == kind)
  }

  /**
   * The bodies and the name map are what making the bodies `made` from
   * the first entries and storing them over `start` leaves.
   */
  ghost predicate Recorded(bodies: set<AstronomicalObject>, objects: map<string, AstronomicalObject>,
                           before: set<AstronomicalObject>, start: map<string, AstronomicalObject>,
                           entries: seq<BodyRecord>, made: seq<AstronomicalObject>, kind: BodyType)
  {
    Grown(bodies, before, made, kind) && MadeFrom(start, entries, made) && objects == StoredAfter(start, made)
  }

  /** One more body, made from the next entry and stored under its name. */
  lemma RecordedSnoc(bodies: set<AstronomicalObject>, objects: map<string, AstronomicalObject>,
                     before: set<AstronomicalObject>, start: map<string, AstronomicalObject>,
                     entries: seq<BodyRecord>, made: seq<AstronomicalObject>, kind: BodyType, o: AstronomicalObject)
    requires Recorded(bodies, objects, before, start, entries, made, kind)
    requires |made| < |entries| && o !in before && o.kind == kind && o.name == entries[|made|].name
    requires o.orbit.Some? ==> CentralResolved(entries[|made|], o, objects)
    ensures Recorded(bodies + {o}, objects[o.name := o], before, start, entries, made + [o], kind)
  {
    MadeFromSnoc(start, entries, made, o);
    StoredAfterSnoc(start, made, o);
  }

  /** The names stored are those of the start and of every body made. */
  lemma {:induction false} StoredAfterKeys(start: map<string, AstronomicalObject>, made: seq<AstronomicalObject>)
    ensures forall j :: 0 <= j < |made| ==> made[j].name in StoredAfter(start, made)
    ensures forall k :: k in start ==> k in StoredAfter(start, made)
    decreases |made|
  {
    if made != [] {
      StoredAfterKeys(start, made[..|made| - 1]);
    }
  }

  /** Storing one more body stores it under its name. */
  lemma StoredAfterSnoc(start: map<string, AstronomicalObject>, made: seq<AstronomicalObject>, o: AstronomicalObject)
    ensures StoredAfter(start, made + [o]) == StoredAfter(start, made)[o.name := o]
  {
    assert (made + [o])[..|made|] == made;
  }

  /** Storing two runs one after the other is storing their concatenation. */
  lemma {:induction false} StoredAfterAppend(start: map<string, AstronomicalObject>, a: seq<AstronomicalObject>, c: seq<AstronomicalObject>)
    ensures StoredAfter(start, a + c) == StoredAfter(StoredAfter(start, a), c)
    decreases |c|
  {
    if c == [] {
      assert a + c == a;
    } else {
      var c0 := c[..|c| - 1];
      assert (a + c)[..|a + c| - 1] == a + c0;
      StoredAfterAppend(start, a, c0);
    }
  }

  /** The satellites joining `b` over two runs are those of the first run, then those of the second. */
  lemma {:induction false} JoinedToAppend(b: AstronomicalObject, start: map<string, AstronomicalObject>,
                                          a: seq<AstronomicalObject>, c: seq<AstronomicalObject>)
    ensures JoinedTo(b, start, a + c) == JoinedTo(b, start, a) + JoinedTo(b, StoredAfter(start, a), c)
    decreases |c|
  {
    if c == [] {
      assert a + c == a;
    } else {
      var c0 := c[..|c| - 1];
      assert (a + c)[..|a + c| - 1] == a + c0;
      JoinedToAppend(b, start, a, c0);
      StoredAfterAppend(start, a, c);
    }
  }

  /** Every stored body was stored at the start or is one of the bodies made. */
  lemma {:induction false} StoredAfterValues(start: map<string, AstronomicalObject>, made: seq<AstronomicalObject>)
    ensures forall k :: k in StoredAfter(start, made) ==> StoredAfter(start, made)[k] in start.Values || StoredAfter(start, made)[k] in made
    decreases |made|
  {
    if made != [] {
      var init := made[..|made| - 1];
      StoredAfterValues(start, init);
      forall k | k in StoredAfter(start, made)
        ensures StoredAfter(start, made)[k] in start.Values || StoredAfter(start, made)[k] in made
      {
        if k != made[|made| - 1].name {
          var v := StoredAfter(start, init)[k];
          assert v in start.Values || v in init;
          assert v in init ==> v in made;
        }
      }
    }
  }

  /**
   * One more run of bodies made: a body whose satellites were `base` plus
   * those joined so far, and which then gained those joining in the run,
   * has `base` plus all that joined it.
   */
  lemma JoinedStep(b: AstronomicalObject, start: map<string, AstronomicalObject>, prev: seq<AstronomicalObject>,
                   step: seq<AstronomicalObject>, base: seq<AstronomicalObject>, was: seq<AstronomicalObject>,
                   now: seq<AstronomicalObject>)
    requires was == base + JoinedTo(b, start, prev)
    requires now == was + JoinedTo(b, StoredAfter(start, prev), step)
    ensures now == base + JoinedTo(b, start, prev + step)
  {
    JoinedToAppend(b, start, prev, step);
  }

  /** A body that was never stored gets no satellites. */
  lemma {:induction false} JoinedToStranger(b: AstronomicalObject, start: map<string, AstronomicalObject>, made: seq<AstronomicalObject>)
    requires b !in start.Values && b !in made
    ensures JoinedTo(b, start, made) == []
    decreases |made|
  {
    if made != [] {
      var init := made[..|made| - 1];
      assert b !in init;
      JoinedToStranger(b, start, init);
      StoredAfterValues(start, made);
    }
  }

  /** Bodies that are neither satellites nor rings join no one. */
  lemma {:induction false} JoinedToNone(b: AstronomicalObject, start: map<string, AstronomicalObject>, made: seq<AstronomicalObject>)
    requires forall j :: 0 <= j < |made| ==> made[j].kind != Satellite && made[j].kind != Ring
    ensures JoinedTo(b, start, made) == []
    decreases |made|
  {
    if made != [] {
      JoinedToNone(b, start, made[..|made| - 1]);
    }
  }

  /**
   * The bodies `made` came from the first entries, in order: each has its
   * entry's name, and a body with an orbit took its central object from
   * the names stored before it.
   */
  ghost predicate MadeFrom(start: map<string, AstronomicalObject>, entries: seq<BodyRecord>, made: seq<AstronomicalObject>)
    decreases |made|
  {
    |made| <= |entries| &&
    (made != [] ==>
       var n := |made| - 1;
       MadeFrom(start, entries, made[..n]) && made[n].name == entries[n].name &&
       (made[n].orbit.Some? ==> CentralResolved(entries[n], made[n], StoredAfter(start, made[..n]))))
  }

  /** Each body made has the name of its entry. */
  lemma {:induction false} MadeFromNames(start: map<string, AstronomicalObject>, entries: seq<BodyRecord>,
                                         made: seq<AstronomicalObject>)
    requires MadeFrom(start, entries, made)
    ensures forall j :: 0 <= j < |made| ==> made[j].name == entries[j].name
    decreases |made|
  {
    if made != [] {
      MadeFromNames(start, entries, made[..|made| - 1]);
    }
  }

  /** One more body made from the next entry. */
  lemma MadeFromSnoc(start: map<string, AstronomicalObject>, entries: seq<BodyRecord>,
                     made: seq<AstronomicalObject>, o: AstronomicalObject)
    requires MadeFrom(start, entries, made) && |made| < |entries| && o.name == entries[|made|].name
    requires o.orbit.Some? ==> CentralResolved(entries[|made|], o, StoredAfter(start, made))
    ensures MadeFrom(start, entries, made + [o])
  {
    assert (made + [o])[..|made|] == made;
  }

  /** The catalogue entries in loading order: the star, the planets, the satellites, then the rings. */
  function Catalogue(data: SystemRecord): (entries: seq<BodyRecord>)
  {
    [data.star] + data.planets + data.satellites + data.rings
  }

  /** The type of the body made from entry `j` of the catalogue. */
  function CatalogueKind(data: SystemRecord, j: nat): (kind: BodyType)
  {
    if j == 0 then Star
    else if j <= |data.planets| then Planet
    else if j <= |data.planets| + |data.satellites| then Satellite
    else Ring
  }

  /** Where each list of the catalogue sits in loading order. */
  lemma CatalogueSegments(data: SystemRecord)
    ensures var c, p, s := Catalogue(data), |data.planets|, |data.satellites|;
      |c| == 1 + p + s + |data.rings| && c[0] == data.star &&
      c[1..1 + p] == data.planets && c[1 + p..1 + p + s] == data.satellites && c[1 + p + s..] == data.rings
  {
  }

  /**
   * The planets, the satellites and the rings are consecutive segments of
   * the catalogue, each of its own type.
   */
  lemma CataloguePhase(data: SystemRecord, n: nat, segment: seq<BodyRecord>, kind: BodyType)
    requires (n == 1 && segment == data.planets && kind == Planet) ||
             (n == 1 + |data.planets| && segment == data.satellites && kind == Satellite) ||
             (n == 1 + |data.planets| + |data.satellites| && segment == data.rings && kind == Ring)
    ensures n + |segment| <= |Catalogue(data)| && Catalogue(data)[n..n + |segment|] == segment
    ensures forall j :: n <= j < n + |segment| ==> CatalogueKind(data, j) == kind
  {
    CatalogueSegments(data);
  }

  /** Bodies made from the next list of entries extend the record of what was made. */
  lemma {:induction false} MadeFromAppend(start: map<string, AstronomicalObject>, entries: seq<BodyRecord>, made: seq<AstronomicalObject>,
                       segment: seq<BodyRecord>, more: seq<AstronomicalObject>)
    requires MadeFrom(start, entries, made)
    requires |made| + |segment| <= |entries| && entries[|made|..|made| + |segment|] == segment
    requires MadeFrom(StoredAfter(start, made), segment, more)
    ensures MadeFrom(start, entries, made + more)
    decreases |more|
  {
    if more == [] {
      assert made + more == made;
    } else {
      var k := |more| - 1;
      MadeFromAppend(start, entries, made, segment, more[..k]);
      assert (made + more)[..|made| + k] == made + more[..k];
      StoredAfterAppend(start, made, more[..k]);
      assert entries[|made| + k] == segment[k];
    }
  }

  /** Bodies of the next list's type extend the catalogue's types. */
  lemma KindsAppend(data: SystemRecord, made: seq<AstronomicalObject>, more: seq<AstronomicalObject>, kind: BodyType)
    requires forall j :: 0 <= j < |made| ==> made[j].kind == CatalogueKind(data, j)
    requires forall j :: 0 <= j < |more| ==> more[j].kind == kind
    requires forall j :: |made| <= j < |made| + |more| ==> CatalogueKind(data, j) == kind
    ensures forall j :: 0 <= j < |made| + |more| ==> (made + more)[j].kind == CatalogueKind(data, j)
  {
  }

  /** When every entry was made, every catalogue name is stored. */
  lemma CatalogueNames(data: SystemRecord, made: seq<AstronomicalObject>)
    requires MadeFrom(map[], Catalogue(data), made) && |made| == |Catalogue(data)|
    ensures data.star.name in StoredAfter(map[], made)
    ensures forall i :: 0 <= i < |data.planets| ==> data.planets[i].name in StoredAfter(map[], made)
    ensures forall i :: 0 <= i < |data.satellites| ==> data.satellites[i].name in StoredAfter(map[], made)
    ensures forall i :: 0 <= i < |data.rings| ==> data.rings[i].name in StoredAfter(map[], made)
  {
    CatalogueSegments(data);
    StoredAfterKeys(map[], made);
    MadeFromNames(map[], Catalogue(data), made);
    var c, p, s := Catalogue(data), |data.planets|, |data.satellites|;
    assert made[0].name == data.star.name;
    forall i | 0 <= i < p ensures data.planets[i].name in StoredAfter(map[], made) {
      assert made[1 + i].name == c[1 + i].name == data.planets[i].name;
    }
    forall i | 0 <= i < s ensures data.satellites[i].name in StoredAfter(map[], made) {
      assert made[1 + p + i].name == c[1 + p + i].name == data.satellites[i].name;
    }
    forall i | 0 <= i < |data.rings| ensures data.rings[i].name in StoredAfter(map[], made) {
      assert made[1 + p + s + i].name == c[1 + p + s + i].name == data.rings[i].name;
    }
  }

  /** The children `after` keep `before` in front: panes are only ever appended to. */
  ghost predicate Extends(before: seq<Node>, after: seq<Node>)
  {
    before <= after
  }

  lemma ExtendsTransitive(a: seq<Node>, b: seq<Node>, c: seq<Node>)
    requires Extends(a, b) && Extends(b, c)
    ensures Extends(a, c)
  {
  }

  /** Every body of the list is known, and so is its central body if it has one. */
  ghost predicate ListedKnown(list: seq<AstronomicalObject>, known: set<AstronomicalObject>)
  {
    forall j :: 0 <= j < |list| ==>
      list[j] in known && (CentralOf(list[j]).Some? ==> CentralOf(list[j]).value in known)
  }

  /**
   * What the loop of buildHierarchy keeps after the first i bodies of the
   * list: each of them has its central body and hangs under it, and every
   * translation pane still begins with the children it had at the start.
   */
  ghost predicate AttachedUpTo(list: seq<AstronomicalObject>, i: nat, known: set<AstronomicalObject>,
                               start: map<AstronomicalObject, seq<Node>>)
    requires ListedKnown(list, known) && i <= |list|
    reads Members(list), Panes(known)
  {
    (forall j :: 0 <= j < i ==>
       Attached(list[j]) && (list[j].orbit.Some? ==> list[j].orbit.value.centralObject.Some?)) &&
    (forall b :: b in known ==> b in start && Extends(start[b], b.translationPane.children))
  }

  /**
   * One step of the loop in buildHierarchy: body i hangs its panes under
   * its central body, or raises NullPointerException when its orbit has no
   * central body; the bodies before it stay attached, and the translation
   * panes are only appended to.
   */
  method AttachToCentral(list: seq<AstronomicalObject>, i: nat, ghost known: set<AstronomicalObject>,
                         ghost start: map<AstronomicalObject, seq<Node>>)
    returns (r: Outcome<Exception>)
    requires ListedKnown(list, known) && i < |list|
    requires AttachedUpTo(list, i, known, start)
    modifies Panes(known)
    ensures r.Pass? ==> AttachedUpTo(list, i + 1, known, start)
    ensures r.Fail? ==> r.error == NullPointerException && list[i].orbit.Some? && list[i].orbit.value.centralObject.None?
    ensures forall b :: b in known ==> b in start && Extends(start[b], b.translationPane.children)
  {
    var o := list[i];
    assert o in known;
    r := o.BuildHierarchy();
    forall b | b in known ensures start[b] <= b.translationPane.children {
      assert Extends(old(b.translationPane.children), b.translationPane.children);
      ExtendsTransitive(start[b], old(b.translationPane.children), b.translationPane.children);
    }
    if r.Pass? {
      forall j | 0 <= j <= i ensures Attached(list[j]) {
        if j < i {
          assert old(Attached(list[j]));
        }
      }
    }
  }

  /**
   * The loop of buildHierarchy over a list of known bodies: each in turn
   * hangs its panes under its central body, until one has an orbit without
   * a central body.
   */
  method AttachAll(list: seq<AstronomicalObject>, ghost known: set<AstronomicalObject>,
                   ghost start: map<AstronomicalObject, seq<Node>>)
    returns (r: Outcome<Exception>, ghost failed: nat)
    requires ListedKnown(list, known)
    requires forall b :: b in known ==> b in start && Extends(start[b], b.translationPane.children)
    modifies Panes(known)
    ensures r.Fail? ==> (r.error == NullPointerException && failed < |list| &&
      list[failed].orbit.Some? && list[failed].orbit.value.centralObject.None?)
    ensures r.Pass? ==> forall j :: 0 <= j < |list| ==>
      Attached(list[j]) && (list[j].orbit.Some? ==> list[j].orbit.value.centralObject.Some?)
    ensures forall b :: b in known ==> b in start && Extends(start[b], b.translationPane.children)
  {
    r, failed := Pass, 0;
    var i := 0;
    while i < |list|
      invariant 0 <= i <= |list| && r == Pass
      invariant AttachedUpTo(list, i, known, start)
    {
      r := AttachToCentral(list, i, known, start);
      if r.Fail? {
        failed := i;
        return;
      }
      i := i + 1;
    }
  }

  /** One body's createOrbitalDelegate, as the loop in createOrbits sees it. */
  method CreateOrbitOf(o: AstronomicalObject, handler: AnimationHandler, host: Host, sqrt: real -> real)
    returns (r: Outcome<Exception>)
    requires handler.Valid()
    modifies o, o.inclinationPane, handler
    ensures handler.Valid() && o.satellites == old(o.satellites)
    ensures old(o.orbitalDelegate) != null ==> r == Fail(IllegalStateException) && o.orbitalDelegate == old(o.orbitalDelegate)
    ensures r.Pass? ==> old(o.orbitalDelegate) == null && (o.orbitalDelegate != null <==> o.HasOrbitPath())
  {
    r := o.CreateOrbitalDelegate(host, handler, sqrt);
  }

  /** The bodies of a list, as a set. */
  function Members(order: seq<AstronomicalObject>): (m: set<AstronomicalObject>)
    ensures forall j :: 0 <= j < |order| ==> order[j] in m
    ensures forall o :: o in m ==> o in order
  {
    set o | o in order
  }

  /**
   * The loop of createOrbits: each body in turn creates its orbital
   * delegate, until one fails. Bodies are listed once each.
   */
  method CreateOrbitsOf(order: seq<AstronomicalObject>, handler: AnimationHandler, host: Host, sqrt: real -> real)
    returns (r: Outcome<Exception>)
    requires handler.Valid() && Distinct(order)
    modifies handler, Members(order), Panes(Members(order))
    ensures handler.Valid()
    ensures forall j :: 0 <= j < |order| ==> order[j].satellites == old(order[j].satellites)
    ensures r.Pass? ==> forall j :: 0 <= j < |order| ==>
      old(order[j].orbitalDelegate) == null && (order[j].orbitalDelegate != null <==> order[j].HasOrbitPath())
  {
    r := Pass;
    var i := 0;
    while i < |order|
      invariant 0 <= i <= |order|
      invariant handler.Valid()
      invariant forall j :: 0 <= j < |order| ==> order[j].satellites == old(order[j].satellites)
      invariant forall j :: i <= j < |order| ==> order[j].orbitalDelegate == old(order[j].orbitalDelegate)
      invariant forall j :: 0 <= j < i ==>
        old(order[j].orbitalDelegate) == null && (order[j].orbitalDelegate != null <==> order[j].HasOrbitPath())
    {
      var o := order[i];
      r := CreateOrbitOf(o, handler, host, sqrt);
      if r.Fail? {
        return;
      }
      i := i + 1;
    }
  }

  /** The names of the bodies of a list, in list order. */
  function NameList(all: seq<AstronomicalObject>): (names: seq<string>)
    ensures |names| == |all|
    ensures forall j :: 0 <= j < |all| ==> names[j] == all[j].name
  {
    seq(|all|, j requires 0 <= j < |all| => all[j].name)
  }

  /**
   * Listing every stored body once lists every key once: the names of the
   * bodies are the keys of the map, without repeats.
   */
  lemma NameListCoversKeys(all: seq<AstronomicalObject>, objects: map<string, AstronomicalObject>)
    requires forall k :: k in objects ==> objects[k].name == k
    requires forall j :: 0 <= j < |all| ==> all[j] in objects.Values
    requires forall k :: k in objects ==> objects[k] in all
    requires Distinct(all)
    ensures forall j :: 0 <= j < |all| ==> NameList(all)[j] in objects
    ensures forall k :: k in objects ==> k in NameList(all)
    ensures Distinct(NameList(all))
  {
    var names := NameList(all);
    forall j | 0 <= j < |all| ensures names[j] in objects {
      assert all[j] in objects.Values;
      var k :| k in objects && objects[k] == all[j];
    }
    forall k | k in objects ensures k in names {
      var j :| 0 <= j < |all| && all[j] == objects[k];
      assert names[j] == k;
    }
    forall i, j | 0 <= i < j < |all| ensures names[i] != names[j] {
      assert all[i] in objects.Values && all[j] in objects.Values;
      var ki :| ki in objects && objects[ki] == all[i];
      var kj :| kj in objects && objects[kj] == all[j];
    }
  }

  /** The central body of `o`, if it has one. */
  function CentralOf(o: AstronomicalObject): (c: Option<AstronomicalObject>)
    ensures c.Some? <==> o.orbit.Some? && o.orbit.value.centralObject.Some?
  {
    if o.orbit.Some? then o.orbit.value.centralObject else None
  }

  /** The panes of `o` hang under its central body's translation pane. */
  ghost predicate Attached(o: AstronomicalObject)
    reads o, if CentralOf(o).Some? then {CentralOf(o).value.translationPane} else {}
  {
    CentralOf(o).Some? ==>
      var children := CentralOf(o).value.translationPane.children;
      PaneNode(o.inclinationPane) in children &&
      (o.orbitalDelegate != null ==> PaneNode(o.orbitalDelegate) in children)
  }
}
