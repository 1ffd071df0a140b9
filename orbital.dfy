// datamodel/OrbitalCharacteristics: the immutable orbit record of a body
// and the builder that makes it. The record refers to the body it orbits;
// the type of that reference is a parameter so that this module does not
// depend on the body class.
module Orbital {
  import opened Wrappers
  import opened Properties

  /**
   * Distances in AU, period in days, speed in km/s, angles in degrees.
   * A null central object is None; a null epoch is None.
   */
  datatype OrbitalCharacteristics<Body> = OrbitalCharacteristics(
    centralObject: Option<Body>,
    aphelion: real,
    perihelion: real,
    semiMajorAxis: real,
    orbitalPeriod: real,
    averageOrbitalSpeed: real,
    inclination: real,
    longitudeOfAscendingNode: real,
    argumentOfPerihelion: real,
    epoch: Option<string>)
  {
    /**
     * getProperties: the central object's name and then the nine other
     * fields, in declaration order; the epoch is stored as it is, null
     * included. A missing central object throws NullPointerException.
     */
    function GetProperties(nameOf: Body -> string): (r: Result<PropertyMap, Exception>)
      ensures centralObject.None? <==> r == Failure(NullPointerException)
      ensures r.Success? ==> UniqueKeys(r.value) && r.value == [
        ("centralObject", Text(nameOf(centralObject.value))),
        ("aphelion", Number(aphelion)),
        ("perihelion", Number(perihelion)),
        ("semiMajorAxis", Number(semiMajorAxis)),
        ("orbitalPeriod", Number(orbitalPeriod)),
        ("averageOrbitalSpeed", Number(averageOrbitalSpeed)),
        ("inclination", Number(inclination)),
        ("longitudeOfAscendingNode", Number(longitudeOfAscendingNode)),
        ("argumentOfPerihelion", Number(argumentOfPerihelion)),
        ("epoch", if epoch.Some? then Text(epoch.value) else Null)]
    {
      match centralObject
      case None => Failure(NullPointerException)
      case Some(c) =>
        var entries := [
          ("centralObject", Text(nameOf(c))),
          ("aphelion", Number(aphelion)),
          ("perihelion", Number(perihelion)),
          ("semiMajorAxis", Number(semiMajorAxis)),
          ("orbitalPeriod", Number(orbitalPeriod)),
          ("averageOrbitalSpeed", Number(averageOrbitalSpeed)),
          ("inclination", Number(inclination)),
          ("longitudeOfAscendingNode", Number(longitudeOfAscendingNode)),
          ("argumentOfPerihelion", Number(argumentOfPerihelion)),
          ("epoch", if epoch.Some? then Text(epoch.value) else Null)];
        PutAllFresh([], entries);
        Success(PutAll([], entries))
    }
  }

  /**
   * OrbitalCharacteristics.Builder: the central object is fixed when the
   * builder is made (it may be null); the numbers start at zero, the epoch
   * at null, and each setter returns the builder itself.
   */
  class Builder<Body> {
    const centralObject: Option<Body>
    var aphelion: real
    var perihelion: real
    var semiMajorAxis: real
    var orbitalPeriod: real
    var averageOrbitalSpeed: real
    var inclination: real
    var longitudeOfAscendingNode: real
    var argumentOfPerihelion: real
    var epoch: Option<string>

    /** The record the builder currently describes. */
    function Current(): OrbitalCharacteristics<Body>
      reads this
    {
      OrbitalCharacteristics(centralObject, aphelion, perihelion, semiMajorAxis, orbitalPeriod,
                             averageOrbitalSpeed, inclination, longitudeOfAscendingNode,
                             argumentOfPerihelion, epoch)
    }

    constructor(centralObject: Option<Body>)
      ensures Current() == OrbitalCharacteristics(centralObject, 0.0, 0.0, 0.0, 0.0, 0.0, 0.0, 0.0, 0.0, None)
    {
      this.centralObject := centralObject;
      aphelion := 0.0;
      perihelion := 0.0;
      semiMajorAxis := 0.0;
      orbitalPeriod := 0.0;
      averageOrbitalSpeed := 0.0;
      inclination := 0.0;
      longitudeOfAscendingNode := 0.0;
      argumentOfPerihelion := 0.0;
      epoch := None;
    }

    method Aphelion(aphelion: real) returns (b: Builder<Body>)
      modifies this
      ensures b == this && Current() == old(Current()).(aphelion := aphelion)
    {
      this.aphelion := aphelion;
      b := this;
    }

    method Perihelion(perihelion: real) returns (b: Builder<Body>)
      modifies this
      ensures b == this && Current() == old(Current()).(perihelion := perihelion)
    {
      this.perihelion := perihelion;
      b := this;
    }

    method SemiMajorAxis(semiMajorAxis: real) returns (b: Builder<Body>)
      modifies this
      ensures b == this && Current() == old(Current()).(semiMajorAxis := semiMajorAxis)
    {
      this.semiMajorAxis := semiMajorAxis;
      b := this;
    }

    method OrbitalPeriod(orbitalPeriod: real) returns (b: Builder<Body>)
      modifies this
      ensures b == this && Current() == old(Current()).(orbitalPeriod := orbitalPeriod)
    {
      this.orbitalPeriod := orbitalPeriod;
      b := this;
    }

    method AverageOrbitalSpeed(averageOrbitalSpeed: real) returns (b: Builder<Body>)
      modifies this
      ensures b == this && Current() == old(Current()).(averageOrbitalSpeed := averageOrbitalSpeed)
    {
      this.averageOrbitalSpeed := averageOrbitalSpeed;
      b := this;
    }

    method Inclination(inclination: real) returns (b: Builder<Body>)
      modifies this
      ensures b == this && Current() == old(Current()).(inclination := inclination)
    {
      this.inclination := inclination;
      b := this;
    }

    method LongitudeOfAscendingNode(longitudeOfAscendingNode: real) returns (b: Builder<Body>)
      modifies this
      ensures b == this && Current() == old(Current()).(longitudeOfAscendingNode := longitudeOfAscendingNode)
    {
      this.longitudeOfAscendingNode := longitudeOfAscendingNode;
      b := this;
    }

    method ArgumentOfPerihelion(argumentOfPerihelion: real) returns (b: Builder<Body>)
      modifies this
      ensures b == this && Current() == old(Current()).(argumentOfPerihelion := argumentOfPerihelion)
    {
      this.argumentOfPerihelion := argumentOfPerihelion;
      b := this;
    }

    method Epoch(epoch: Option<string>) returns (b: Builder<Body>)
      modifies this
      ensures b == this && Current() == old(Current()).(epoch := epoch)
    {
      this.epoch := epoch;
      b := this;
    }

    /** build: a record holding every field exactly as set. */
    method Build() returns (o: OrbitalCharacteristics<Body>)
      ensures o.centralObject == centralObject && o.aphelion == aphelion && o.perihelion == perihelion
      ensures o.semiMajorAxis == semiMajorAxis && o.orbitalPeriod == orbitalPeriod
      ensures o.averageOrbitalSpeed == averageOrbitalSpeed && o.inclination == inclination
      ensures o.longitudeOfAscendingNode == longitudeOfAscendingNode
      ensures o.argumentOfPerihelion == argumentOfPerihelion && o.epoch == epoch
    {
      o := OrbitalCharacteristics(centralObject, aphelion, perihelion, semiMajorAxis, orbitalPeriod,
                                  averageOrbitalSpeed, inclination, longitudeOfAscendingNode,
                                  argumentOfPerihelion, epoch);
    }
  }
}
