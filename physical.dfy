// datamodel/PhysicalCharacteristics: the immutable physical record of a
// body and the builder that makes it.
module Physical {
  import opened Properties

  /** Radius in km, mass in Earth masses, rotation period in days, axial tilt in degrees. */
  datatype PhysicalCharacteristics = PhysicalCharacteristics(radius: real, mass: real, rotationPeriod: real, axialTilt: real)
  {
    /** getProperties: the four fields under their own names, in declaration order. */
    function GetProperties(): (p: PropertyMap)
      ensures p == [("radius", Number(radius)), ("mass", Number(mass)),
                    ("rotationPeriod", Number(rotationPeriod)), ("axialTilt", Number(axialTilt))]
      ensures UniqueKeys(p)
    {
      var entries := [("radius", Number(radius)), ("mass", Number(mass)),
                      ("rotationPeriod", Number(rotationPeriod)), ("axialTilt", Number(axialTilt))];
      PutAllFresh([], entries);
      PutAll([], entries)
    }
  }

  /** The record of a body without physical data: every field zero. */
  const ZERO: PhysicalCharacteristics := PhysicalCharacteristics(0.0, 0.0, 0.0, 0.0)

  /**
   * PhysicalCharacteristics.Builder: the radius is fixed when the builder
   * is made; the other fields start at zero and each setter returns the
   * builder itself.
   */
  class Builder {
    const radius: real
    var mass: real
    var rotationPeriod: real
    var axialTilt: real

    constructor(radius: real)
      ensures this.radius == radius && mass == 0.0 && rotationPeriod == 0.0 && axialTilt == 0.0
    {
      this.radius := radius;
      mass := 0.0;
      rotationPeriod := 0.0;
      axialTilt := 0.0;
    }

    method Mass(mass: real) returns (b: Builder)
      modifies this
      ensures b == this && this.mass == mass
      ensures rotationPeriod == old(rotationPeriod) && axialTilt == old(axialTilt)
    {
      this.mass := mass;
      b := this;
    }

    method RotationPeriod(rotationPeriod: real) returns (b: Builder)
      modifies this
      ensures b == this && this.rotationPeriod == rotationPeriod
      ensures mass == old(mass) && axialTilt == old(axialTilt)
    {
      this.rotationPeriod := rotationPeriod;
      b := this;
    }

    method AxialTilt(axialTilt: real) returns (b: Builder)
      modifies this
      ensures b == this && this.axialTilt == axialTilt
      ensures mass == old(mass) && rotationPeriod == old(rotationPeriod)
    {
      this.axialTilt := axialTilt;
      b := this;
    }

    /** build: a record holding exactly what was set (zero for what was not). */
    method Build() returns (p: PhysicalCharacteristics)
      ensures p.radius == radius && p.mass == mass
      ensures p.rotationPeriod == rotationPeriod && p.axialTilt == axialTilt
    {
      p := PhysicalCharacteristics(radius, mass, rotationPeriod, axialTilt);
    }
  }
}
