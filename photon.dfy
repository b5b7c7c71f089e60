/** The optical photon record of src/opticalPhoton.py: a mutable object whose
    fields the tracker updates in place. */
module OpticalPhoton {

  import opened RealMath

  class Photon {
    /** Position in um. */
    var position: Vec3
    /** Wavelength in nm. */
    var wavelength: real
    var momentumDir: Vec3
    var polarizationDir: Vec3
    /** Time in ns. */
    var time: real
    var traveledDistance: real
    var weight: real
    var volume: string
    var alive: bool

    /** `opticalPhoton.__init__` (opticalPhoton.py:25-73): every argument is stored as
        passed; the omitted ones default to time 0, distance 0, weight 1, volume
        'pillar' and alive. */
    constructor (position: Vec3, wavelength: real, momentumDirection: Vec3, polarizationDirection: Vec3,
                 time: real := 0.0, traveledDistance: real := 0.0, weight: real := 1.0,
                 volume: string := "pillar", alive: bool := true)
      ensures this.position == position && this.wavelength == wavelength
      ensures this.momentumDir == momentumDirection && this.polarizationDir == polarizationDirection
      ensures this.time == time && this.traveledDistance == traveledDistance && this.weight == weight
      ensures this.volume == volume && this.alive == alive
    {
      this.position := position;
      this.wavelength := wavelength;
      this.momentumDir := momentumDirection;
      this.polarizationDir := polarizationDirection;
      this.time := time;
      this.traveledDistance := traveledDistance;
      this.weight := weight;
      this.volume := volume;
      this.alive := alive;
    }
  }

  /** A photon built from the four required arguments carries the defaults. */
  method NewPhoton(position: Vec3, wavelength: real, momentumDirection: Vec3, polarizationDirection: Vec3)
    returns (p: Photon)
    ensures fresh(p)
    ensures p.position == position && p.wavelength == wavelength
    ensures p.momentumDir == momentumDirection && p.polarizationDir == polarizationDirection
    ensures p.time == 0.0 && p.traveledDistance == 0.0 && p.weight == 1.0
    ensures p.volume == "pillar" && p.alive
  {
    p := new Photon(position, wavelength, momentumDirection, polarizationDirection);
  }
}
