/**
 * `PlanetBase` (planetBase.cpp): a body whose location follows an
 * ephemeris.  The ephemeris is fixed at construction and is represented by
 * what the planet asks of it: the location at a time, the period and the
 * gravitational parameter.  Times are `float`s, so the clock may be set to
 * an infinite or NaN time; the ephemeris answers for those too.
 */
module PlanetBases {
  import opened Numerics
  import opened Floats

  class PlanetBase {
    /** `ephemerides->GetLocation(t)`. */
    const ephemeris: Flt -> Vec3
    /** `ephemerides->GetT()`. */
    const period: real
    /** The gravitational parameter `SetGravParam(ephemerides->GetGM())` stores. */
    const grav: real
    var time: Flt
    var location: Vec3

    /** The constructor sets the clock to 0 and takes the gravitational parameter from the ephemeris. */
    constructor (ephemeris: Flt -> Vec3, period: real, gm: real)
      ensures this.ephemeris == ephemeris && this.period == period && grav == gm
      ensures time == Fin(0.0) && location == ephemeris(Fin(0.0))
    {
      this.ephemeris := ephemeris;
      this.period := period;
      grav := gm;
      time := Fin(0.0);
      location := Zero;
      new;
      SetTime(Fin(0.0));
    }

    /** The copy a by-value member or local of a planet type makes. */
    constructor Copy(other: PlanetBase)
      ensures ephemeris == other.ephemeris && period == other.period && grav == other.grav
      ensures time == other.time && location == other.location
    {
      ephemeris := other.ephemeris;
      period := other.period;
      grav := other.grav;
      time := other.time;
      location := other.location;
    }

    /** Whether the stored location is the ephemeris' answer for the stored time. */
    predicate OnTime()
      reads this
    {
      location == ephemeris(time)
    }

    /** `SetTime`: the clock moves to `newTime` and the location is looked up for it. */
    method SetTime(newTime: Flt)
      modifies this
      ensures time == newTime && location == ephemeris(newTime)
      ensures OnTime()
    {
      time := newTime;
      location := ephemeris(time);
    }

    function GetTime(): Flt
      reads this
    {
      time
    }

    function GetLocation(): Vec3
      reads this
    {
      location
    }

    function GetPeriod(): real {
      period
    }

    function GetGravParam(): real {
      grav
    }
  }
}
