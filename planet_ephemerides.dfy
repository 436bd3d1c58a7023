/**
 * `PlanetEphemerides` (planetEphemerides.cpp): the ephemeris of a body of
 * the solar system read from the SPICE kernels.  The name and primary-body
 * tables are modelled exactly; the SPICE library is represented by what the
 * class asks of it (`RawSpice`), in the library's own units, and the class
 * scales kilometres to metres.  `GetLocation` reads entries 1 to 3 of the
 * six-entry state, which are `y`, `z` and the velocity's `x`; an
 * ephemeris built with `asWritten` does that, one built without it reads
 * the position, entries 0 to 2.
 */
module PlanetEphemeris {
  import opened Wrappers
  import opened Numerics

  /** `EPlanet` of planets.hpp. */
  datatype EPlanet = NotAPlant | Sun | Mercury | Venus | Earth | Moon | Mars | Jupter

  /** The six entries `spkezr_c` writes: the position in km, then the velocity in km/s. */
  type State = s: seq<real> | |s| == 6 witness [0.0, 0.0, 0.0, 0.0, 0.0, 0.0]

  function PositionOf(st: State): Vec3 {
    Vec3(st[0], st[1], st[2])
  }

  function VelocityOf(st: State): Vec3 {
    Vec3(st[3], st[4], st[5])
  }

  function KmToM(v: Vec3): Vec3 {
    Vec3(v.x * 1000.0, v.y * 1000.0, v.z * 1000.0)
  }

  /**
   * The SPICE queries: the ephemeris time of a date string (`str2et_c`), a
   * body's state (`spkezr_c`, relative to the barycentre in J2000), its GM
   * in km^3/s^2 (`bodvrd_c`) and the orbital period `oscltx_c` gives for a
   * body about a primary at a time.
   */
  datatype RawSpice = RawSpice(absTime: string -> real, state: (string, real) -> State,
                         gm: string -> real, period: (string, string, real) -> real)

  /** `SPICE::GetLocation`: entries 1 to 3 of the state as written, the position as intended, in metres. */
  function LocationOf(st: State, asWritten: bool): Vec3 {
    if asWritten then KmToM(Vec3(st[1], st[2], st[3])) else KmToM(PositionOf(st))
  }

  /** As written, the location is the position's `y` and `z` followed by the velocity's `x`. */
  lemma LocationAsWritten(st: State)
    ensures var r := LocationOf(st, true);
            r.x == PositionOf(st).y * 1000.0 && r.y == PositionOf(st).z * 1000.0 && r.z == VelocityOf(st).x * 1000.0
  {
  }

  /** Corrected, the location is the position in metres, and scaling back gives the kernel position. */
  lemma LocationCorrected(st: State)
    ensures var r := LocationOf(st, false);
            Vec3(r.x / 1000.0, r.y / 1000.0, r.z / 1000.0) == PositionOf(st)
  {
  }

  /** A body at (1, 2, 3) km moving at (4, 5, 6) km/s is placed at (2, 3, 4) km as written. */
  lemma LocationSlip()
    ensures LocationOf([1.0, 2.0, 3.0, 4.0, 5.0, 6.0], true) == Vec3(2000.0, 3000.0, 4000.0)
    ensures LocationOf([1.0, 2.0, 3.0, 4.0, 5.0, 6.0], false) == Vec3(1000.0, 2000.0, 3000.0)
  {
  }

  const Unsupported: string := "Unsupported planet"

  /** `EPlanet2SPICE`: the kernel name of a body; every value but `eNotAPlant` has one. */
  function EPlanet2SPICE(p: EPlanet): (r: Result<string>)
    ensures r.Err? <==> p == NotAPlant
    ensures r.Err? ==> r.error == Unsupported
    ensures r.Ok? ==> SpiceBody(r.value) == Some(p)
  {
    match p
    case NotAPlant => Err(Unsupported)
    case Sun => Ok("Sun")
    case Mercury => Ok("Mercury")
    case Venus => Ok("Venus")
    case Earth => Ok("Earth")
    case Moon => Ok("Moon")
    case Mars => Ok("Mars")
    case Jupter => Ok("Jupiter")
  }

  /** The body a kernel name stands for, the inverse of `EPlanet2SPICE`. */
  function SpiceBody(name: string): Option<EPlanet> {
    if name == "Sun" then Some(Sun)
    else if name == "Mercury" then Some(Mercury)
    else if name == "Venus" then Some(Venus)
    else if name == "Earth" then Some(Earth)
    else if name == "Moon" then Some(Moon)
    else if name == "Mars" then Some(Mars)
    else if name == "Jupiter" then Some(Jupter)
    else None
  }

  /** Every kernel name `SpiceBody` knows is the one `EPlanet2SPICE` gives, so no two bodies share a name. */
  lemma SpiceNamesRoundTrip(name: string)
    ensures SpiceBody(name).Some? ==> EPlanet2SPICE(SpiceBody(name).value) == Ok(name)
  {
  }

  /** `GetPrimaryBody`: the Sun has none, the Moon circles the Earth and every planet the Sun. */
  function GetPrimaryBody(p: EPlanet): (r: Result<EPlanet>)
    ensures r.Err? <==> p == NotAPlant
    ensures r.Err? ==> r.error == Unsupported
    ensures r.Ok? ==> (r.value == NotAPlant <==> p == Sun)
    ensures r.Ok? ==> (r.value == Earth <==> p == Moon)
    ensures r.Ok? && p != Sun && p != Moon ==> r.value == Sun
  {
    match p
    case NotAPlant => Err(Unsupported)
    case Sun => Ok(NotAPlant)
    case Moon => Ok(Earth)
    case _ => Ok(Sun)
  }

  /** Following primaries from any body reaches the Sun in at most two steps, and the Sun's primary has no name. */
  lemma PrimariesReachSun(p: EPlanet)
    requires p != NotAPlant && p != Sun
    ensures var q := GetPrimaryBody(p).value;
            q == Sun || GetPrimaryBody(q) == Ok(Sun)
    ensures EPlanet2SPICE(GetPrimaryBody(Sun).value).Err?
  {
  }

  class PlanetEphemerides {
    const spice: RawSpice
    const name: string
    const primaryBody: string
    const timeRoot: real
    const T: real
    const GM: real
    const asWritten: bool

    /** The field setup once the names are known: the period about the primary at `timeRoot`, and GM in m^3/s^2. */
    constructor Init(spice: RawSpice, name: string, primaryBody: string, absTime: string, asWritten: bool)
      ensures this.spice == spice && this.name == name && this.primaryBody == primaryBody
      ensures this.asWritten == asWritten
      ensures timeRoot == spice.absTime(absTime)
      ensures T == spice.period(name, primaryBody, timeRoot)
      ensures GM == spice.gm(name) * 1000000000.0
    {
      this.spice := spice;
      this.name := name;
      this.primaryBody := primaryBody;
      timeRoot := spice.absTime(absTime);
      T := spice.period(name, primaryBody, spice.absTime(absTime));
      GM := spice.gm(name) * 1000000000.0;
      this.asWritten := asWritten;
    }

    /** `GetLocation`: the body's location at `time`, in metres. */
    function GetLocation(time: real): (r: Vec3)
      ensures !asWritten ==> r == KmToM(PositionOf(spice.state(name, time)))
      ensures asWritten ==> r == KmToM(Vec3(PositionOf(spice.state(name, time)).y, PositionOf(spice.state(name, time)).z,
                                            VelocityOf(spice.state(name, time)).x))
    {
      LocationOf(spice.state(name, time), asWritten)
    }

    function GetGM(): (r: real)
      ensures r == GM
    {
      GM
    }

    function GetT(): (r: real)
      ensures r == T
    {
      T
    }
  }

  /**
   * The constructor `PlanetEphemerides(planetName, absTime)`: it throws
   * "Unsupported planet" for `eNotAPlant`, whose name is missing, and for
   * the Sun, whose primary `eNotAPlant` has none; otherwise it stores both
   * names, and the period and GM the kernels give.
   */
  method New(spice: RawSpice, planetName: EPlanet, absTime: string, asWritten: bool) returns (r: Result<PlanetEphemerides>)
    ensures r.Err? <==> planetName == NotAPlant || planetName == Sun
    ensures r.Err? ==> r.error == Unsupported
    ensures r.Ok? ==> var e := r.value;
                      && fresh(e) && e.spice == spice && e.asWritten == asWritten
                      && EPlanet2SPICE(planetName) == Ok(e.name)
                      && EPlanet2SPICE(GetPrimaryBody(planetName).value) == Ok(e.primaryBody)
                      && e.GetT() == spice.period(e.name, e.primaryBody, spice.absTime(absTime))
                      && e.GetGM() == spice.gm(e.name) * 1000000000.0
  {
    var name := EPlanet2SPICE(planetName);
    if name.Err? {
      return Err(name.error);
    }
    // `GetPrimaryBody` throws only for `eNotAPlant`, which the name lookup has already refused.
    var parent := GetPrimaryBody(planetName).value;
    var primaryBody := EPlanet2SPICE(parent);
    if primaryBody.Err? {
      return Err(primaryBody.error);
    }
    var e := new PlanetEphemerides.Init(spice, name.value, primaryBody.value, absTime, asWritten);
    return Ok(e);
  }

  /** A body's ephemeris can be built exactly when it has a primary with a name: any planet or the Moon. */
  lemma ConstructibleBodies(p: EPlanet)
    ensures (EPlanet2SPICE(p).Ok? && GetPrimaryBody(p).Ok? && EPlanet2SPICE(GetPrimaryBody(p).value).Ok?)
            <==> p in {Mercury, Venus, Earth, Moon, Mars, Jupter}
  {
  }
}
