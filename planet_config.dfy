/**
 * The per-planet mission configuration (configs/planetConfig.hpp,
 * configs/planetConfig.cpp) and the time settings it is produced with
 * (configs/timeConfig.hpp).  A configured number is NaN until set, which
 * the model writes as `None`.  `ProduceNode` names the body, builds its
 * ephemeris script, discretises it, parses the node type and copies the
 * fields that type needs into the node, refusing the first one unset.
 */
module PlanetConfigs {
  import opened Wrappers
  import opened Text
  import opened Numerics
  import opened Ephemerides
  import opened PlanetScripts
  import opened PlanetNames
  import Nodes

  /** `TimeConfig`: the start date and the time settings, all numbers NaN by default. */
  datatype TimeConfig = TimeConfig(startDate: string, discretisation: Option<real>, chunkSize: Option<real>,
                                   t0: Option<real>, t1: Option<real>, dt: Option<real>)

  /** `PlanetConfig`: the body, the node type and the node's numbers. */
  datatype PlanetConfig = PlanetConfig(
    planet: string, nodeType: string,
    sphereRarius: Option<real>, parkingRadius: Option<real>, energyConstant: Option<real>,
    mismatchLimit: Option<real>, mismatch_a: Option<real>, mismatch_k: Option<real>,
    impulseLimit: Option<real>, impulse_a: Option<real>, impulse_k: Option<real>,
    kink_a: Option<real>, kink_k: Option<real>)

  /** A fresh `PlanetConfig`: the radii and the energy unset, the limits 0 and the shaping constants set. */
  function DefaultPlanetConfig(planet: string, nodeType: string): (c: PlanetConfig)
    ensures c.sphereRarius.None? && c.parkingRadius.None? && c.energyConstant.None?
    ensures c.mismatchLimit == Some(0.0) && c.impulseLimit == Some(0.0)
  {
    PlanetConfig(planet, nodeType, None, None, None,
                 Some(0.0), Some(1.0), Some(4.0), Some(0.0), Some(1.0), Some(4.0), Some(1.0), Some(1.0))
  }

  // ---------------------------------------------------------------- node types

  datatype ENodeType = eDeparture_Circular | eDeparture_Energy | eArrival_Circular | eArrival_Energy | eFlyBy

  /** The lower-case spelling of each node type. */
  function TypeSpelling(t: ENodeType): string {
    match t
    case eDeparture_Circular => "departure.circular"
    case eDeparture_Energy => "departure.energy"
    case eArrival_Circular => "arrival.circular"
    case eArrival_Energy => "arrival.energy"
    case eFlyBy => "flyby"
  }

  /** `GetNodeType(type)`: the type spelt by the lower-cased string, or an error naming it. */
  function GetNodeType(type_: string): (r: Result<ENodeType>)
    ensures r.Ok? ==> TypeSpelling(r.value) == ToLower(type_)
    ensures r.Err? <==> forall t :: TypeSpelling(t) != ToLower(type_)
    ensures r.Err? ==> r.error == "unexpected node type: " + ToLower(type_)
  {
    var t := ToLower(type_);
    if t == "departure.circular" then Ok(eDeparture_Circular)
    else if t == "departure.energy" then Ok(eDeparture_Energy)
    else if t == "arrival.circular" then Ok(eArrival_Circular)
    else if t == "arrival.energy" then Ok(eArrival_Energy)
    else if t == "flyby" then Ok(eFlyBy)
    else Err("unexpected node type: " + t)
  }

  /** Each type's spelling parses to that type. */
  lemma NodeTypeRoundTrip(t: ENodeType)
    ensures GetNodeType(TypeSpelling(t)) == Ok(t)
  {
    SpellingIsLower(t);
    ToLowerOfLower(TypeSpelling(t));
  }

  lemma SpellingIsLower(t: ENodeType)
    ensures IsLower(TypeSpelling(t))
  {
  }

  /** The node type is matched whatever its case. */
  lemma NodeTypeCaseInsensitive(type_: string)
    ensures GetNodeType(ToLower(type_)) == GetNodeType(type_)
  {
    ToLowerIdempotent(type_);
  }

  // ---------------------------------------------------------------- fields

  /** `Utiles::Check(val, name)`: a value that is set, or the error naming the field. */
  function Check(val: Option<real>, name: string): (r: Result<real>)
    ensures r.Ok? <==> val.Some?
    ensures r.Ok? ==> r.value == val.value
    ensures r.Err? ==> r.error == "field '" + name + "' must be set."
  {
    if val.Some? then Ok(val.value) else Err("field '" + name + "' must be set.")
  }

  /** The numeric fields a node may take from the configuration. */
  datatype Field = SphereRarius | ParkingRadius | EnergyConstant | MismatchLimit | Mismatch_a | Mismatch_k
                 | ImpulseLimit | Impulse_a | Impulse_k | Kink_a | Kink_k

  function Value(c: PlanetConfig, fd: Field): Option<real> {
    match fd
    case SphereRarius => c.sphereRarius
    case ParkingRadius => c.parkingRadius
    case EnergyConstant => c.energyConstant
    case MismatchLimit => c.mismatchLimit
    case Mismatch_a => c.mismatch_a
    case Mismatch_k => c.mismatch_k
    case ImpulseLimit => c.impulseLimit
    case Impulse_a => c.impulse_a
    case Impulse_k => c.impulse_k
    case Kink_a => c.kink_a
    case Kink_k => c.kink_k
  }

  function Spelling(fd: Field): string {
    match fd
    case SphereRarius => "sphereRarius"
    case ParkingRadius => "parkingRadius"
    case EnergyConstant => "energyConstant"
    case MismatchLimit => "mismatchLimit"
    case Mismatch_a => "mismatch_a"
    case Mismatch_k => "mismatch_k"
    case ImpulseLimit => "impulseLimit"
    case Impulse_a => "impulse_a"
    case Impulse_k => "impulse_k"
    case Kink_a => "kink_a"
    case Kink_k => "kink_k"
  }

  /** `PLAN_CONF_CHECK(field)`'s field name: the planet's name follows "Mission.Planets" directly. */
  function FieldName(planet: string, fd: Field): string {
    "Mission.Planets" + planet + "." + Spelling(fd)
  }

  /** The message for an unset field. */
  function Missing(c: PlanetConfig, fd: Field): string {
    "field '" + FieldName(c.planet, fd) + "' must be set."
  }

  /** The position of the first unset field, or the length when all are set. */
  function FirstUnset(c: PlanetConfig, fields: seq<Field>): (k: nat)
    ensures k <= |fields|
    ensures forall i :: 0 <= i < k ==> Value(c, fields[i]).Some?
    ensures k < |fields| ==> Value(c, fields[k]).None?
  {
    if fields == [] then 0
    else if Value(c, fields[0]).None? then 0
    else 1 + FirstUnset(c, fields[1..])
  }

  /**
   * The fields checked one after another: all their values when every one
   * is set, otherwise the error of the first unset one.
   */
  function CheckFields(c: PlanetConfig, fields: seq<Field>): (r: Result<seq<real>>)
    ensures r.Ok? <==> FirstUnset(c, fields) == |fields|
    ensures r.Ok? ==> |r.value| == |fields| && forall i :: 0 <= i < |fields| ==> r.value[i] == Value(c, fields[i]).value
    ensures r.Err? ==> r.error == Missing(c, fields[FirstUnset(c, fields)])
  {
    if fields == [] then Ok([])
    else
      var v := Check(Value(c, fields[0]), FieldName(c.planet, fields[0]));
      if v.Err? then Err(v.error)
      else
        var rest := CheckFields(c, fields[1..]);
        if rest.Err? then Err(rest.error) else Ok([v.value] + rest.value)
  }

  /** The fields each node type copies, in the order `ProduceNode` checks them. */
  function Required(t: ENodeType): seq<Field> {
    match t
    case eDeparture_Circular => [ParkingRadius, SphereRarius, ImpulseLimit, Impulse_a, Impulse_k]
    case eDeparture_Energy => [ParkingRadius, SphereRarius, EnergyConstant, ImpulseLimit, Impulse_a, Impulse_k]
    case eArrival_Circular => [ParkingRadius, SphereRarius, ImpulseLimit, Impulse_a, Impulse_k]
    case eArrival_Energy => [ParkingRadius, SphereRarius, EnergyConstant, ImpulseLimit, Impulse_a, Impulse_k]
    case eFlyBy => [SphereRarius, MismatchLimit, Mismatch_a, Mismatch_k, Kink_a, Kink_k]
  }

  /**
   * The `switch` of `ProduceNode`: the node of the configured type with the
   * configured values and the given ephemeris.  A fly-by's planet radius is
   * never set and stays 0.
   */
  function BuildNode(c: PlanetConfig, t: ENodeType, script: Driver): (r: Result<Nodes.Node>)
    ensures r.Ok? <==> FirstUnset(c, Required(t)) == |Required(t)|
    ensures r.Err? ==> r.error == Missing(c, Required(t)[FirstUnset(c, Required(t))])
    ensures r.Ok? ==> r.value.Script == Some(script)
    ensures r.Ok? ==> (r.value.Departure? <==> t in {eDeparture_Circular, eDeparture_Energy})
                      && (r.value.Arrival? <==> t in {eArrival_Circular, eArrival_Energy})
    ensures r.Ok? && !t.eFlyBy? ==>
              Value(c, ParkingRadius) == Some(r.value.ParkingRadius) && Value(c, SphereRarius) == Some(r.value.SphereRadius)
              && Value(c, ImpulseLimit) == Some(r.value.ImpulseLimit)
              && Value(c, Impulse_a) == Some(r.value.A_impulse) && Value(c, Impulse_k) == Some(r.value.K_impulse)
              && (t in {eDeparture_Energy, eArrival_Energy} <==> r.value.energy.EnergyDriven?)
              && (r.value.energy.EnergyDriven? ==> Value(c, EnergyConstant) == Some(r.value.energy.h))
    ensures r.Ok? && t.eFlyBy? ==>
              r.value.PlanetRadius == 0.0 && Value(c, SphereRarius) == Some(r.value.SphereRadius)
              && Value(c, MismatchLimit) == Some(r.value.MismatchLimit)
              && Value(c, Mismatch_a) == Some(r.value.A_mismatch) && Value(c, Mismatch_k) == Some(r.value.K_mismatch)
              && Value(c, Kink_a) == Some(r.value.A_kink) && Value(c, Kink_k) == Some(r.value.K_kink)
  {
    var v := CheckFields(c, Required(t));
    if v.Err? then Err(v.error)
    else
      var x := v.value;
      match t
      case eDeparture_Circular => Ok(Nodes.Departure(Some(script), x[0], x[1], x[2], x[3], x[4], Nodes.Circular))
      case eDeparture_Energy => Ok(Nodes.Departure(Some(script), x[0], x[1], x[3], x[4], x[5], Nodes.EnergyDriven(x[2])))
      case eArrival_Circular => Ok(Nodes.Arrival(Some(script), x[0], x[1], x[2], x[3], x[4], Nodes.Circular))
      case eArrival_Energy => Ok(Nodes.Arrival(Some(script), x[0], x[1], x[3], x[4], x[5], Nodes.EnergyDriven(x[2])))
      case eFlyBy => Ok(Nodes.FlyBy(Some(script), 0.0, x[0], x[1], x[2], x[3], x[4], x[5]))
  }

  /** The energy-driven variants need exactly the circular variant's fields and the energy. */
  lemma EnergyNeedsMore(c: PlanetConfig, script: Driver)
    ensures BuildNode(c, eDeparture_Energy, script).Ok?
            <==> BuildNode(c, eDeparture_Circular, script).Ok? && c.energyConstant.Some?
    ensures BuildNode(c, eArrival_Energy, script).Ok?
            <==> BuildNode(c, eArrival_Circular, script).Ok? && c.energyConstant.Some?
  {
    EnergyFields(c);
  }

  lemma EnergyFields(c: PlanetConfig)
    ensures FirstUnset(c, Required(eDeparture_Energy)) == 6
            <==> FirstUnset(c, Required(eDeparture_Circular)) == 5 && c.energyConstant.Some?
  {
    AllSet(c, Required(eDeparture_Energy));
    AllSet(c, Required(eDeparture_Circular));
    assert EnergyConstant in Required(eDeparture_Energy);
  }

  /** All fields are set exactly when the first unset one is past the end. */
  lemma AllSet(c: PlanetConfig, fields: seq<Field>)
    ensures FirstUnset(c, fields) == |fields| <==> forall fd :: fd in fields ==> Value(c, fd).Some?
  {
    if FirstUnset(c, fields) < |fields| {
      assert fields[FirstUnset(c, fields)] in fields;
    }
  }

  /**
   * A configuration that sets only the planet and the node type is refused
   * for every node type: the first field each type checks is among the
   * ones unset by default.
   */
  lemma DefaultsRefused(planet: string, nodeType: string, t: ENodeType, script: Driver)
    ensures var c := DefaultPlanetConfig(planet, nodeType);
            BuildNode(c, t, script) == Err(Missing(c, Required(t)[0]))
  {
  }

  // ---------------------------------------------------------------- producing the node

  /** `CreatePlanetScript(planetName, startDate)`: the script of the named body. */
  method CreatePlanetScript(planetName: string, startDate: string, spice: Spice) returns (r: Result<PlanetScript>)
    ensures r.Err? <==> GetPlanetName(planetName).Err?
    ensures r.Err? ==> r.error == GetPlanetName(planetName).error
    ensures r.Ok? ==> fresh(r.value) && r.value.Valid() && !r.value.IsDiscret()
    ensures r.Ok? ==> r.value.name == GetSPICEName(GetPlanetName(planetName).value) && r.value.spice == spice
    ensures r.Ok? ==> r.value.t0 == spice.absTime(startDate) && r.value.GM == spice.gm(r.value.name)
  {
    var planet := GetPlanetName(planetName);
    if planet.Err? {
      return Err(planet.error);
    }
    var script := new PlanetScript(planet.value, startDate, spice);
    r := Ok(script);
  }

  /** The discretisation settings `MakeDiscret` accepts; a NaN fails its positivity test. */
  predicate Discretisable(desk: TimeConfig) {
    desk.discretisation.Some? && desk.chunkSize.Some? && desk.discretisation.value > 0.0 && desk.chunkSize.value > 0.0
  }

  /**
   * The ephemeris of the body `name` counted from `start`, discretised with
   * blocks of `step`: its `GM` is the body's, and its state at a
   * non-negative time is the continuous state at the start of that time's
   * block.
   */
  ghost predicate DiscretisedEphemeris(d: Driver, spice: Spice, name: string, start: real, step: real)
    requires step > 0.0
  {
    forall time :: d.GM(time) == spice.gm(name)
      && (time >= 0.0 ==> d.movement(time) == spice.movement(name, start + Start(Index(time, step), step)))
  }

  /** A discretised script, seen as an ephemeris, answers with its blocks' starting states. */
  lemma DiscretisedScript(script: PlanetScript)
    requires script.Valid() && script.IsDiscret() && script.GM == script.spice.gm(script.name)
    ensures DiscretisedEphemeris(script.AsDriver(), script.spice, script.name, script.t0, script.stepSize)
  {
    var d := script.AsDriver();
    forall time ensures d.GM(time) == script.spice.gm(script.name)
      && (time >= 0.0 ==> d.movement(time) == script.spice.movement(script.name, script.t0 + Start(Index(time, script.stepSize), script.stepSize))) {
    }
  }

  /**
   * `PlanetConfig::ProduceNode(deskConf)`.  The errors come in the source's
   * order: the planet name, the discretisation, the node type, then the
   * first unset field.  The node's ephemeris is the body's discretised
   * script.
   */
  method ProduceNode(c: PlanetConfig, desk: TimeConfig, spice: Spice) returns (r: Result<Nodes.Node>)
    ensures GetPlanetName(c.planet).Err? ==> r == Err(GetPlanetName(c.planet).error)
    ensures GetPlanetName(c.planet).Ok? && !Discretisable(desk) ==> r == Err("steps and chunk sizes must be positive")
    ensures GetPlanetName(c.planet).Ok? && Discretisable(desk) && GetNodeType(c.nodeType).Err?
            ==> r == Err(GetNodeType(c.nodeType).error)
    ensures GetPlanetName(c.planet).Ok? && Discretisable(desk) && GetNodeType(c.nodeType).Ok?
            ==> var fields := Required(GetNodeType(c.nodeType).value);
                (r.Err? <==> FirstUnset(c, fields) < |fields|)
                && (r.Err? ==> r.error == Missing(c, fields[FirstUnset(c, fields)]))
    ensures r.Ok? ==> r.value.Script.Some? && r == BuildNode(c, GetNodeType(c.nodeType).value, r.value.Script.value)
    ensures r.Ok? ==> Discretisable(desk) && DiscretisedEphemeris(r.value.Script.value, spice, GetSPICEName(GetPlanetName(c.planet).value),
                                           spice.absTime(desk.startDate), desk.discretisation.value)
  {
    var created := CreatePlanetScript(c.planet, desk.startDate, spice);
    if created.Err? {
      return Err(created.error);
    }
    var script := created.value;
    if desk.discretisation.None? || desk.chunkSize.None? {
      return Err("steps and chunk sizes must be positive");
    }
    var made := script.MakeDiscret(desk.discretisation.value, desk.chunkSize.value);
    if made.Err? {
      return Err(made.error);
    }
    var t := GetNodeType(c.nodeType);
    if t.Err? {
      return Err(t.error);
    }
    var d := script.AsDriver();
    DiscretisedScript(script);
    r := BuildNode(c, t.value, d);
  }
}
