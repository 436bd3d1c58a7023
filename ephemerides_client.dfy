/**
 * The ephemeris connection interface (public/interfaces/ephemerides.hpp) and
 * `EphemeridesClient` (ephemeridesClient.cpp): a possibly missing connection
 * plus a time, NaN until set.  Every getter forwards the stored time to the
 * connection when both are present, and answers with zero otherwise.
 */
module Ephemerides {
  import opened Wrappers
  import opened Numerics

  /**
   * `IEphemerides`: what a connection answers for a time (the body's orbital
   * period, gravitational parameter, position, velocity, and both at once).
   */
  datatype Driver = Driver(
    T: real -> real,
    GM: real -> real,
    location: real -> Vec3,
    velocity: real -> Vec3,
    movement: real -> (Vec3, Vec3))

  /** A client can answer only with a connection and a time that is not NaN. */
  predicate Ready(conn: Option<Driver>, time: Option<real>) {
    conn.Some? && time.Some?
  }

  // The getters' answers for a connection and a time.

  function PeriodAt(conn: Option<Driver>, time: Option<real>): (r: real)
    ensures Ready(conn, time) ==> r == conn.value.T(time.value)
    ensures !Ready(conn, time) ==> r == 0.0
  {
    if Ready(conn, time) then conn.value.T(time.value) else 0.0
  }

  function GMAt(conn: Option<Driver>, time: Option<real>): (r: real)
    ensures Ready(conn, time) ==> r == conn.value.GM(time.value)
    ensures !Ready(conn, time) ==> r == 0.0
  {
    if Ready(conn, time) then conn.value.GM(time.value) else 0.0
  }

  function LocationAt(conn: Option<Driver>, time: Option<real>): (r: Vec3)
    ensures Ready(conn, time) ==> r == conn.value.location(time.value)
    ensures !Ready(conn, time) ==> r == Zero
  {
    if Ready(conn, time) then conn.value.location(time.value) else Zero
  }

  function VelocityAt(conn: Option<Driver>, time: Option<real>): (r: Vec3)
    ensures Ready(conn, time) ==> r == conn.value.velocity(time.value)
    ensures !Ready(conn, time) ==> r == Zero
  {
    if Ready(conn, time) then conn.value.velocity(time.value) else Zero
  }

  function MovementAt(conn: Option<Driver>, time: Option<real>): (r: (Vec3, Vec3))
    ensures Ready(conn, time) ==> r == conn.value.movement(time.value)
    ensures !Ready(conn, time) ==> r == (Zero, Zero)
  {
    if Ready(conn, time) then conn.value.movement(time.value) else (Zero, Zero)
  }

  /** Without a time, a client gives all-zero answers whatever its connection. */
  lemma UnsetTimeAnswersZero(conn: Option<Driver>)
    ensures PeriodAt(conn, None) == 0.0 && GMAt(conn, None) == 0.0
    ensures LocationAt(conn, None) == Zero && VelocityAt(conn, None) == Zero
    ensures MovementAt(conn, None) == (Zero, Zero)
  {
  }

  class EphemeridesClient {
    var conn: Option<Driver>
    /** `None` stands for the NaN the client starts with. */
    var time: Option<real>

    constructor (conn: Option<Driver>)
      ensures this.conn == conn && time == None
      ensures !IsValid()
    {
      this.conn := conn;
      time := None;
    }

    method SetTime(newTime: real)
      modifies this`time
      ensures time == Some(newTime) && conn == old(conn)
      ensures IsValid() <==> conn.Some?
    {
      time := Some(newTime);
    }

    method SetDriver(newConn: Option<Driver>)
      modifies this`conn
      ensures conn == newConn && time == old(time)
    {
      conn := newConn;
    }

    predicate IsValid()
      reads this
      ensures IsValid() <==> conn.Some? && time.Some?
    {
      Ready(conn, time)
    }

    function GetT(): (r: real)
      reads this
      ensures IsValid() ==> r == conn.value.T(time.value)
      ensures !IsValid() ==> r == 0.0
    {
      PeriodAt(conn, time)
    }

    function GetGM(): (r: real)
      reads this
      ensures IsValid() ==> r == conn.value.GM(time.value)
      ensures !IsValid() ==> r == 0.0
    {
      GMAt(conn, time)
    }

    function GetLocation(): (r: Vec3)
      reads this
      ensures IsValid() ==> r == conn.value.location(time.value)
      ensures !IsValid() ==> r == Zero
    {
      LocationAt(conn, time)
    }

    function GetVelocity(): (r: Vec3)
      reads this
      ensures IsValid() ==> r == conn.value.velocity(time.value)
      ensures !IsValid() ==> r == Zero
    {
      VelocityAt(conn, time)
    }

    function GetMovement(): (r: (Vec3, Vec3))
      reads this
      ensures IsValid() ==> r == conn.value.movement(time.value)
      ensures !IsValid() ==> r == (Zero, Zero)
    {
      MovementAt(conn, time)
    }
  }
}
