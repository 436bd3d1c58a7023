/**
 * `PlanetScript` (planetScript.cpp): a body of the solar system read from the
 * SPICE ephemerides, with an optional discretised cache.  Once `MakeDiscret`
 * has fixed a step size and a chunk size, the getters answer from a map of
 * chunks, each chunk a map from block numbers to the movement (position and
 * velocity) at the block's time; a missing chunk is filled on first use.
 *
 * The SPICE library is not modelled: its answers are the fields of a `Spice`
 * value handed to the constructor.
 */
module PlanetScripts {
  import opened Wrappers
  import opened Numerics
  import opened Ephemerides

  datatype EPlanet = ENone | Sun | Mercury | Venus | Earth | Moon | Mars | Jupter

  /** `utiles::GetSPICEName`: the body's name in the SPICE kernels. */
  function GetSPICEName(p: EPlanet): (r: string)
    ensures r == "" <==> p == ENone
  {
    match p
    case ENone => ""
    case Sun => "Sun"
    case Mercury => "Mercury"
    case Venus => "Venus"
    case Earth => "Earth"
    case Moon => "Moon"
    case Mars => "Mars"
    case Jupter => "Jupiter"
  }

  /** No two bodies share a SPICE name. */
  lemma SPICENameInjective(p: EPlanet, q: EPlanet)
    requires GetSPICEName(p) == GetSPICEName(q)
    ensures p == q
  {
  }

  /** `utiles::GetCenterBody`: the body this one orbits; `ENone` has none and throws. */
  function GetCenterBody(p: EPlanet): (r: Result<EPlanet>)
    ensures r.Err? <==> p == ENone
    ensures r.Ok? ==> (r.value == ENone <==> p == Sun)
    ensures r.Ok? ==> (r.value == Earth <==> p == Moon)
    ensures r.Ok? && p != Sun && p != Moon ==> r.value == Sun
  {
    match p
    case ENone => Err("Unsupported planet")
    case Sun => Ok(ENone)
    case Moon => Ok(Earth)
    case _ => Ok(Sun)
  }

  /** Following the centres from any body reaches the Sun in at most two steps (the Sun's own centre is the unset value). */
  lemma CentersReachSun(p: EPlanet)
    requires p != ENone
    ensures var c := GetCenterBody(p).value;
            c == ENone || c == Sun || (c == Earth && GetCenterBody(c).value == Sun)
  {
  }

  /** A position and a velocity. */
  type MovState = (Vec3, Vec3)

  /**
   * What the SPICE singleton answers: the ephemeris time of a date, a body's
   * gravitational parameter, its orbital period about a primary at a time, and
   * its movement at an ephemeris time (in SI units once scaled).
   */
  datatype Spice = Spice(
    absTime: string -> real,
    gm: string -> real,
    period: (string, string, real) -> real,
    movement: (string, real) -> MovState)

  /** The start `k·size` of the k-th interval of a given size, by repeated addition. */
  function Start(k: nat, size: real): real {
    if k == 0 then 0.0 else Start(k - 1, size) + size
  }

  lemma {:induction false} StartIsProduct(k: nat, size: real)
    ensures Start(k, size) == k as real * size
  {
    if k > 0 {
      StartIsProduct(k - 1, size);
      assert (k - 1) as real * size + size == k as real * size;
    }
  }

  lemma {:induction false} StartMonotone(j: nat, k: nat, size: real)
    requires j <= k && size > 0.0
    ensures Start(j, size) <= Start(k, size)
    decreases k - j
  {
    if j < k {
      StartMonotone(j, k - 1, size);
    }
  }

  /** Starts come in the order of their numbers. */
  lemma StartOrder(i: nat, m: nat, size: real)
    requires size > 0.0
    ensures Start(i, size) < Start(m, size) ==> i < m
  {
    if m <= i {
      StartMonotone(m, i, size);
    }
  }

  /** `UInt64(time / size)` for a non-negative time: the number of whole sizes in it. */
  function Index(time: real, size: real): (k: nat)
    requires time >= 0.0 && size > 0.0
    ensures Start(k, size) <= time < Start(k, size) + size
  {
    FloorScaled(time, size);
    StartIsProduct((time / size).Floor, size);
    (time / size).Floor
  }

  /** Between the floor of a quotient and the next integer, scaled back. */
  lemma FloorScaled(time: real, size: real)
    requires size > 0.0
    ensures time >= 0.0 ==> (time / size).Floor >= 0
    ensures (time / size).Floor as real * size <= time < (time / size).Floor as real * size + size
  {
    var q := time / size;
    DivTimes(time, size);
    ScaleOrder(q, 0.0, size);
    BetweenMultiples(q, q.Floor as real, size, time);
  }

  /** A value between two consecutive whole numbers, scaled, lies between the scaled whole numbers. */
  lemma BetweenMultiples(q: real, f: real, size: real, time: real)
    requires size > 0.0 && q * size == time && f <= q < f + 1.0
    ensures f * size <= time < f * size + size
  {
    LowerMultiple(q, f, size, time);
    UpperMultiple(q, f, size, time);
  }

  lemma LowerMultiple(q: real, f: real, size: real, time: real)
    requires size > 0.0 && q * size == time && f <= q
    ensures f * size <= time
  {
    if f < q {
      ScaleOrder(f, q, size);
    }
  }

  lemma UpperMultiple(q: real, f: real, size: real, time: real)
    requires size > 0.0 && q * size == time && q < f + 1.0
    ensures time < f * size + size
  {
    ScaleOrder(q, f + 1.0, size);
    assert (f + 1.0) * size == f * size + size;
  }

  /** The number of whole sizes grows with the time. */
  lemma IndexMonotone(a: real, b: real, size: real)
    requires 0.0 <= a <= b && size > 0.0
    ensures Index(a, size) <= Index(b, size)
  {
    StartOrder(Index(a, size), Index(b, size) + 1, size);
  }

  /** How many blocks from `N` on still start before `t1`. */
  function BlocksLeft(N: nat, s: real, t1: real): nat
    requires s > 0.0
  {
    StepsLeft(Start(N, s), t1, s)
  }

  /** The next block leaves one block fewer before `t1`. */
  lemma BlockStep(N: nat, M: nat, s: real, t1: real)
    requires s > 0.0 && Start(N, s) < t1 && M == N + 1
    ensures BlocksLeft(M, s, t1) < BlocksLeft(N, s, t1)
  {
    StepsLeftStep(Start(N, s), t1, s);
    assert Start(M, s) == Start(N, s) + s;
  }

  /**
   * The blocks `N, N + 1, ...` that start before `t1`, each holding the
   * movement at its own start, written over `acc`.
   */
  function FillBlocks(mov: real -> MovState, s: real, t1: real, N: nat, acc: map<nat, MovState>)
    : map<nat, MovState>
    requires s > 0.0
    decreases BlocksLeft(N, s, t1)
  {
    if Start(N, s) < t1 then
      BlockStep(N, N + 1, s, t1);
      FillBlocks(mov, s, t1, N + 1, acc[N := mov(Start(N, s))])
    else acc
  }

  /** One turn of the filling loop. */
  lemma FillBlocksUnfold(mov: real -> MovState, s: real, t1: real, N: nat, acc: map<nat, MovState>)
    requires s > 0.0 && Start(N, s) < t1
    ensures FillBlocks(mov, s, t1, N, acc) == FillBlocks(mov, s, t1, N + 1, acc[N := mov(Start(N, s))])
  {
  }

  lemma FillBlocksDone(mov: real -> MovState, s: real, t1: real, N: nat, acc: map<nat, MovState>)
    requires s > 0.0 && !(Start(N, s) < t1)
    ensures FillBlocks(mov, s, t1, N, acc) == acc
  {
  }

  /** Block `k` is filled by a loop that starts at block `N` and stops at time `t1`. */
  predicate Due(k: nat, N: nat, s: real, t1: real) {
    N <= k && Start(k, s) < t1
  }

  lemma {:induction false} FillBlocksContents(mov: real -> MovState, s: real, t1: real, N: nat,
                                              acc: map<nat, MovState>)
    requires s > 0.0
    ensures var r := FillBlocks(mov, s, t1, N, acc);
            forall k: nat :: (k in r <==> k in acc || Due(k, N, s, t1))
                        && (k in r ==> r[k] == if Due(k, N, s, t1) then mov(Start(k, s)) else acc[k])
    decreases BlocksLeft(N, s, t1)
  {
    if Start(N, s) < t1 {
      BlockStep(N, N + 1, s, t1);
      var acc' := acc[N := mov(Start(N, s))];
      FillBlocksContents(mov, s, t1, N + 1, acc');
      var r := FillBlocks(mov, s, t1, N, acc);
      assert r == FillBlocks(mov, s, t1, N + 1, acc');
      forall k: nat
        ensures (k in r <==> k in acc || Due(k, N, s, t1))
        ensures k in r ==> r[k] == if Due(k, N, s, t1) then mov(Start(k, s)) else acc[k]
      {
        if k != N {
          assert Due(k, N, s, t1) == Due(k, N + 1, s, t1);
          if k in acc { assert acc'[k] == acc[k]; }
        } else {
          assert Due(k, N, s, t1) && !Due(k, N + 1, s, t1);
        }
      }
    } else {
      forall k: nat | N <= k ensures !Due(k, N, s, t1) {
        StartMonotone(N, k, s);
      }
    }
  }

  /** `AddChunk(n)` as intended: every block that starts within chunk `n`, at its own start. */
  function Blocks(mov: real -> MovState, s: real, c: real, n: nat): map<nat, MovState>
    requires s > 0.0 && c > 0.0
  {
    StartMonotone(0, n, c);
    FillBlocks(mov, s, Start(n, c) + c, Index(Start(n, c), s), map[])
  }

  /**
   * Every time of chunk `n` finds its block in the chunk, and the block holds
   * the movement at the start of the block.
   */
  lemma BlocksCover(mov: real -> MovState, s: real, c: real, time: real)
    requires s > 0.0 && c > 0.0 && time >= 0.0
    ensures var b := Index(time, s);
            var ch := Blocks(mov, s, c, Index(time, c));
            b in ch && ch[b] == mov(Start(b, s))
  {
    var n := Index(time, c);
    StartMonotone(0, n, c);
    IndexMonotone(Start(n, c), time, s);
    FillBlocksContents(mov, s, Start(n, c) + c, Index(Start(n, c), s), map[]);
  }

  /**
   * The loop of `AddChunk` as written: `ti` starts at the chunk's first time
   * and the counter `N` at the block of that time, and both advance together,
   * so block `N` receives the movement at `ti`, which need not be its start.
   */
  function FillAsWritten(mov: real -> MovState, s: real, ti: real, t1: real, N: nat, acc: map<nat, MovState>)
    : map<nat, MovState>
    requires s > 0.0
    decreases StepsLeft(ti, t1, s)
  {
    if ti < t1 then
      StepsLeftStep(ti, t1, s);
      FillAsWritten(mov, s, ti + s, t1, N + 1, acc[N := mov(ti)])
    else acc
  }

  function ChunkAsWritten(mov: real -> MovState, s: real, c: real, n: nat): map<nat, MovState>
    requires s > 0.0 && c > 0.0
  {
    StartMonotone(0, n, c);
    FillAsWritten(mov, s, Start(n, c), Start(n, c) + c, Index(Start(n, c), s), map[])
  }

  /** A block's start lies in that block. */
  lemma IndexAtStart(k: nat, size: real)
    requires size > 0.0
    ensures 0.0 <= Start(k, size)
    ensures Index(Start(k, size), size) == k
  {
    StartMonotone(0, k, size);
    var i := Index(Start(k, size), size);
    StartOrder(i, k + 1, size);
    StartOrder(k, i + 1, size);
  }

  /** The start of chunk `n` of `m` steps is the start of block `n·m`. */
  lemma StartScaled(n: nat, m: nat, s: real)
    ensures Start(n, m as real * s) == Start(n * m, s)
  {
    StartIsProduct(n, m as real * s);
    StartIsProduct(n * m, s);
    assert (n * m) as real == n as real * m as real;
  }

  /** Started at a block's start, the loop as written fills the blocks as intended. */
  lemma {:induction false} FillAsWrittenAligned(mov: real -> MovState, s: real, t1: real, N: nat, acc: map<nat, MovState>)
    requires s > 0.0
    ensures FillAsWritten(mov, s, Start(N, s), t1, N, acc) == FillBlocks(mov, s, t1, N, acc)
    decreases BlocksLeft(N, s, t1)
  {
    if Start(N, s) < t1 {
      BlockStep(N, N + 1, s, t1);
      FillAsWrittenAligned(mov, s, t1, N + 1, acc[N := mov(Start(N, s))]);
      assert Start(N + 1, s) == Start(N, s) + s;
    }
  }

  /** When a chunk is a whole number `m` of steps, the chunk as written is the intended one. */
  lemma ChunkAligned(mov: real -> MovState, s: real, m: nat, n: nat)
    requires s > 0.0 && m > 0
    ensures ChunkAsWritten(mov, s, m as real * s, n) == Blocks(mov, s, m as real * s, n)
  {
    var c := m as real * s;
    StartScaled(n, m, s);
    IndexAtStart(n * m, s);
    FillAsWrittenAligned(mov, s, Start(n, c) + c, n * m, map[]);
  }

  /**
   * `GetMovement_D(time)` over chunks filled as written: the entry of the
   * time's block in the time's chunk, or the `out_of_range` that `.at`
   * throws when the chunk lacks that block.
   */
  function LookupAsWritten(mov: real -> MovState, s: real, c: real, time: real): (r: Result<MovState>)
    requires s > 0.0 && c > 0.0 && time >= 0.0
    ensures r.Err? <==> Index(time, s) !in ChunkAsWritten(mov, s, c, Index(time, c))
    ensures r.Ok? ==> r.value == ChunkAsWritten(mov, s, c, Index(time, c))[Index(time, s)]
  {
    var ch := ChunkAsWritten(mov, s, c, Index(time, c));
    if Index(time, s) in ch then Ok(ch[Index(time, s)]) else Err("map::at")
  }

  /** With a chunk of `m` whole steps the lookup as written answers the block-start state, as the class does. */
  lemma AlignedLookup(mov: real -> MovState, s: real, m: nat, time: real)
    requires s > 0.0 && m > 0 && time >= 0.0
    ensures LookupAsWritten(mov, s, m as real * s, time) == Ok(mov(Start(Index(time, s), s)))
  {
    var c := m as real * s;
    ChunkAligned(mov, s, m, Index(time, c));
    BlocksCover(mov, s, c, time);
  }

  /**
   * The loop of `AddChunk`: the movement at the start of every block of
   * step `s` that starts in chunk `chunkN` of size `c`, by block number.
   */
  method FillChunk(mov: real -> MovState, s: real, c: real, chunkN: nat) returns (chunk: map<nat, MovState>)
    requires s > 0.0 && c > 0.0
    ensures chunk == Blocks(mov, s, c, chunkN)
  {
    chunk := map[];
    var tc := c * chunkN as real;
    StartIsProduct(chunkN, c);
    StartMonotone(0, chunkN, c);
    var t1 := c + tc;
    var N := Index(tc, s);
    var ti := N as real * s;
    StartIsProduct(N, s);
    assert t1 == Start(chunkN, c) + c;
    assert FillBlocks(mov, s, t1, N, chunk) == Blocks(mov, s, c, chunkN);
    while ti < t1
      invariant ti == Start(N, s)
      invariant FillBlocks(mov, s, t1, N, chunk) == Blocks(mov, s, c, chunkN)
      decreases BlocksLeft(N, s, t1)
    {
      BlockStep(N, N + 1, s, t1);
      FillBlocksUnfold(mov, s, t1, N, chunk);
      chunk := chunk[N := mov(ti)];
      ti, N := ti + s, N + 1;
    }
    FillBlocksDone(mov, s, t1, N, chunk);
  }

  /**
   * With step 1 and chunk 1.3, chunk 3 starts at 3.9 and the loop as written
   * fills blocks 3 and 4 (with the movements at 3.9 and 4.9); the time 5.1
   * lies in chunk 3 but in block 5, which the chunk lacks, so the lookup
   * throws.  The intended chunk holds block 5.
   */
  lemma AddChunkMissesBlock(mov: real -> MovState)
    ensures Index(5.1, 1.3) == 3 && Index(5.1, 1.0) == 5
    ensures ChunkAsWritten(mov, 1.0, 1.3, 3) == map[3 := mov(3.9), 4 := mov(4.9)]
    ensures 5 !in ChunkAsWritten(mov, 1.0, 1.3, 3)
    ensures 5 in Blocks(mov, 1.0, 1.3, 3)
    ensures LookupAsWritten(mov, 1.0, 1.3, 5.1) == Err("map::at")
  {
    assert Start(3, 1.3) == 3.9;
    assert Index(3.9, 1.0) == 3;
    calc {
      ChunkAsWritten(mov, 1.0, 1.3, 3);
      FillAsWritten(mov, 1.0, 3.9, 5.2, 3, map[]);
      FillAsWritten(mov, 1.0, 4.9, 5.2, 4, map[3 := mov(3.9)]);
      FillAsWritten(mov, 1.0, 5.9, 5.2, 5, map[3 := mov(3.9), 4 := mov(4.9)]);
    }
    BlocksCover(mov, 1.0, 1.3, 5.1);
  }

  class PlanetScript {
    const spice: Spice
    const name: string
    const center: string
    const t0: real
    const GM: real
    /** The orbital period, computed once by the constructor. */
    const T: real
    /** `GetMovement_C`: the continuous lookup, relative to the start date. */
    const MovementC: real -> MovState
    var stepSize: real
    var chunkSize: real
    var chunks: map<nat, map<nat, MovState>>

    /** The cache holds whole chunks, each as `Blocks` describes it, and only once discretised. */
    ghost predicate Valid()
      reads this
    {
      (forall time :: MovementC(time) == spice.movement(name, t0 + time))
      && (IsDiscret() ==> chunkSize > 0.0)
      && (!IsDiscret() ==> chunks == map[])
      && (IsDiscret() ==> forall n :: n in chunks ==> chunks[n] == Blocks(MovementC, stepSize, chunkSize, n))
    }

    /** `PlanetScript(planet, J2000Time)` for a body that has a centre entry. */
    constructor (planet: EPlanet, J2000Time: string, spice: Spice)
      requires planet != ENone
      ensures this.spice == spice && name == GetSPICEName(planet)
      ensures center == GetSPICEName(GetCenterBody(planet).value)
      ensures t0 == spice.absTime(J2000Time) && GM == spice.gm(name)
      ensures T == if center != "" then spice.period(name, center, t0) else 0.0
      ensures planet == Sun <==> center == ""
      ensures Valid() && !IsDiscret()
    {
      this.spice := spice;
      name := GetSPICEName(planet);
      center := GetSPICEName(GetCenterBody(planet).value);
      t0 := spice.absTime(J2000Time);
      GM := spice.gm(GetSPICEName(planet));
      var c := GetSPICEName(GetCenterBody(planet).value);
      T := if c != "" then spice.period(GetSPICEName(planet), c, spice.absTime(J2000Time)) else 0.0;
      MovementC := (time: real) => spice.movement(GetSPICEName(planet), spice.absTime(J2000Time) + time);
      stepSize, chunkSize := 0.0, 0.0;
      chunks := map[];
    }

    function GetT(time: real): (r: real)
      ensures r == T
    {
      T
    }

    function GetGM(time: real): (r: real)
      ensures r == GM
    {
      GM
    }

    predicate IsDiscret()
      reads this
    {
      stepSize > 0.0
    }

    method MakeDiscret(stepSize': real, chunkSize': real) returns (r: Result<()>)
      requires Valid()
      modifies this`stepSize, this`chunkSize
      ensures Valid()
      ensures old(IsDiscret()) ==> r == Err("the ephemerides are already discret")
      ensures !old(IsDiscret()) && !(stepSize' > 0.0 && chunkSize' > 0.0)
              ==> r == Err("steps and chunk sizes must be positive")
      ensures r.Err? ==> stepSize == old(stepSize) && chunkSize == old(chunkSize)
      ensures r.Ok? <==> !old(IsDiscret()) && stepSize' > 0.0 && chunkSize' > 0.0
      ensures r.Ok? ==> stepSize == stepSize' && chunkSize == chunkSize' && IsDiscret()
    {
      if IsDiscret() {
        return Err("the ephemerides are already discret");
      }
      if stepSize' > 0.0 && chunkSize' > 0.0 {
        stepSize := stepSize';
        chunkSize := chunkSize';
        return Ok(());
      }
      return Err("steps and chunk sizes must be positive");
    }

    /**
     * `AddChunk(chunkN)`, filling the blocks of the chunk as intended: the
     * loop's time starts at the start of the first block rather than at the
     * start of the chunk, so that block `N` always receives the movement at
     * `N·stepSize`.
     */
    method AddChunk(chunkN: nat)
      requires Valid() && IsDiscret() && chunkN !in chunks
      modifies this`chunks
      ensures Valid()
      ensures chunks == old(chunks)[chunkN := Blocks(MovementC, stepSize, chunkSize, chunkN)]
    {
      var chunk := FillChunk(MovementC, stepSize, chunkSize, chunkN);
      ResultValid(chunkN, chunk);
      chunks := chunks[chunkN := chunk];
    }

    /** Storing the intended chunk keeps the cache valid. */
    lemma ResultValid(chunkN: nat, chunk: map<nat, MovState>)
      requires Valid() && IsDiscret() && chunk == Blocks(MovementC, stepSize, chunkSize, chunkN)
      ensures forall n :: n in chunks[chunkN := chunk] ==> chunks[chunkN := chunk][n] == Blocks(MovementC, stepSize, chunkSize, n)
    {
    }

    /**
     * `GetMovement_D(time)`: the cached movement at the start of the time's
     * block, filling the time's chunk on a miss.  (With chunks filled as
     * intended the second lookup always succeeds, so the final throw of the
     * source is unreachable here.)
     */
    method GetMovementD(time: real) returns (r: MovState)
      requires Valid() && IsDiscret() && time >= 0.0
      modifies this`chunks
      ensures Valid()
      ensures r == MovementC(Start(Index(time, stepSize), stepSize))
      ensures chunks == old(chunks)[Index(time, chunkSize) := Blocks(MovementC, stepSize, chunkSize, Index(time, chunkSize))]
    {
      var chunkN := Index(time, chunkSize);
      var blockN := Index(time, stepSize);
      if chunkN !in chunks {
        AddChunk(chunkN);
      }
      BlocksCover(MovementC, stepSize, chunkSize, time);
      r := chunks[chunkN][blockN];
    }

    /** `GetMovement`: from the cache when discretised, otherwise the continuous lookup. */
    method GetMovement(time: real) returns (r: MovState)
      requires Valid() && (IsDiscret() ==> time >= 0.0)
      modifies this`chunks
      ensures Valid()
      ensures IsDiscret() ==> r == MovementC(Start(Index(time, stepSize), stepSize))
      ensures !IsDiscret() ==> r == MovementC(time) && chunks == old(chunks)
    {
      if IsDiscret() {
        r := GetMovementD(time);
      } else {
        r := MovementC(time);
      }
    }

    method GetLocation(time: real) returns (r: Vec3)
      requires Valid() && (IsDiscret() ==> time >= 0.0)
      modifies this`chunks
      ensures Valid()
      ensures IsDiscret() ==> r == MovementC(Start(Index(time, stepSize), stepSize)).0
      ensures !IsDiscret() ==> r == MovementC(time).0 && chunks == old(chunks)
    {
      var m := GetMovement(time);
      r := m.0;
    }

    method GetVelocity(time: real) returns (r: Vec3)
      requires Valid() && (IsDiscret() ==> time >= 0.0)
      modifies this`chunks
      ensures Valid()
      ensures IsDiscret() ==> r == MovementC(Start(Index(time, stepSize), stepSize)).1
      ensures !IsDiscret() ==> r == MovementC(time).1 && chunks == old(chunks)
    {
      var m := GetMovement(time);
      r := m.1;
    }

    /**
     * The script seen through the ephemeris interface in its present
     * configuration: its constant period and `GM`, and the movement its
     * getters return.
     */
    function AsDriver(): (d: Driver)
      reads this
      ensures forall time :: d.T(time) == GetT(time) && d.GM(time) == GetGM(time)
      ensures !IsDiscret() ==> forall time :: d.movement(time) == MovementC(time)
      ensures IsDiscret() ==> forall time :: time >= 0.0 ==> d.movement(time) == MovementC(Start(Index(time, stepSize), stepSize))
      ensures forall time :: d.location(time) == d.movement(time).0 && d.velocity(time) == d.movement(time).1
    {
      var step, mc, period, gm := stepSize, MovementC, T, GM;
      Driver((time: real) => period, (time: real) => gm,
             (time: real) => Answer(mc, step, time).0, (time: real) => Answer(mc, step, time).1,
             (time: real) => Answer(mc, step, time))
    }
  }

  /**
   * What `GetMovement` answers for a step size: the continuous value, or
   * once discretised the value at the start of the time's block.  A
   * negative time of a discretised script is answered continuously; the
   * source converts it to an unsigned block number.
   */
  function Answer(mc: real -> MovState, step: real, time: real): MovState {
    if step > 0.0 && time >= 0.0 then mc(Start(Index(time, step), step)) else mc(time)
  }

  /** Constructing a script for `ENone` throws, because it has no centre entry. */
  method Create(planet: EPlanet, J2000Time: string, spice: Spice) returns (r: Result<PlanetScript>)
    ensures r.Err? <==> planet == ENone
    ensures r.Err? ==> r.error == "Unsupported planet"
    ensures r.Ok? ==> fresh(r.value) && r.value.Valid() && !r.value.IsDiscret()
    ensures r.Ok? ==> r.value.name == GetSPICEName(planet) && r.value.spice == spice
  {
    if planet == ENone {
      return Err("Unsupported planet");
    }
    var p := new PlanetScript(planet, J2000Time, spice);
    return Ok(p);
  }
}
