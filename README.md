# gravity-assists: a verified model of the transfer-chain search

gravity-assists searches for chains of Keplerian transfer arcs between solar-system bodies. A mission is a sequence of nodes:
- a departure from a parking orbit;
- fly-bys of intermediate planets;
- an arrival.

For each consecutive pair of nodes, a **link search** scans departure times. It looks for arcs whose time of flight matches the target body's ephemeris. A **layered search** then grows a tree of partial chains, one layer per leg. Each link is kept only if the departure and arrival nodes accept it. The surviving chains are then scored by a configurable **functionality**. A **second approximation** refines the chosen chain by minimisation.

This project models the discrete logic around the orbital numerics, in Dafny.

**Path trees.** `PathArena`, `PathTree` and `PathTreeLegacy` model the id-indexed, append-only tree in both generations:
- the reserved root id 1;
- ids that only increase;
- children one level below their parent;
- the per-append callback that accumulates totals;
- root-to-leaf path retrieval.

**Link search.**
- `LinkWindow` is the three-sample root window: classification, shift and pattern priority.
- `LinkSearch` holds the bisection and the scripted and static scans.
- `LinkLegacy` is the older scan.
- `LinkDispatch` is the per-leg configuration.
- The time mismatch is an abstract function that may report "no orbit".

**Layered search.**
- `SolverUtiles` and `FirstApproxSolver` model the newer `ComputeFlight`.
- `PathFinderLegacy` models the older `PathFinder::FirstApprox`; it starts every leg's link search at the mission start time.
- `FlightChains` defines the chains by layers, independently of the loops, and the loops are proved against it.

**Node feasibility.**
- `Nodes` models the newer departure, arrival and fly-by checks.
- `MissionLegacy` models the older predicates.
- `NodeCast` models the dispatch on the node kind.

**Kepler algebra.**
- `KeplerOrbit` and `KeplerOrbitLegacy` hold the algebra that needs no trigonometric identities. This includes the energy/speed round trip, angle normalisation, anomaly ordering, the transfer direction and the acceptance of candidate elements.
- `FirstApproxUtiles` and `FirstApproxLegacy` hold the older first-approximation finder.
- `Floats` carries the NaN and infinity cases that finder depends on.
- Trigonometric functions, `sqrt` and `pow` are parameters of type `Numerics.Funcs`. Only the few laws the proofs need are assumed, as preconditions.

**Second approximation.** `SecondApproxSolver` models:
- the slot-to-field map;
- the parameter-vector layout;
- the parsing of a flight into an extended chain with burn nodes;
- best-result selection;
- the convergence loop, with the minimiser abstract.

**Ephemerides and configuration.**
- `PlanetScripts` covers the discretised chunk cache of a planet script.
- `PlanetEphemeris` and `Ephemerides` cover the body-name tables and the ephemeris client.
- `PlanetNames`, `PlanetConfigs` and `ProblemConfigs` cover the configuration validators and parsers.

The SPICE library is a record of functions (`PlanetScripts.Spice`, `PlanetEphemeris.RawSpice`).

Most C++ source files are modelled as modules of their own, so that the differences between the two generations stay visible. Where the two generations share an algorithm, one module holds both behind a switch: `LinkWindow` holds both `GetPattern`s behind `PatternFor(legacy)`, and the scan of `LinkSearch` serves both `link.cpp` files through `Policy.legacy`. Several differences, and a few evident slips, are listed under "## Findings". Each finding has a lemma exhibiting the code's behaviour as written and a corrected definition with the intended property proved. The operations a finding affects either take a flag `asWritten`, which runs the code as written when set and the corrected code otherwise, or come as two members, one for each version.

## Model

| member | source | states |
|---|---|---|
| PathArena.PathOf | project/pathfinder/private/solvers/pathTree.hpp:87-99 | the payloads from the depth-1 ancestor down to the node, one per level: the path has exactly `lvl` entries |
| PathArena.WithChildWellFormed | project/pathfinder/private/solvers/pathTree.hpp:34-45 | a child with an id newer than every existing one, one level below its parent, keeps the forest well formed (root 1 at level 0, every other node one level below a registered, older parent) |
| PathArena.PathOfFrame | project/pathfinder/private/solvers/pathTree.hpp:93-97 | a path depends only on the parent links and payloads of the nodes along it |
| PathArena.WithChildPaths | project/pathfinder/private/solvers/pathTree.hpp:34-45 | the new child's path is its parent's path plus its own payload, and every existing node keeps its path |
| PathArena.PathOfLast | project/pathfinder/private/solvers/pathTree.hpp:93-96 | every node other than the root has a non-empty path whose last entry is its own payload |
| PathTree.PathTree.constructor | project/pathfinder/private/solvers/pathTree.hpp:61-67 | only the root is registered, under id 1, at level 0 with no parent; the counter starts at 1 and no callback is set |
| PathTree.PathTree.RegisterOnAdded | project/pathfinder/private/solvers/pathTree.hpp:69-72 | the callback is stored and nothing else changes |
| PathTree.PathTree.AppendPath | project/pathfinder/private/solvers/pathTree.hpp:74-85 | an unknown parent gives "the path doesn't exists in the tree: <id>" with the map and counter unchanged; otherwise the new id is the counter plus one (never the root id), it maps to a child one level below the parent holding the payload the callback made from the parent's (the raw payload when there is no callback or the parent is the root), its path is the parent's plus that payload, and every existing id keeps its path |
| PathTree.PathTree.GetFullPathByID | project/pathfinder/private/solvers/pathTree.hpp:87-99 | an unknown id throws; the root with `bNoFirst` asks for a vector of size -1, which throws; otherwise the node's path, without its first entry when `bNoFirst` |
| PathTree.PathTree.GetFullPathsByID | project/pathfinder/private/solvers/pathTree.hpp:101-111 | succeeds exactly when every id would; then one path per id, in input order, each as the single-id overload gives it |
| PathTree.PathTree.GetPathByIF | project/pathfinder/private/solvers/pathTree.hpp:113-116 | the stored payload of a registered id; an unknown id throws the missing-path error |
| PathTreeLegacy.PathTree.constructor | project/pathfinder/private/pathTree.hpp:61-67 | only the root is registered, under id 1, at level 0; the counter starts at 1 and no callback is set |
| PathTreeLegacy.PathTree.RegisterOnAdded | project/pathfinder/private/pathTree.hpp:69-72 | the callback is stored and nothing else changes |
| PathTreeLegacy.PathTree.AppendPath | project/pathfinder/private/pathTree.hpp:74-85 | as in the newer tree: an unknown parent throws with nothing changed; otherwise the id is the counter plus one, the child sits one level below the parent with the callback's payload, and existing paths are kept |
| PathTreeLegacy.PathTree.GetFullPathByID | project/pathfinder/private/pathTree.hpp:87-97 | an unknown id throws; otherwise exactly the node's `lvl` payloads in root-to-leaf order, with no option to drop the first |
| PathTreeLegacy.PathTree.GetFullPathsByID | project/pathfinder/private/pathTree.hpp:99-109 | succeeds exactly when every id is registered; then one path per id, in input order |
| PathTreeLegacy.PathTree.GetPathByIF | project/pathfinder/private/pathTree.hpp:111-114 | the stored payload of a registered id; an unknown id throws |
| PathTreeLegacy.PathTree.FiilInByLayers | project/pathfinder/private/pathTree.hpp:119-132 | on a non-empty container, exactly one call per pair of neighbours `(x[i], x[i+1])`, in order, carrying the flag as the code builds it |
| PathTreeLegacy.FlagAsWrittenBits | project/pathfinder/private/pathTree.hpp:126-129 | the flag built with `&&` never has the last-iteration bit, and has the first-iteration bit exactly when the pair is the first or the last |
| PathTreeLegacy.PathTree.FillInByLayersIntended | project/pathfinder/private/pathTree.hpp:119-132 | the same calls with the flag built with `?:`: bit 1 exactly on the first pair, bit 2 exactly on the last |
| PathTreeLegacy.FlagIntendedBits | project/pathfinder/private/pathTree.hpp:50-54 | the intended flag sets bit 1 exactly on the first pair and bit 2 exactly on the last |
| PathTreeLegacy.FiilInByLayersMislabelsLast | project/pathfinder/private/pathTree.hpp:126-129 | on the last of several pairs the flag as written equals `eFirstIteration`, while the intended flag equals `eLastIteration` |
| KeplerOrbit.EllipticVCircle | project/pathfinder/private/trajectory/keplerOrbit.cpp:142-147 | on a circle (`e = 0`) the orbital speed is `sqrt(GM/p)`, the speed the energy `-GM/p` gives at radius `p` |
| KeplerOrbit.HVRoundTrip | project/pathfinder/private/trajectory/keplerOrbit.cpp:13-21 | for `vi >= 0` the speed `v` gives back from the energy `h(vi, ri, GM)` is `vi` |
| KeplerOrbit.VEqualRadii | project/pathfinder/private/trajectory/keplerOrbit.cpp:23-27 | the four-argument `v` with `r0 == r1` returns `v0` for `v0 >= 0` |
| KeplerOrbit.VAtConservesEnergy | project/pathfinder/private/trajectory/keplerOrbit.cpp:23-27 | the four-argument `v` is the speed at `r1` of the energy `h(v0, r0, GM)` |
| KeplerOrbit.NZ | project/pathfinder/private/trajectory/keplerOrbit.cpp:157-161 | the normalised angle lies in `[0, 2π)` |
| KeplerOrbit.NZCongruent | project/pathfinder/private/trajectory/keplerOrbit.cpp:157-161 | `NZ(x)` differs from `x` by a whole number of turns |
| KeplerOrbit.NZFixed | project/pathfinder/private/trajectory/keplerOrbit.cpp:157-161 | an angle already in `[0, 2π)` is left alone |
| KeplerOrbit.NZPeriodic | project/pathfinder/private/trajectory/keplerOrbit.cpp:157-161 | adding whole turns does not change `NZ` |
| KeplerOrbit.NZIdempotent | project/pathfinder/private/trajectory/keplerOrbit.cpp:157-161 | normalising twice is normalising once |
| KeplerOrbit.QQ | project/pathfinder/private/trajectory/keplerOrbit.cpp:75-84 | `q0 = NZ(Q0 + w)`; `q1` is `NZ(Q1 + w)` or that plus a turn, and `q0 < q1 <= q0 + 2π` |
| KeplerOrbit.QQCongruent | project/pathfinder/private/trajectory/keplerOrbit.cpp:75-84 | `q1` is congruent to `Q1 + w` modulo a turn |
| KeplerOrbit.BfPeriodic | project/pathfinder/private/trajectory/keplerOrbit.cpp:100-103 | the direction `bf(Q0, f0)` (`NZ(f0 - Q0) < π`) does not change when `f0` turns by whole turns |
| KeplerOrbit.W | project/pathfinder/private/trajectory/keplerOrbit.cpp:86-98 | with equal radii (`r0/r1 - 1` within `10e-5` of 0) the periapsis angle is `π/2·Sign(Q0 - Q1)`: `π/2`, `-π/2` or 0 |
| KeplerOrbit.EP | project/pathfinder/private/trajectory/keplerOrbit.cpp:58-73 | equal radii give `(0, r0)`; otherwise there is no result exactly when the denominator `r0·cos q0 - r1·cos q1` is zero |
| KeplerOrbit.Quotients | project/pathfinder/private/trajectory/keplerOrbit.cpp:64-70 | the two quotients exist exactly when the denominator is non-zero, and then both points satisfy the conic equation `r·(1 + e·cos q) = p` |
| KeplerOrbit.EPSolvesConic | project/pathfinder/private/trajectory/keplerOrbit.cpp:58-73 | the `(e, p)` of `ep` puts the departure point on the conic, and the arrival point too unless the radii are equal |
| KeplerOrbit.ConicFromQuotients | project/pathfinder/private/trajectory/keplerOrbit.cpp:66-70 | the closed-form `e = (r1 - r0)/den`, `p = (C0 - C1)/den·r0·r1` solve both conic equations |
| KeplerOrbit.ConicTimesDen | project/pathfinder/private/trajectory/keplerOrbit.cpp:66-70 | the conic equations follow from `e·den` and `p·den` alone |
| KeplerOrbit.Candidate | project/pathfinder/private/trajectory/keplerOrbit.cpp:40-54 | one pass of the `k` loop: an accepted candidate has `0 <= e < 0.99`, `p > 0`, the tried `wk`, `QQ`'s anomalies and `ep`'s values |
| KeplerOrbit.Epwqq | project/pathfinder/private/trajectory/keplerOrbit.cpp:33-56 | rejects when `Q0` equals `f0` within `10e-5`; an accepted ellipse has `0 <= e < 0.99`, `p > 0`, `w` equal to `w0` or `w0 + π`, and anomalies and elements that `qq` and `ep` give for that `w` |
| KeplerOrbit.EpwqqOrder | project/pathfinder/private/trajectory/keplerOrbit.cpp:40-54 | `w0` is tried before `w0 + π`: when it is accepted it is the answer, and when it breaks the loop (`p <= 0` or `|e| > 1`) there is none |
| KeplerOrbit.EpwqqOnConic | project/pathfinder/private/trajectory/keplerOrbit.cpp:33-56 | every accepted ellipse passes through the departure point, and through the arrival point unless the radii are equal |
| KeplerOrbit.APositive | project/pathfinder/private/trajectory/keplerOrbit.cpp:105-108 | for `p > 0` and `0 <= e < 1` the semi-major axis `p/(1 - e²)` is positive and at least `p` |
| KeplerOrbit.A | project/pathfinder/private/trajectory/keplerOrbit.cpp:105-108 | the semi-major axis `a` satisfies `a·(1 - e²) = p` |
| KeplerOrbit.E | project/pathfinder/private/trajectory/keplerOrbit.cpp:110-124 | `E` returns `qi` when `e` is within `10e-7` of 0 |
| KeplerOrbit.M | project/pathfinder/private/trajectory/keplerOrbit.cpp:126-130 | on a circle the mean anomaly is the eccentric one; for `e >= 0` and a sine in [-1, 1] it lies within `e` of it |
| KeplerOrbit.HalfTurnBranchWithin | project/pathfinder/private/trajectory/keplerOrbit.cpp:119-123 | each of the four branches keeps the result in the same half-turn as `qi` when the arc cosine lies in `[0, π]` |
| KeplerOrbit.EHalfTurn | project/pathfinder/private/trajectory/keplerOrbit.cpp:110-124 | for `0 <= qi < 4π` the eccentric anomaly lies in the same half-turn as the true anomaly |
| KeplerOrbit.Dt | project/pathfinder/private/trajectory/keplerOrbit.cpp:132-140 | the time is defined exactly when `GM != 0` and the radicand `a/GM·a·a` is not negative (the source yields an infinity or NaN otherwise) |
| KeplerOrbit.DtArcsMakePeriod | project/pathfinder/private/trajectory/keplerOrbit.cpp:132-140 | the short-arc and long-arc times add up to one period `2π·sqrt(a³/GM)` |
| KeplerOrbit.DtNonNegative | project/pathfinder/private/trajectory/keplerOrbit.cpp:132-140 | with `M0 <= M1 <= M0 + 2π` both arcs take a non-negative time |
| KeplerOrbitLegacy.ELegacy | project/pathfinder/private/keplerOrbit.cpp:99-112 | the older `E` returns `qi` when `e` is within `10e-7` of 0 |
| KeplerOrbitLegacy.ELegacyHalfTurn | project/pathfinder/private/keplerOrbit.cpp:99-112 | for `0 <= qi < 4π` its result lies in the same half-turn as `qi` |
| KeplerOrbitLegacy.ELegacyAgreesOnEllipse | project/pathfinder/private/keplerOrbit.cpp:99-112 | on a point of the ellipse with `a = p/(1 - e²)`, the radius form `(a - r)/a/e` and the newer anomaly form give the same eccentric anomaly |
| KeplerOrbitLegacy.EllipseCosE | project/pathfinder/private/keplerOrbit.cpp:106 | on the ellipse, `(a - r)/a/e` equals the newer `(e + cos q)/(1 + e·cos q)` |
| KeplerOrbitLegacy.RadiusRatio | project/pathfinder/private/keplerOrbit.cpp:106 | the algebra behind it: `a(1 - e²) = p` and `r(1 + e·c) = p` give `(a - r)/a/e = (e + c)/(1 + e·c)` |
| KeplerOrbitLegacy.DtLegacy | project/pathfinder/private/keplerOrbit.cpp:120-128 | the older time is defined exactly when `GM != 0` and its radicand `a·a/GM·a` is not negative |
| KeplerOrbitLegacy.DtLegacyAgrees | project/pathfinder/private/keplerOrbit.cpp:120-128 | regrouping the radicand changes nothing: the older `dt` equals the newer one on every input |
| KeplerOrbitLegacy.CubeOverGM | project/pathfinder/private/keplerOrbit.cpp:123 | `a·a/GM·a = a/GM·a·a` |
| Numerics.Abs | project/pathfinder/private/trajectory/keplerOrbit.cpp:46 | `Math::Abs`: non-negative, and either `x` or `-x` |
| Numerics.Avg | project/pathfinder/private/solvers/Utiles.cpp:12 | `Math::Avg`: the midpoint, as far from one argument as from the other |
| Numerics.Sign | project/pathfinder/private/trajectory/keplerOrbit.cpp:97 | `Math::Sign`: 1 exactly for positive, -1 exactly for negative and 0 exactly for zero arguments |
| Numerics.SizeNonNegative | project/pathfinder/private/firstApproxUtiles.cpp:87 | a vector's length `Size()` is never negative |
| Numerics.StepsLeftStep | project/pathfinder/private/blocks/link.cpp:499-501 | one more grid step `t += step` below the end leaves one step fewer: the scan loops terminate |
| Text.NatToString | project/pathfinder/private/solvers/pathTree.hpp:148 | `std::to_string` of an id: a non-empty string of decimal digits |
| Text.NatToStringRoundTrip | project/pathfinder/private/solvers/pathTree.hpp:148 | reading the digits back gives the number |
| Text.ToLower | project/main/utiles/getPlanetName.cpp:12 | `boost::to_lower_copy`: same length, each upper-case ASCII letter replaced by its lower-case letter and every other character kept |
| Text.ToLowerIdempotent | project/main/utiles/getPlanetName.cpp:12 | lower-casing twice is lower-casing once |
| Floats.Add | project/pathfinder/private/firstApproxUtiles.cpp:13 | `float` addition: NaN in gives NaN out, finite values add exactly |
| Floats.Mul | project/pathfinder/private/firstApproxUtiles.cpp:65 | `float` multiplication: NaN in gives NaN out, finite values multiply exactly |
| Floats.Div | project/pathfinder/private/firstApproxUtiles.cpp:51 | `float` division: a non-zero finite divisor divides; `x / 0` is an infinity for `x != 0` and NaN for `0 / 0` |
| Floats.Comparisons | project/pathfinder/private/firstApproxUtiles.cpp:24-29 | off NaN `<` and `>=` are each other's negation; with a NaN operand both are false |
| Floats.Sqrt | project/pathfinder/private/firstApproxUtiles.cpp:65 | `Sqrt` is NaN exactly on NaN, `-inf` and negative values |
| Floats.Atan | project/pathfinder/private/firstApproxUtiles.cpp:42 | the arc tangent is finite everywhere but on NaN |
| Floats.CloseValues | project/pathfinder/private/firstApproxUtiles.cpp:127 | `Abs(a - b) < d` holds only between finite values less than `d` apart |
| FirstApproxUtiles.PeriapsisAngle | project/pathfinder/private/firstApproxUtiles.cpp:36-43 | `FindPeriapsisAngle` is never infinite, and is NaN exactly when both the numerator `1 - cos(Q1 - Q0)` and the denominator are zero |
| FirstApproxUtiles.PeriapsisAngleIsW | project/pathfinder/private/firstApproxUtiles.cpp:36-43 | off equal radii it is the newer `Elliptic::w` (`(r0 - r1)/r1 = r0/r1 - 1`) |
| FirstApproxUtiles.Eccentricity | project/pathfinder/private/firstApproxUtiles.cpp:54-60 | `FindEccentricity`: NaN for a non-finite angle; the exact quotient off a zero denominator; at a zero denominator an infinity, or NaN when `r0 == r1` |
| FirstApproxUtiles.Parameter | project/pathfinder/private/firstApproxUtiles.cpp:46-52 | `FindParameter`: NaN for a non-finite angle; the exact quotient off a zero denominator and never finite at a zero one |
| FirstApproxUtiles.FindPE | project/pathfinder/private/firstApproxUtiles.cpp:21-34 | accepted exactly when neither the eccentricity test (`e < 0 \|\| e >= 1` as written) nor the parameter test (`p < 0`) rejects; an accepted result carries `FindEccentricity` and `FindParameter`; a rejected one is `(0, 0, false)` |
| FirstApproxUtiles.FindPEEllipse | project/pathfinder/private/firstApproxUtiles.cpp:21-34 | with NaN rejected, `FindPE` accepts exactly when the denominator is non-zero, `0 <= e < 1` and `p >= 0`, and then the conic passes through both planets |
| FirstApproxUtiles.FindPEFinite | project/pathfinder/private/firstApproxUtiles.cpp:21-34 | off a zero denominator the accepted values are the exact quotients |
| FirstApproxUtiles.FinderConic | project/pathfinder/private/firstApproxUtiles.cpp:46-60 | `FindEccentricity` and `FindParameter` solve the conic equation at both planets |
| FirstApproxUtiles.FindPEVariantsAgree | project/pathfinder/private/firstApproxUtiles.cpp:24-32 | off the `0 / 0` case the code as written and the NaN-rejecting version decide alike |
| FirstApproxUtiles.FindPEAcceptsNaN | project/pathfinder/private/firstApproxUtiles.cpp:24-32 | with `Q0 = Q1 = 0` and `r0 = r1 = 1` the code as written accepts a NaN eccentricity and parameter; the corrected test rejects them |
| FirstApproxUtiles.FindPEW | project/pathfinder/private/firstApproxUtiles.cpp:6-19 | tries `w`, then `w + π`, returning the first accepted `(p, e)` with the `w` used, or `(0, 0, 0, false)` when neither is accepted |
| FirstApproxUtiles.FindPEWEllipse | project/pathfinder/private/firstApproxUtiles.cpp:6-19 | with NaN rejected, every accepted result is a finite ellipse (`0 <= e < 1`, `p >= 0`) through both planets |
| FirstApproxUtiles.FindPEWAcceptsNaN | project/pathfinder/private/firstApproxUtiles.cpp:6-19 | on the same input the code as written returns `(NaN, NaN, NaN, true)`; the corrected version finds no orbit |
| FirstApproxUtiles.PeriapsisAngleZeroOverZero | project/pathfinder/private/firstApproxUtiles.cpp:39-42 | with coincident planets the periapsis angle is `0 / 0`: NaN |
| FirstApproxUtiles.FindPEAtNaN | project/pathfinder/private/firstApproxUtiles.cpp:21-34 | on a NaN angle the code as written accepts; the corrected version rejects |
| FirstApproxUtiles.FindTime | project/pathfinder/private/firstApproxUtiles.cpp:62-66 | a NaN parameter gives a NaN time |
| FirstApproxUtiles.FindTimeFinite | project/pathfinder/private/firstApproxUtiles.cpp:62-66 | for `M > 0` and `p >= 0` the time is `sqrt(p³/M)·(Q1 - Q0)`, not negative when `Q1 >= Q0` |
| FirstApproxUtiles.FindVelocityFinite | project/pathfinder/private/firstApproxUtiles.cpp:68-72 | on finite arguments the speed is `sqrt(M/p·(e² + 2e·cos(Q + w) + 1))` |
| FirstApproxUtiles.FindVelocityCircle | project/pathfinder/private/firstApproxUtiles.cpp:68-72 | on a circle (`e = 0`) the speed is `sqrt(M/p)` |
| FirstApproxUtiles.FindVelAngleCircle | project/pathfinder/private/firstApproxUtiles.cpp:74-80 | on a circle the velocity angle is `Q + π/2` |
| FirstApproxUtiles.TheFinders | project/pathfinder/private/firstApproxUtiles.cpp:6-80 | the finder bundle the trajectory finder uses: `pew` is `FindPEW` with the code's acceptance tests when `asWritten`, and with NaN rejected otherwise; `time` is `FindTime`, `velocity` is `FindVelocity` and `velAngle` is `FindVelAngle` |
| FirstApproxUtiles.Located | project/pathfinder/private/firstApproxUtiles.cpp:105-108 | locating the arrival planet keeps `f0` and `t1` |
| FirstApproxUtiles.Settled | project/pathfinder/private/firstApproxUtiles.cpp:124-139 | settling keeps `f0` |
| FirstApproxUtiles.DriveFacts | project/pathfinder/private/firstApproxUtiles.cpp:103-142 | the do-while loop: the first probe is the start time, every later probe lies below `te`; success implies the loop ended; unfinished runs used all their fuel; a finished unsuccessful run stopped at `t1 >= te`; the last pass decides the result |
| FirstApproxUtiles.DriveKeepsAngle | project/pathfinder/private/firstApproxUtiles.cpp:100-142 | the loop never changes `f0` |
| FirstApproxUtiles.PassFacts | project/pathfinder/private/firstApproxUtiles.cpp:104-139 | a successful pass leaves the track arrived: ephemeris position, `Q1 = Q0 + Angle2`, the accepted `(p, e, w)`, `t1 = t0 + dt` within a day of the probe, and the velocities and angle the finders give |
| FirstApproxUtiles.RunFacts | project/pathfinder/private/firstApproxUtiles.cpp:95-143 | the same facts about the whole iteration, and on success the final track arrived at the last probe |
| FirstApproxUtiles.FoundIsEllipse | project/pathfinder/private/firstApproxUtiles.cpp:111-135 | with the corrected finders, a found trajectory is a finite ellipse through both planets |
| FirstApproxUtiles.FoundTimeIsClose | project/pathfinder/private/firstApproxUtiles.cpp:127-133 | a found arrival time is finite and within a day of the last probe |
| FirstApproxUtiles.ResumesStep | project/pathfinder/private/firstApproxUtiles.cpp:103-140 | one more pass keeps the loop's relation to the recursive specification |
| FirstApproxUtiles.AsWrittenNaNStops | project/pathfinder/private/firstApproxUtiles.cpp:104-139 | as written, a probe where the arrival planet stands at the departure's radius and direction gets NaN elements, a NaN flight time and so a NaN next probe, without ending the pass |
| FirstApproxUtiles.AsWrittenAcceptsAtDeparture | project/pathfinder/private/firstApproxUtiles.cpp:111 | as written, `FindPEW` accepts `(NaN, NaN, NaN)` for such a probe |
| FirstApproxUtiles.NaNElementsStop | project/pathfinder/private/firstApproxUtiles.cpp:124-139 | a pass whose `FindPEW` accepts NaN elements, and whose flight time is then NaN, leaves a NaN probe |
| FirstApproxUtiles.AsWrittenRunStops | project/pathfinder/private/firstApproxUtiles.cpp:103-140 | so, as written, the search from such a probe ends after that one probe without a solution, however far `te` lies ahead: `NaN < te` is false |
| FirstApproxUtiles.NaNProbeStops | project/pathfinder/private/firstApproxUtiles.cpp:140 | a pass that leaves a NaN probe ends the loop there, without a solution |
| FirstApproxUtiles.CorrectedStepsOn | project/pathfinder/private/firstApproxUtiles.cpp:111-119 | corrected, the same probe finds no elements and the clock steps on by `ts` |
| FirstApproxUtiles.RejectedPassSteps | project/pathfinder/private/firstApproxUtiles.cpp:111-119 | a pass whose `FindPEW` finds nothing steps the clock on by `ts` |
| FirstApproxUtiles.FinderTimeNaN | project/pathfinder/private/firstApproxUtiles.cpp:62-66 | either finder bundle's flight time is NaN for a NaN parameter |
| FirstApproxUtiles.TragectoryFinder.constructor | project/pathfinder/private/firstApproxUtiles.cpp:86-93 | stores `R0`, `r0 = R0.Size()`, `Q0`, `t0`, `te`, `ts` and `M`, and the finders of the code as written or corrected as `asWritten` says; every state field starts at 0 |
| FirstApproxUtiles.TragectoryFinder.Copy | project/pathfinder/private/firstApprox.cpp:41-45 | a copy has the same settings and fields |
| FirstApproxUtiles.TragectoryFinder.Probe | project/pathfinder/private/firstApproxUtiles.cpp:104-139 | one loop pass: the fields become the pass's track, the planet is timed at the old `t1` |
| FirstApproxUtiles.TragectoryFinder.Settle | project/pathfinder/private/firstApproxUtiles.cpp:124-139 | the time branch of a pass: the fields become the settled track |
| FirstApproxUtiles.TragectoryFinder.FindTragectory | project/pathfinder/private/firstApproxUtiles.cpp:95-143 | starting from `f0 = f0_` and `t1 = t0 + day`, the fields and the result are those of the recursive run of the finder's settings (finders included), and the planet is left at the last probe time |
| FirstApproxUtiles.TragectoryFinder.Search | project/pathfinder/private/firstApproxUtiles.cpp:103-140 | the do-while loop: fields and result equal the recursive run from the current fields |
| FirstApproxLegacy.Prepared | project/pathfinder/private/firstApprox.cpp:20-34 | the finder `FindTrajectories` builds: `Q0 = 0`, the given `t0` and `M`, `te = TB/2 + t0` and `ts = TB/2/30`, ignoring the constructor's `n`, with the finders `asWritten` picks |
| FirstApproxLegacy.Tries | project/pathfinder/private/firstApprox.cpp:41-48 | one attempt per angle, in `df0s` order, each run on its own |
| FirstApproxLegacy.Attempts | project/pathfinder/private/firstApprox.cpp:41-48 | attempt `i` is the fresh finder run from `f0 = Q0 + df0s[i]` and `t1 = t0 + day` |
| FirstApproxLegacy.TriesAppend | project/pathfinder/private/firstApprox.cpp:41-48 | trying two lists of angles is trying one and then the other |
| FirstApproxLegacy.TriesSnoc | project/pathfinder/private/firstApprox.cpp:41-48 | one loop iteration adds the attempt for the next angle |
| FirstApproxLegacy.FoundAt | project/pathfinder/private/firstApprox.cpp:44-47 | one attempt index per kept solution, each within range |
| FirstApproxLegacy.KeptAt | project/pathfinder/private/firstApprox.cpp:44-47 | the kept solution `i` is the track of attempt `FoundAt[i]` |
| FirstApproxLegacy.FoundAtIncreasing | project/pathfinder/private/firstApprox.cpp:41-48 | the solutions keep the order of `df0s` |
| FirstApproxLegacy.FoundAtExact | project/pathfinder/private/firstApprox.cpp:44-47 | an attempt is kept exactly when it succeeded |
| FirstApproxLegacy.AllOrNothing | project/pathfinder/private/firstApprox.cpp:41-48 | all attempts succeeding keeps them all; none succeeding keeps nothing |
| FirstApproxLegacy.IndicesOfAll | project/pathfinder/private/firstApprox.cpp:41-48 | when all succeed, solution `i` comes from angle `i` |
| FirstApproxLegacy.AppendOne | project/pathfinder/private/firstApprox.cpp:44-47 | one more attempt appends its track exactly when it succeeded |
| FirstApproxLegacy.KeptAppend | project/pathfinder/private/firstApprox.cpp:41-48 | filtering distributes over concatenation |
| FirstApproxLegacy.SolutionsSplit | project/pathfinder/private/firstApprox.cpp:41-48 | the solutions for `xs + ys` are those for `xs` followed by those for `ys`: attempts are independent |
| FirstApproxLegacy.SolutionsAreArrivals | project/pathfinder/private/firstApprox.cpp:41-48 | with the corrected finders, every solution comes from a successful attempt at angle `Q0 + df0s[j]`, arrived at its last probe, and is an ellipse through both planets |
| FirstApproxLegacy.AttemptArrives | project/pathfinder/private/firstApprox.cpp:43-44 | an attempt keeps its launch angle `Q0 + df0` and on success has arrived |
| FirstApproxLegacy.AttemptIsEllipse | project/pathfinder/private/firstApprox.cpp:43-44 | with the corrected finders, a successful attempt is an ellipse through both planets |
| FirstApproxLegacy.TryOffset | project/pathfinder/private/firstApprox.cpp:43-47 | a fresh copy of the finder runs `FindTragectory(B, Q0 + df0)`; its fields and verdict are the attempt's |
| FirstApproxLegacy.FirstApprox.constructor | project/pathfinder/private/firstApprox.cpp:6-15 | `te = B.period/2 + t0`, `ts = B.period/2/n` (an infinity for `n = 0`), and all three planets timed at `t0` |
| FirstApproxLegacy.FirstApprox.FindTrajectories | project/pathfinder/private/firstApprox.cpp:18-50 | exactly the successful attempts, in `df0s` order, as distinct fresh finders with the prepared settings and the finders `asWritten` picks; `A` left at `t0` and `B` at the last probe |
| FirstApproxLegacy.Collect | project/pathfinder/private/firstApprox.cpp:36-49 | the filter loop: one fresh finder per successful attempt, in order, with the attempt's fields |
| Links.GetRealAnomaly | project/pathfinder/private/blocks/link.cpp:86-93 | for `0 <= fraction <= 1` the anomaly runs from `q0` to `q1` on the short arc and from `q1` to `q0 + 2π` on the long one, starting and ending at those ends |
| Links.GetRealAnomalyMonotone | project/pathfinder/private/blocks/link.cpp:86-93 | the anomaly grows with the fraction |
| LinkWindow.DeduceState | project/pathfinder/private/blocks/link.cpp:274-280 | every sample gets one of the four states |
| LinkWindow.DeduceStateBands | project/pathfinder/private/blocks/link.cpp:274-280 | NaN exactly for a missing value, zero exactly within `DTOL` of 0, positive exactly above `DTOL`, negative exactly below `-DTOL` |
| LinkWindow.PatternOf | project/pathfinder/private/blocks/link.cpp:312-343 | a zero newest sample is a root; a NaN newest sample, or a NaN middle one after a non-zero newest, is no pattern; an extremum is reported only when the magnitudes dip |
| LinkWindow.LegacyPatternOf | project/pathfinder/private/link.cpp:178-209 | the same for the older file, where an extremum also needs an oldest sample with a value |
| LinkWindow.Bracket | project/pathfinder/private/blocks/link.cpp:282-305 | the pattern is kept; any pattern has the newest sample as its right end and a window sample as its left end; no pattern gives two default points |
| LinkWindow.RootWindowHelper.GetPattern | project/pathfinder/private/blocks/link.cpp:312-343 | a zero newest sample gives a root and a NaN one no pattern; in the newer file the pattern of the window's three samples |
| LinkWindow.RootWindowHelper.GetRoot | project/pathfinder/private/blocks/link.cpp:282-305 | the window's pattern, with the newest sample as the bracket's right end whenever there is a pattern |
| LinkWindow.RootWindowHelper.CheckRoot | project/pathfinder/private/blocks/link.cpp:307-310 | true exactly when `GetRoot` finds a pattern |
| LinkWindow.SignedHasDelta | project/pathfinder/private/blocks/link.cpp:274-280 | a point classified positive or negative carries a value of that sign |
| LinkWindow.Mag | project/pathfinder/private/blocks/link.cpp:328-330 | the magnitude `Abs(delta)` of a point with a value is that value or its negation and not negative; a NaN delta has no magnitude, so every comparison on it fails |
| LinkWindow.LegacyAgreesOnSameOldest | project/pathfinder/private/link.cpp:178-209 | the older `GetPattern` agrees with the newer one whenever the two older samples have the same state |
| LinkWindow.LegacyExtremumAcrossSignChange | project/pathfinder/private/link.cpp:182 | samples `+1, +3` after `-1` make the older code report an extremum, because `s2` reads `window[1]`; the newer code reports none |
| LinkWindow.UnionIsOpposite | project/pathfinder/private/blocks/link.cpp:321 | `(s0 \| s1) == (eNegative \| ePositive)` holds exactly when the two newest states are opposite signs |
| LinkWindow.IntersectionIsSameSign | project/pathfinder/private/blocks/link.cpp:325 | the bit test is non-zero exactly when all three states are the same definite sign |
| LinkWindow.PatternMeaning | project/pathfinder/private/blocks/link.cpp:312-343 | root exactly when the newest state is zero; sign change exactly when the two newest have opposite signs; extremum exactly when all three share a sign and the magnitude test holds |
| LinkWindow.LegacyPatternMeaning | project/pathfinder/private/link.cpp:178-209 | the same priority in the older code, with the sign gate looking only at the two newest states while the magnitude test still uses `window[2]`; an extremum needs all three deltas to be numbers |
| LinkWindow.LegacyNaNOldestNoExtremum | project/pathfinder/private/link.cpp:188-207 | two positive samples behind a NaN oldest one pass the older sign gate, and the NaN magnitude then fails the dip test: no pattern |
| LinkWindow.NaNNewestNoPattern | project/pathfinder/private/blocks/link.cpp:312-343 | a NaN newest sample never yields a pattern, in either version |
| LinkWindow.DipsBelowNewest | project/pathfinder/private/blocks/link.cpp:331-340 | when the magnitude test holds, the middle magnitude is below the newest one plus the tolerance |
| LinkWindow.BracketOrdered | project/pathfinder/private/blocks/link.cpp:282-305 | `GetRoot` returns `(p, p)`, `(window[1], window[0])` or `(window[2], window[0])`: the earlier time first and the newest sample last; a sign-change bracket has opposite non-zero signs at its ends |
| LinkWindow.Shift | project/pathfinder/private/blocks/link.cpp:265-272 | `Push`'s shift: the new point, classified, at `[0]`, the old `[0]` and `[1]` moved one place down, the old `[2]` dropped |
| LinkWindow.ShiftConsistent | project/pathfinder/private/blocks/link.cpp:265-272 | shifting keeps every slot's state the classification of its value (or the default NaN point) |
| LinkWindow.RootWindowHelper.constructor | project/pathfinder/private/blocks/link.cpp:249-263 | a window of three default points (`eNAN`, 0, 0) and the given tolerance |
| LinkWindow.RootWindowHelper.Push | project/pathfinder/private/blocks/link.cpp:265-272 | the window array becomes the shift of its old contents |
| LinkSearch.CheckValue | project/pathfinder/private/blocks/link.cpp:13-19 | `ChechValue` passes exactly the non-NaN values and throws "value cannot be NAN" otherwise |
| LinkSearch.SetA | project/pathfinder/private/blocks/link.cpp:21-27 | with `t0` set, `RA`/`VA` become the script's movement at `t0` and nothing else changes; a NaN `t0` throws |
| LinkSearch.SetB | project/pathfinder/private/blocks/link.cpp:29-34 | with `t0` set, `B` gets the script as driver and the time `t0`; nothing else changes; a NaN `t0` throws |
| LinkSearch.StaticSetA | project/pathfinder/private/blocks/link.cpp:47-53 | the static configuration's `SetA`, with the same contract |
| LinkSearch.FreshLinkIsDefault | project/pathfinder/public/links.hpp:8-40 | a link built before any search holds the default values of every field |
| LinkSearch.PositiveDenominator | project/pathfinder/private/trajectory/keplerOrbit.cpp:118 | for `0 <= e < 0.99` the factor `1 + e·cos q` is positive, so the anomaly formula never divides by zero |
| LinkSearch.OrbitOf | project/pathfinder/private/blocks/link.cpp:152-162 | the element assignment after an accepted `epwqq`: the ellipse's `e, p, w, q0, q1`, and `a >= p > 0` |
| LinkSearch.Solve | project/pathfinder/private/blocks/link.cpp:148-174 | `LinkAdapter::Find_t`: on success `t1 = t0 + dt`; on failure the timing is untouched; an unsolvable geometry changes nothing |
| LinkSearch.SolveSound | project/pathfinder/private/blocks/link.cpp:148-174 | success means `epwqq` accepted the stored ellipse (`0 <= e < 0.99`, `p > 0`, `a >= p`, through both points) and `dt` is the finite time `Kepler::dt` gives |
| LinkSearch.SolveRefusesRadialLaunch | project/pathfinder/private/blocks/link.cpp:150 | a launch along the radius (`Q0` within `10e-5` of `f0`) never succeeds |
| LinkSearch.SolveForgets | project/pathfinder/private/blocks/link.cpp:150-172 | a successful solve does not depend on the elements or timing left by earlier calls |
| LinkSearch.AimAt | project/pathfinder/private/blocks/link.cpp:195-200 | the arrival is the client's location at `t`, its length and `Q1 = Q0 + Angle2(R0, R1)` |
| LinkSearch.ProbeAt | project/pathfinder/private/blocks/link.cpp:195-202 | `ScriptedLink::Find_t(t)`: the client is timed at `t`, the arrival re-aimed, and on success `t1 = t0 + dt` |
| LinkSearch.ProbeAtIdempotent | project/pathfinder/private/blocks/link.cpp:195-202 | probing the same time twice is probing it once |
| LinkSearch.ProbeAtSettles | project/pathfinder/private/blocks/link.cpp:195-202 | a successful probe leaves a state solved at that time |
| LinkSearch.LinkProbeLaws | project/pathfinder/private/blocks/link.cpp:195-202 | the probe always moves the client to the probed time, and a successful probe is a fixed point |
| LinkSearch.SolvedAtMeaning | project/pathfinder/private/blocks/link.cpp:148-202 | a solved state sits at the probed time and location with an accepted ellipse through the departure (and arrival) point and `t1 - t0 = dt` |
| LinkSearch.FixVelocities | project/pathfinder/private/blocks/link.cpp:189-193 | `FixW01`: the relative velocities are `W0 = V0 - VA` and `W1 = V1 - VB` |
| LinkSearch.RelativeVelocityRoundTrip | project/pathfinder/private/blocks/link.cpp:189-193 | adding the planets' velocities back to `W0`/`W1` gives `V0`/`V1` |
| LinkSearch.StartOf | project/pathfinder/private/blocks/link.cpp:177-187 | the scripted link's start: `t0`, `R0 = RA`, `r0 = R0.Size()`, `Q0 = 0`, `f0 = NZ(f0_)` in `[0, 2π)` and `bf` exactly when `NZ(f0_) < π` |
| LinkSearch.StartOfPeriodic | project/pathfinder/private/blocks/link.cpp:185-186 | toss angles a whole turn apart give the same start |
| LinkSearch.ScriptedLink.constructor | project/pathfinder/private/blocks/link.cpp:177-187 | the link holds the configuration's client, GM and `VA`, its start, and a fresh search state |
| LinkSearch.ScriptedLink.FromStart | project/pathfinder/private/blocks/link.cpp:177-187 | the same state from an explicit start |
| LinkSearch.ScriptedLink.FindT | project/pathfinder/private/blocks/link.cpp:195-202 | the search state and result are the probe's; the velocities are untouched |
| LinkSearch.ScriptedLink.FixParams | project/pathfinder/private/blocks/link.cpp:110-146 | the velocities become the motion's, with relative velocities against `VA` and the client's velocity; the search state is untouched |
| LinkSearch.HalvingShrinks | project/pathfinder/private/blocks/link.cpp:375 | halving a bracket wider than `2·TTOL` lowers the number of halvings left: the bisection terminates |
| LinkSearch.Keep | project/pathfinder/private/blocks/link.cpp:367-374 | keeping the midpoint halves the bracket and stays inside it |
| LinkSearch.BisectInBracket | project/pathfinder/private/blocks/link.cpp:350-378 | the client is left at a time inside the initial bracket |
| LinkSearch.BisectSound | project/pathfinder/private/blocks/link.cpp:350-378 | a reported root is a solved state whose mismatch `tm - t1` is within `DTOL` |
| LinkSearch.BisectContinues | project/pathfinder/private/blocks/link.cpp:361-375 | a solvable midpoint with mismatch beyond `DTOL` and a bracket still wider than `TTOL` continues on the kept half |
| LinkSearch.FindAsRoot | project/pathfinder/private/blocks/link.cpp:350-378 | the bisection loop: its state and result are the recursive `Bisect`'s (false at the first unsolvable midpoint, true at a midpoint within `DTOL`, false once the bracket is at most `TTOL`); velocities untouched |
| LinkSearch.RunProbesLands | project/pathfinder/private/blocks/link.cpp:380-466 | the abstract minimiser leaves the link unchanged or at one of its probed times |
| LinkSearch.FindMinimum | project/pathfinder/private/blocks/link.cpp:380-466 | the result is the minimiser's verdict and the link state that of replaying its probes |
| LinkSearch.TimesLeftStep | project/pathfinder/private/blocks/link.cpp:491 | each grid step `t_exp += ts` below `te` lowers the number of samples left |
| LinkSearch.Step | project/pathfinder/private/blocks/link.cpp:491-527 | one grid iteration keeps a three-slot window |
| LinkSearch.Emitted | project/pathfinder/private/blocks/link.cpp:525-526 | an iteration appends at most one link |
| LinkSearch.ScanFromBound | project/pathfinder/private/blocks/link.cpp:491-527 | the scan yields at most one link per sample `t0 + k·ts < te` |
| LinkSearch.StepSound | project/pathfinder/private/blocks/link.cpp:491-527 | a pushed link is the fixed search state, and only after a pattern and a successful refinement: a root within the window tolerance, a bisection root within `tt`, or a successful minimisation |
| LinkSearch.RootIsWithinTolerance | project/pathfinder/private/blocks/link.cpp:499-508 | an `eRoot` pattern means the new mismatch is within `ts/10` of zero |
| LinkSearch.ScanAdvance | project/pathfinder/private/blocks/link.cpp:491-527 | one iteration preserves the loop's relation to the recursive scan |
| LinkSearch.ScanFromStep | project/pathfinder/private/blocks/link.cpp:491-527 | the scan is the first iteration's output followed by the scan from the next sample |
| LinkSearch.SolvedLinkMeetsBody | project/pathfinder/private/blocks/link.cpp:148-202 | a link emitted from a solved state departs at `t0` from `R0`, arrives at the client's location, has `t1 = t0 + dt` within the tolerance, an accepted ellipse and `W1 = V1 - VB` |
| LinkSearch.FixedFields | project/pathfinder/private/blocks/link.cpp:110-146 | a fixed link carries the departure, the arrival, the elements, the timing and the relative velocities of its state |
| LinkSearch.ScanLink | project/pathfinder/private/blocks/link.cpp:485-528 | the scripted `FindLinks(f0)`: a fresh window with tolerance `ts/10`, and the links the recursive scan gives |
| LinkSearch.ScanWith | project/pathfinder/private/blocks/link.cpp:491-527 | the grid loop with a given window: the links the recursive scan gives from it |
| LinkSearch.ScanStep | project/pathfinder/private/blocks/link.cpp:491-527 | one iteration of the loop keeps its invariant and shortens the samples left |
| LinkSearch.ScanTurn | project/pathfinder/private/blocks/link.cpp:493-526 | one iteration's state and pushed link are `Step`'s |
| LinkSearch.RefineBracket | project/pathfinder/private/blocks/link.cpp:505-526 | the `switch` over the pattern: the state and pushed link are `Refine`'s |
| LinkSearch.Refine | project/pathfinder/private/blocks/link.cpp:505-526 | no pattern leaves the search state and finds no link; any link found is the one `FixParams` completes from the state refinement leaves |
| LinkSearch.ScriptedLinks | project/pathfinder/private/blocks/link.cpp:485-528 | a NaN `t0` gives no links |
| LinkSearch.ConcatSnoc | project/pathfinder/private/blocks/link.cpp:530-536 | one more `f0` appends its links |
| LinkSearch.ConcatBound | project/pathfinder/private/blocks/link.cpp:530-536 | the overload over `f0s` yields at most `|f0s|` times the bound of one scan |
| LinkSearch.ConcatMember | project/pathfinder/private/blocks/link.cpp:530-536 | every link comes from the scan of one of the angles |
| LinkSearch.ConcatNone | project/pathfinder/private/blocks/link.cpp:530-536 | no angle giving links means no links |
| LinkSearch.AllScriptedLinks | project/pathfinder/private/blocks/link.cpp:530-536 | a NaN `t0` gives no links |
| LinkSearch.ScriptedLinksBound | project/pathfinder/private/blocks/link.cpp:485-528 | one angle yields at most one link per sample |
| LinkSearch.AllScriptedLinksBound | project/pathfinder/private/blocks/link.cpp:530-536 | all angles together yield at most `|f0s|` times the samples |
| LinkSearch.FindScriptedLinks | project/pathfinder/private/blocks/link.cpp:530-536 | appends to `links` the concatenation of every angle's scan, in order |
| LinkSearch.ScanOne | project/pathfinder/private/blocks/link.cpp:485-528 | one angle's scan as a method |
| LinkSearch.StaticStart | project/pathfinder/private/blocks/link.cpp:205-218 | the static link's start is the scripted one's |
| LinkSearch.StaticArrival | project/pathfinder/private/blocks/link.cpp:210-215 | the static arrival is `RB`, its length and `Q1 = Angle2(RA, RB)` |
| LinkSearch.Found | project/pathfinder/private/blocks/link.cpp:477-481 | a static angle contributes at most its own link |
| LinkSearch.StaticLinks | project/pathfinder/private/blocks/link.cpp:472-483 | at most one link per angle |
| LinkSearch.StaticLinkSound | project/pathfinder/private/blocks/link.cpp:472-483 | a static link goes from `RA` to `RB` starting at `t0` with `t1 = t0 + dt`, an accepted ellipse and `W = V - V_planet` at both ends |
| LinkSearch.StaticLinksSound | project/pathfinder/private/blocks/link.cpp:472-483 | every static link is the successful link of one of the angles |
| LinkSearch.FindStaticLinks | project/pathfinder/private/blocks/link.cpp:472-483 | appends to `links` the successful static links, in angle order |
| LinkLegacy.LegacyCtx | project/pathfinder/private/link.cpp:13-24 | the older adapter keeps `B`'s client and GM, and its departure velocity is `A`'s at the configured `t0` |
| LinkLegacy.AdapterStart | project/pathfinder/private/link.cpp:13-24 | the adapter's start: `A` timed at `cfg.t0`, `R0` its location, `f0 = NZ(f0)`, `bf` from `f0` |
| LinkLegacy.StartAsWritten | project/pathfinder/private/link.cpp:19 | as written, `this->t0 = t0` assigns the member to itself, so the start time stays 0 |
| LinkLegacy.StartIntended | project/pathfinder/private/link.cpp:19 | the intended start differs only in `t0 = cfg.t0` |
| LinkLegacy.AdapterAsWritten | project/pathfinder/private/link.cpp:13-24 | the constructor as written: a fresh link with start time 0 |
| LinkLegacy.NewAdapter | project/pathfinder/private/link.cpp:13-24 | the corrected constructor: a fresh link starting at `cfg.t0` |
| LinkLegacy.LegacyStart | project/pathfinder/private/link.cpp:13-24 | the departure the adapter starts from: at time 0 as written, at `cfg.t0` corrected; in both cases from `A`'s location at `cfg.t0` with the given angle |
| LinkLegacy.AsWrittenArrivalIsFlightTime | project/pathfinder/private/link.cpp:26-56 | with the self-assignment every probe finds the same orbit, but `t1` equals the flight time `dt` instead of `t0 + dt` |
| LinkLegacy.AsWrittenRootIsLate | project/pathfinder/private/link.cpp:19 | for `t0` one day, a zero mismatch as written is a mismatch of a day once `t0` is kept |
| LinkLegacy.LegacyPolicy | project/pathfinder/private/link.cpp:178-209 | the older scan uses the older `GetPattern`, with the same tolerance, minimiser and motion |
| LinkLegacy.LegacyParams | project/pathfinder/private/link.cpp:327-334 | the scan runs from `cfg.t0` below `cfg.te` in steps `ts`, refining with `tt` and `td` |
| LinkLegacy.LegacyLinks | project/pathfinder/private/link.cpp:327-371 | one angle yields at most one link per sample |
| LinkLegacy.ScanFromFixed | project/pathfinder/private/link.cpp:334-370 | every link the scan emits is a fixed search state |
| LinkLegacy.StepPushesFixed | project/pathfinder/private/link.cpp:368-369 | a link pushed by one iteration is the fixed search state it ends in |
| LinkLegacy.LegacyLinksDepart | project/pathfinder/private/link.cpp:13-24 | every link departs from `A`'s location at `cfg.t0`, at time 0 as written and at `cfg.t0` corrected |
| LinkLegacy.FindLinksFor | project/pathfinder/private/link.cpp:327-371 | appends one angle's links |
| LinkLegacy.AllLegacyLinks | project/pathfinder/private/link.cpp:373-379 | at most `|f0s|` times the samples, each from one angle's scan |
| LinkLegacy.FindLinks | project/pathfinder/private/link.cpp:373-379 | appends every angle's links, in order |
| LinkDispatch.ScriptedFor | project/pathfinder/private/solvers/Utiles.cpp:35-65 | a script-bound `B`: `A`'s state at `t0`, `GM`, `t0`, `B` timed at `t0`, `ts = timeStep`, `tt = timeTol`, `td = timeTol/100`, and `te = t0 + GetFlyTimeLimit(|RA|, |RB(t0)|, factor, GM)` |
| LinkDispatch.StaticFor | project/pathfinder/private/solvers/Utiles.cpp:35-73 | a static `B`: `RB = node.R`, a zero `VB`, `A`'s state at `t0` and the mission's GM |
| LinkDispatch.LegLinks | project/pathfinder/private/solvers/Utiles.cpp:27-74 | fails with "no conversion from inode avaliable" exactly when either node cannot be cast; a static `B` gives at most one link per angle |
| LinkDispatch.FindLinks | project/pathfinder/private/solvers/Utiles.cpp:27-74 | appends the leg's links, or fails with the cast error |
| LinkDispatch.FixedArrivalLinks | project/pathfinder/private/solvers/Utiles.cpp:67-73 | with a static `B` every link departs from `A` at `t0` and arrives at `node.R`, as the static search of one angle |
| LinkDispatch.ScannedArrivalBound | project/pathfinder/private/solvers/Utiles.cpp:50-65 | with a script-bound `B` there are at most as many links as angles times the scan samples of the scripted configuration |
| SolverUtiles.SpacedCoversRange | project/pathfinder/private/solvers/Utiles.cpp:16-25 | the ceil(steps) evenly spaced values from `min` lie in `[min, max)` and strictly increase |
| SolverUtiles.MakeRange | project/pathfinder/private/solvers/Utiles.cpp:16-25 | no values when `steps <= 0` or `max <= min`; otherwise `min + k*(max-min)/steps` for every `k` below ceil(steps), which is where the loop's two bounds stop it |
| SolverUtiles.TossAnglesInTurn | project/pathfinder/private/solvers/FisrtApprox.cpp:10 | the `points_f0` toss angles: none for a non-positive count, otherwise ceil(count) increasing angles in `[0, 2*pi)` |
| SolverUtiles.GetFlyTimeLimit | project/pathfinder/private/solvers/Utiles.cpp:10-14 | `sqrt(a^3/GM)*2*pi*factor` with `a` the mean radius is absent only for `GM = 0`, non-negative for positive GM, radii and factor, and 0 for a zero factor |
| SolverUtiles.FillTree | project/pathfinder/private/solvers/Utiles.hpp:26-41 | one callback per consecutive pair of a non-empty sequence, in order, with the flag set only on the last pair |
| SolverUtiles.AddLeg | project/pathfinder/private/solvers/Utiles.cpp:111-138 | a child is appended exactly when the departure check, and on the last leg the arrival check, pass; its path is the parent's followed by the leg with the totals carried over |
| SolverUtiles.AddLink | project/pathfinder/private/solvers/Utiles.cpp:111-138 | one more link keeps every appended child's path equal to the next member of the extensions found so far |
| SolverUtiles.AddLinks | project/pathfinder/private/solvers/Utiles.cpp:111-139 | the children appended for one parent hold exactly that parent's chain extended by every accepted link, in link order |
| SolverUtiles.AddChildren | project/pathfinder/private/solvers/Utiles.cpp:104-139 | the links searched from the parent's `absTime` extend its chain, and the existing paths are kept |
| SolverUtiles.GrowLayer | project/pathfinder/private/solvers/Utiles.cpp:100-141 | the next layer's ids hold every chain of the current layer extended by one accepted leg |
| SolverUtiles.ComputeFlight | project/pathfinder/private/solvers/Utiles.cpp:76-153 | either the chains of the last layer, without the seed and wrapped as flight chains, or the error of the first leg whose link search throws while it still has parents |
| SolverUtiles.CollectFlights | project/pathfinder/private/solvers/Utiles.cpp:144-153 | the non-empty paths, in order, each made a flight chain |
| FlightChains.Leg | project/pathfinder/private/solvers/Utiles.cpp:113-137 | a leg is kept exactly when the departure check, and on the last leg the arrival check, pass; it carries the link, and time, impulse and mismatch add to the parent's |
| FlightChains.Trimmed | project/pathfinder/private/solvers/Utiles.cpp:145 | `GetFullPathByID(ids, true)` drops each path's first entry, the root's payload |
| FlightChains.ExtendMembers | project/pathfinder/private/solvers/Utiles.cpp:111-139 | a chain extended from a parent is the parent's chain followed by the leg of some link |
| FlightChains.ExtendAllMembers | project/pathfinder/private/solvers/Utiles.cpp:102-140 | one layer's extensions are those of some parent in the layer |
| FlightChains.LayerZero | project/pathfinder/private/solvers/Utiles.cpp:87-97 | the first layer is the seed alone |
| FlightChains.LayerMember | project/pathfinder/private/solvers/Utiles.cpp:100-141 | a chain of layer k is one of layer k-1 followed by a leg found between nodes k-1 and k |
| FlightChains.FeasibleSnoc | project/pathfinder/private/solvers/Utiles.cpp:100-141 | a chain is feasible exactly when its prefix is and its last step is a found leg |
| FlightChains.LayersExactly | project/pathfinder/private/solvers/Utiles.cpp:87-142 | layer k holds exactly the feasible chains of k+1 entries that start at the seed: none is lost and none invented |
| FlightChains.StepTimes | project/pathfinder/private/solvers/Utiles.cpp:80-86 | a step adds the link's flight time to both the absolute and the total time, and no correction |
| FlightChains.FeasibleTimes | project/pathfinder/private/solvers/Utiles.cpp:80-86 | along a feasible chain the absolute and total times are the first's plus the sum of the flight times |
| FlightChains.LayerTimes | project/pathfinder/private/solvers/Utiles.cpp:80-137 | every chain of layer k departs at the seed's time plus its summed flight time |
| FlightChains.LayersComplete | project/pathfinder/private/solvers/Utiles.cpp:108-138 | every accepted link from a layer's chain yields a chain of the next layer |
| FlightChains.WrapMembers | project/pathfinder/private/pathfinder.cpp:189-196 | the flight chains are the non-empty paths, each with the last entry's mismatch, impulse and time as its totals |
| FlightChains.FlightsNoFirst | project/pathfinder/private/solvers/Utiles.cpp:144-153 | every flight chain has one entry per leg, is a feasible chain from the seed without it, totals its flight times, ends at `t0` plus that total, and keeps correction and start time 0 |
| PathFinderLegacy.CheckNodes | project/pathfinder/private/pathfinder.cpp:84-94 | accepts exactly when every node is present and bound to a script, in which case it hands them back unchanged; otherwise it gives the first failing node's message, "mission nodes cannot be nulled" or "ephemeride connection must be defined" |
| PathFinderLegacy.ValidateMission | project/pathfinder/private/pathfinder.cpp:77-95 | fails with "mission must consists from at least 2 nodes" below two nodes, otherwise with the first node's error; an accepted mission keeps every node and setting |
| PathFinderLegacy.ValidatedAccepted | project/pathfinder/private/pathfinder.cpp:77-95 | what the constructor accepts meets the class invariant |
| PathFinderLegacy.PathFinder.constructor | project/pathfinder/private/pathfinder.cpp:77-95 | keeps the accepted mission |
| PathFinderLegacy.LegConfig | project/pathfinder/private/pathfinder.cpp:130-142 | both clients are timed at the parent's `absTime`, yet the scan starts at `mission.t0` and ends `GetFlyTimeLimit` after it, with `ts = timeStep`, `tt = timeTol`, `td = timeTol/100` |
| PathFinderLegacy.LegacySearch | project/pathfinder/private/pathfinder.cpp:136-160 | the search asks the nodes' `Check` without correction |
| PathFinderLegacy.SearchLinks | project/pathfinder/private/pathfinder.cpp:136-142 | the search's links for a leg are those of the older `FindLinks` for its configuration |
| PathFinderLegacy.LegLinksLeaveAtStart | project/pathfinder/private/pathfinder.cpp:136-142 | every link of every leg leaves from where `A` is at `mission.t0`, whatever the parent's time; it leaves at time 0 as written and at `mission.t0` corrected |
| PathFinderLegacy.SearchLinkLeaves | project/pathfinder/private/pathfinder.cpp:136-142 | the same for the links the search hands to the tree |
| PathFinderLegacy.AddLeg | project/pathfinder/private/pathfinder.cpp:144-171 | a child is appended exactly when the checks pass, with the parent's path followed by the leg |
| PathFinderLegacy.AddLink | project/pathfinder/private/pathfinder.cpp:144-171 | one more link keeps the appended children equal to the extensions found so far |
| PathFinderLegacy.AddLinks | project/pathfinder/private/pathfinder.cpp:144-172 | the children of one parent are its chain extended by every accepted link, in order |
| PathFinderLegacy.AddChildren | project/pathfinder/private/pathfinder.cpp:127-172 | the parent's chain extended by the links searched from its time |
| PathFinderLegacy.GrowLayer | project/pathfinder/private/pathfinder.cpp:123-175 | the next layer's ids hold every chain extended by one accepted leg |
| PathFinderLegacy.HoldsWhole | project/pathfinder/private/pathfinder.cpp:178 | `GetFullPathByID` without `bNoFirst` returns whole paths, the seed included |
| PathFinderLegacy.GrowFlights | project/pathfinder/private/pathfinder.cpp:101-186 | the flight chains are the last layer's chains with the seed kept |
| PathFinderLegacy.PathFinder.FirstApprox | project/pathfinder/private/pathfinder.cpp:97-187 | the flight chains the layered search gives from the seed at `mission.t0`, over the toss angles of `points_f0`, with the older link scan as written or corrected |
| PathFinderLegacy.WrapAll | project/pathfinder/private/pathfinder.cpp:177-186 | no path of a full layer is empty, so each becomes one flight chain |
| PathFinderLegacy.WrapPrefixed | project/pathfinder/private/pathfinder.cpp:178 | keeping the first entry only prefixes each chain with the seed and leaves its totals alone |
| PathFinderLegacy.LastLayerSeeded | project/pathfinder/private/pathfinder.cpp:110-175 | every chain of the last layer has one entry per node and starts with the seed |
| PathFinderLegacy.FlightsKeepSeed | project/pathfinder/private/pathfinder.cpp:178 | the older result is the newer one's chains each prefixed with the seed, in the same order |
| PathFinderLegacy.WholeFlightChain | project/pathfinder/private/pathfinder.cpp:177-186 | each flight chain is a chain of the last layer |
| PathFinderLegacy.ChainLinkFound | project/pathfinder/private/pathfinder.cpp:136-171 | each leg of a last-layer chain was found between its nodes from the previous entry's time |
| PathFinderLegacy.FeasibleLink | project/pathfinder/private/pathfinder.cpp:136-171 | the same for any feasible chain |
| PathFinderLegacy.FlightLegLink | project/pathfinder/private/pathfinder.cpp:136-186 | each leg of a returned flight chain was found between its nodes |
| PathFinderLegacy.LegsDepartAtStart | project/pathfinder/private/pathfinder.cpp:136-142 | every leg of a returned flight chain departs from its node's location at `mission.t0`, at time 0 as written and at `mission.t0` corrected |
| FirstApproxSolver.NodeError | project/pathfinder/private/solvers/Utiles.cpp:27-34 | a leg throws exactly when either of its nodes cannot be cast to a node the link search knows |
| FirstApproxSolver.NodeErrorIsLegError | project/pathfinder/private/solvers/Utiles.cpp:27-74 | that error is exactly the one the leg's link search fails with, message included |
| FirstApproxSolver.SolverSearch | project/pathfinder/private/solvers/FisrtApprox.cpp:16 | the layered search uses the nodes' own `Check`, and correction only when asked |
| FirstApproxSolver.SolverLinks | project/pathfinder/private/solvers/Utiles.cpp:108 | on a leg that does not throw, the search's links are those `Utiles::FindLinks` appends |
| FirstApproxSolver.NodeSequence | project/pathfinder/private/solvers/FisrtApprox.cpp:11-15 | one entry per mission node, in order, each with the same toss angles |
| FirstApproxSolver.RunnablePairs | project/pathfinder/private/solvers/FisrtApprox.cpp:11-16 | every consecutive pair of a runnable mission can be searched |
| FirstApproxSolver.FirstApprox | project/pathfinder/private/solvers/FisrtApprox.cpp:8-17 | the flight chains `ComputeFlight` finds from `t0` over the `points_f0` toss angles, or the error of the first leg that throws while it still has parents |
| FirstApproxSolver.CastableNeverThrows | project/pathfinder/private/solvers/FisrtApprox.cpp:8-17 | when every node can be cast, no leg throws |
| SecondApproxSolver.WithAxis | project/pathfinder/private/solvers/SecondApprox.cpp:170-172 | writing one coordinate sets it and leaves the other two |
| SecondApproxSolver.Put | project/pathfinder/private/solvers/SecondApprox.cpp:36-41 | a write through a slot keeps the shape of the fields |
| SecondApproxSolver.SameShapeHolds | project/pathfinder/private/solvers/SecondApprox.cpp:36-41 | fields of the same shape have the same slots |
| SecondApproxSolver.GetPut | project/pathfinder/private/solvers/SecondApprox.cpp:36-68 | a write through a slot changes that field and no other |
| SecondApproxSolver.PutGet | project/pathfinder/private/solvers/SecondApprox.cpp:36-41 | writing back the value a field holds changes nothing |
| SecondApproxSolver.SameShapeBound | project/pathfinder/private/solvers/SecondApprox.cpp:43-68 | a binding valid for fields is valid for any of the same shape |
| SecondApproxSolver.Snapshot | project/pathfinder/private/solvers/SecondApprox.cpp:43-56 | one value per slot |
| SecondApproxSolver.Scaled | project/pathfinder/private/solvers/SecondApprox.cpp:54 | one step size per value |
| SecondApproxSolver.WriteBack | project/pathfinder/private/solvers/SecondApprox.cpp:58-68 | writing a vector through the slots keeps the fields' shape |
| SecondApproxSolver.WriteBackSnapshot | project/pathfinder/private/solvers/SecondApprox.cpp:43-68 | reading the fields into a vector and writing it back changes nothing |
| SecondApproxSolver.WriteBackReads | project/pathfinder/private/solvers/SecondApprox.cpp:58-68 | with distinct slots, after writing the first `n` entries each field holds its entry if written and its old value otherwise |
| SecondApproxSolver.SnapshotWriteBack | project/pathfinder/private/solvers/SecondApprox.cpp:43-68 | with distinct slots, reading back what was written gives the vector |
| SecondApproxSolver.SyncCheck | project/pathfinder/private/solvers/SecondApprox.cpp:45-50 | the first assertion of `Sync_x0_ss` that fails: a null start vector, a wrong size, a null step vector, a wrong size, an unbound slot; none fails exactly when both vectors exist with the map's size and every slot is bound |
| SecondApproxSolver.SyncNullAborts | project/pathfinder/private/solvers/SecondApprox.cpp:45 | a null start vector fails the first assertion, whatever the slots hold |
| SecondApproxSolver.AliasedSlotLosesValue | project/pathfinder/private/solvers/SecondApprox.cpp:58-68 | when two slots name one field with different values, the earlier slot's value is lost |
| SecondApproxSolver.LastWriteStays | project/pathfinder/private/solvers/SecondApprox.cpp:58-68 | the last slot naming a field decides its value |
| SecondApproxSolver.BindBurn | project/pathfinder/private/solvers/SecondApprox.cpp:168-172 | binding a burn's five slots keeps the map's size |
| SecondApproxSolver.BindBurns | project/pathfinder/private/solvers/SecondApprox.cpp:154-177 | the map keeps its `5k + 1` slots while burns are bound |
| SecondApproxSolver.Slots | project/pathfinder/private/solvers/SecondApprox.cpp:124-178 | the finished map has `5k + 1` slots |
| SecondApproxSolver.BindBurnsStrideFive | project/pathfinder/private/solvers/SecondApprox.cpp:154-177 | with a base of `5j` for burn `j`, the slots bound so far are exactly those below `5j`, each to its own field |
| SecondApproxSolver.SlotsStrideFive | project/pathfinder/private/solvers/SecondApprox.cpp:154-178 | with stride 5, slot `5j` is node `j`'s angle, `5j+1` the burn's angle, `5j+2..5j+4` the burn point, the last slot the start time, and no two slots share a field |
| SecondApproxSolver.SlotTargetInjective | project/pathfinder/private/solvers/SecondApprox.cpp:168-172 | distinct slots name distinct fields |
| SecondApproxSolver.SlotsStrideFiveBound | project/pathfinder/private/solvers/SecondApprox.cpp:179 | with stride 5 every slot is bound when the fields are synchronised |
| SecondApproxSolver.SyncStrideFivePasses | project/pathfinder/private/solvers/SecondApprox.cpp:45-50 | corrected, allocated vectors of the map's size and the stride-5 layout pass every assertion of `Sync_x0_ss` |
| SecondApproxSolver.BindBurnsHold | project/pathfinder/private/solvers/SecondApprox.cpp:154-177 | at either stride, every slot bound so far names a field of the fields `ParseFlight` has built |
| SecondApproxSolver.SlotsHold | project/pathfinder/private/solvers/SecondApprox.cpp:154-178 | at either stride, every bound slot of the finished map names a field |
| SecondApproxSolver.BindBurnsStrideTwo | project/pathfinder/private/solvers/SecondApprox.cpp:154 | as written, with `i` stepping by 2, no slot from `2j+3` up is bound after `j` burns |
| SecondApproxSolver.SlotsStrideTwoUnbound | project/pathfinder/private/solvers/SecondApprox.cpp:154-179 | as written, with two or more legs slot `5k-1` stays unbound, so synchronising meets a null field |
| SecondApproxSolver.SlotsStrideTwoRebinds | project/pathfinder/private/solvers/SecondApprox.cpp:168-170 | as written, the second burn rebinds slot 2 from the first burn point's `x` to a toss angle |
| SecondApproxSolver.SyncStrideTwoAborts | project/pathfinder/private/solvers/SecondApprox.cpp:50 | with stride 2 and two or more legs, even allocated vectors of the right size fail the assertion on the bound field |
| SecondApproxSolver.ChainLayout | project/pathfinder/private/solvers/SecondApprox.cpp:154-177 | the extended chain has `2k + 1` entries, mission and burn nodes alternating |
| SecondApproxSolver.Resolved | project/pathfinder/private/solvers/SecondApprox.cpp:159-174 | one search node per chain entry |
| SecondApproxSolver.AnglesAfter | project/pathfinder/private/solvers/SecondApprox.cpp:114-117 | `2k + 1` toss-angle vectors |
| SecondApproxSolver.BurnsAfter | project/pathfinder/private/solvers/SecondApprox.cpp:163-165 | one burn node per parsed burn |
| SecondApproxSolver.DepartureAngleAsWrittenOverruns | project/pathfinder/private/solvers/SecondApprox.cpp:167-168 | as written, the angle is read from the leg after the one the burn is on, which for the last burn is past the chain's end |
| SecondApproxSolver.Departures | project/pathfinder/private/solvers/SecondApprox.cpp:167-168 | one departure angle per leg: the next leg's as written (with whatever lies past the chain's end for the last burn), the leg's own corrected |
| SecondApproxSolver.StartAnglesAsWritten | project/pathfinder/private/solvers/SecondApprox.cpp:167-170 | as written, node `j` starts at the departure angle of leg `j + 1`, and the last burn's node at what lies past the chain's end |
| SecondApproxSolver.StartAnglesFollowFlight | project/pathfinder/private/solvers/SecondApprox.cpp:167-170 | corrected: node `j` starts at its own leg's departure angle, the burn at its point's angle, and the last node at 0 |
| SecondApproxSolver.ParsedChain | project/pathfinder/private/solvers/SecondApprox.cpp:154-177 | the parsed chain resolves to the mission nodes with those angles and the burn nodes between them |
| SecondApproxSolver.BurnWritesStep | project/pathfinder/private/solvers/SecondApprox.cpp:167-172 | the five writes of one burn give the angles and burn point of the next parse step |
| SecondApproxSolver.Values | project/pathfinder/private/solvers/SecondApprox.cpp:206-208 | one score per flight |
| SecondApproxSolver.SelectFromNaN | project/pathfinder/private/solvers/SecondApprox.cpp:204-217 | as written, with `min` starting at NaN no `val < min` holds, so the result is always index 0 and NaN |
| SecondApproxSolver.SelectExample | project/pathfinder/private/solvers/SecondApprox.cpp:204-217 | for scores 2 and 1 the NaN start gives (0, NaN) where an infinite start gives (1, 1) |
| SecondApproxSolver.SelectFromInf | project/pathfinder/private/solvers/SecondApprox.cpp:204-217 | corrected: from an infinite start, the first index of a smallest score, and that score |
| SecondApproxSolver.SelectBest | project/pathfinder/private/solvers/SecondApprox.cpp:204-214 | the loop finds that index and score: no score is smaller and none before it is as small |
| SecondApproxSolver.RunFacts | project/pathfinder/private/solvers/SecondApprox.cpp:224-248 | the loop stops within `max_iter` iterations; it fails exactly at a failing step; stopping early means two consecutive finite values closer than `min_delta`; the current value is the last step's |
| SecondApproxSolver.FindMinimumFacts | project/pathfinder/private/solvers/SecondApprox.cpp:220-249 | the same from the loop's start, where NaN is the previous and current value |
| SecondApproxSolver.NaNNeverConverges | project/pathfinder/private/solvers/SecondApprox.cpp:236-244 | NaN scores never converge, so the loop runs all `max_iter` iterations |
| SecondApproxSolver.StateVectorMap.constructor | project/pathfinder/private/solvers/SecondApprox.cpp:25-27 | no slots |
| SecondApproxSolver.StateVectorMap.SetSize | project/pathfinder/private/solvers/SecondApprox.cpp:31-34 | resizes to `n`, keeping the old slots and leaving new ones unbound |
| SecondApproxSolver.StateVectorMap.Assign | project/pathfinder/private/solvers/SecondApprox.cpp:36-41 | binds slot `n` to the field, changes no other slot, and hands the field back |
| SecondApproxSolver.StateVectorMap.Sync_x0_ss | project/pathfinder/private/solvers/SecondApprox.cpp:43-56 | fails exactly as `SyncCheck` says, with its message; otherwise every slot is bound, the start point is the bound fields' values and the step sizes are those times `factor` |
| SecondApproxSolver.StateVectorMap.ReadVector | project/pathfinder/private/solvers/SecondApprox.cpp:58-68 | writes the vector through the slots and changes nothing else of the helper |
| SecondApproxSolver.SecondApproxHelper.constructor | project/pathfinder/private/solvers/SecondApprox.cpp:106-124 | `k` legs, `m = 5k + 1`, `2k + 1` vectors `{0}`, `m` unbound slots, NaN current value and an empty current flight; the member vectors stay null as written (the allocations go to shadowing locals) and are zero `m`-vectors corrected |
| SecondApproxSolver.SecondApproxHelper.Set | project/pathfinder/private/solvers/SecondApprox.cpp:36-41 | writes one field and nothing else |
| SecondApproxSolver.SecondApproxHelper.Bind | project/pathfinder/private/solvers/SecondApprox.cpp:36-41 | binds a slot and writes its field |
| SecondApproxSolver.SecondApproxHelper.BindBurnSlots | project/pathfinder/private/solvers/SecondApprox.cpp:167-172 | binds a burn's five slots from the given base (`ParseBurn` passes `2j` as written, `5j` corrected) and writes its angles and burn point |
| SecondApproxSolver.SecondApproxHelper.ParseBurn | project/pathfinder/private/solvers/SecondApprox.cpp:159-174 | one non-last node appends the node, its burn and their bindings, from slot `2j` as written and `5j` corrected, with the departure angle of leg `j + 1` as written and of leg `j` corrected |
| SecondApproxSolver.SecondApproxHelper.ParseFlight | project/pathfinder/private/solvers/SecondApprox.cpp:149-180 | fails with "burn node cannot be nullptr" exactly when a burn is needed and the factory has none; otherwise the chain, the fields and the bindings are those of the parsed flight, and it fails exactly as `SyncCheck` of the member vectors says, or else holds the synchronised start point and step sizes |
| SecondApproxSolver.SecondApproxHelper.ComputeFunctionality | project/pathfinder/private/solvers/SecondApprox.cpp:199-218 | the layered search with correction along the extended chain from `t`: the first refusing leg's error, or the selection from NaN as written and from infinity corrected (the first flight with the smallest score becomes current) |
| SecondApproxSolver.SecondApproxHelper.Functor | project/pathfinder/private/solvers/SecondApprox.cpp:130-135 | writes the vector into the fields and then evaluates them |
| SecondApproxSolver.SecondApproxHelper.InitMinimiser | project/pathfinder/private/solvers/SecondApprox.cpp:182-195 | a non-zero initialisation code throws "unexpected code during minimiser initialisation: " and the code |
| SecondApproxSolver.SecondApproxHelper.FindMinimum | project/pathfinder/private/solvers/SecondApprox.cpp:220-249 | the initialisation error, or whether the loop ended without a failing step, with the current value and flight where the loop left them |
| SecondApproxSolver.SecondApprox | project/pathfinder/private/solvers/SecondApprox.cpp:256-268 | the burn factory's error; as written, past the factory every call fails the `x0` assertion; corrected, the initialisation error, an empty flight and NaN when a step failed, otherwise the current flight and value when the loop ends |
| Nodes.GetEscapeImpulse | project/pathfinder/private/nodes.cpp:7-24 | the impulse is never negative, and below escape speed it is at least what is missing to escape speed |
| Nodes.EscapeImpulseZero | project/pathfinder/private/nodes.cpp:7-16 | above escape speed, leaving on the orbit of the parking energy costs nothing |
| Nodes.GetParkingImpulse | project/pathfinder/private/nodes.cpp:26-33 | the difference between the parking-orbit speed and the incoming speed carried down to the parking radius, never negative |
| Nodes.ParkingImpulseZero | project/pathfinder/private/nodes.cpp:26-33 | arriving on the parking orbit's own energy costs nothing |
| Nodes.MakeCorrection | project/pathfinder/private/nodes.cpp:35-38 | `a * \|lim - var\|^(-k)` |
| Nodes.EscapeSpeed | project/pathfinder/private/nodes.cpp:11 | with `sqrt`'s laws and `GM/r >= 0`, the parabolic speed at `r` is not negative |
| Nodes.FlyBySpeed | project/pathfinder/private/nodes.cpp:113 | the mean speed lies between the two speeds |
| Nodes.FlyByCorrection | project/pathfinder/private/nodes.cpp:129-143 | with both coefficients zero the fly-by penalty is zero |
| Nodes.GetH | project/pathfinder/private/nodes.cpp:148-174 | an energy-driven node keeps its `h`; a circular one has `h = -GM/ParkingRadius` |
| Nodes.CircularSpeed | project/pathfinder/private/nodes.cpp:155-159 | the speed of that energy at the parking radius is the circular speed `sqrt(GM/r)` |
| Nodes.DepartureImpulse | project/pathfinder/private/nodes.cpp:45-53 | the departure impulse from the parking orbit, never negative |
| Nodes.ArrivalImpulse | project/pathfinder/private/nodes.cpp:72-80 | the arrival impulse into the parking orbit, never negative |
| Nodes.ImpulseCeiling | project/pathfinder/private/nodes.cpp:54-94 | rejects exactly an impulse above a positive limit; with a positive limit and correction asked, the correction penalises the distance to the limit, otherwise it is 0 |
| Nodes.CheckDeparture | project/pathfinder/private/nodes.cpp:43-68 | the departure check reports the departure impulse |
| Nodes.CheckArrival | project/pathfinder/private/nodes.cpp:70-95 | the arrival check reports the arrival impulse |
| Nodes.Mismatch | project/pathfinder/private/nodes.cpp:99-104 | the difference of the two speeds' sizes, never negative |
| Nodes.CheckFlyBy | project/pathfinder/private/nodes.cpp:97-145 | no impulse and the speed mismatch; accepted exactly when the mismatch is within a positive limit, the orbit at the mean speed is hyperbolic and the turn is below the largest kink; the two corrections only when asked |
| Nodes.Check | project/pathfinder/private/nodes.cpp:43-145 | impulse and mismatch are never negative, a departure or arrival has no mismatch, a fly-by no impulse, and an accepted node keeps within its positive limit |
| Nodes.CorrectionOnRequest | project/pathfinder/private/nodes.cpp:58-129 | without correction asked it is 0, and asking changes neither the verdict nor the other outputs |
| Nodes.ImpulseLimitOff | project/pathfinder/private/nodes.cpp:54-85 | a non-positive limit accepts every departure and arrival and adds no correction |
| Nodes.RaiseImpulseLimit | project/pathfinder/private/nodes.cpp:54-84 | raising a positive limit keeps an accepted node accepted with the same impulse |
| Nodes.FlyByRejectsKinkLimit | project/pathfinder/private/nodes.cpp:124-127 | a turn of exactly the largest kink is rejected |
| Nodes.DepartureAtEscapeSpeed | project/pathfinder/private/nodes.cpp:7-24 | a circular departure at exactly escape speed pays the escape speed at the parking radius less the circular speed |
| MissionLegacy.CheckDeparture | project/pathfinder/private/mission.cpp:7-10 | accepted exactly when the outgoing speed exceeds the escape speed |
| MissionLegacy.CheckArrival | project/pathfinder/private/mission.cpp:12-27 | rejected exactly when the limit is positive and the speed carried to the parking radius differs from the parabolic speed there by more than the limit |
| MissionLegacy.CheckFlyBy | project/pathfinder/private/mission.cpp:29-55 | accepted exactly when the speeds agree within a positive limit, the orbit is hyperbolic and the turn is at most the largest kink |
| MissionLegacy.Renewed | project/pathfinder/private/mission.cpp:12-27 | the newer arrival node with energy 0 and the same radii and limit, checkable when the older one is |
| MissionLegacy.ArrivalVersionsAgree | project/pathfinder/private/mission.cpp:12-27 | the older arrival check and the newer one on that node agree on every input |
| MissionLegacy.RenewedFlyBy | project/pathfinder/private/mission.cpp:29-55 | the newer fly-by node with the same radii and limit, checkable when the older one is |
| MissionLegacy.FlyByNewerStricter | project/pathfinder/private/mission.cpp:29-55 | with equal speeds, a fly-by the newer check accepts the older also accepts |
| MissionLegacy.FlyByKinkBoundary | project/pathfinder/private/mission.cpp:49 | a turn of exactly the largest kink: the older check accepts it, the newer rejects it |
| NodeCast.CastNode | project/pathfinder/private/blocks/mission.cpp:16-30 | throws "no conversion from inode avaliable" exactly for a missing node or one with neither capability; otherwise exactly one side is set, the script side whenever the node has one |
| NodeCast.CastPrefersScript | project/pathfinder/private/blocks/mission.cpp:6-30 | a node with a script capability casts to it, valid exactly when its script is set; a static node is always valid |
| PlanetBases.PlanetBase.constructor | project/pathfinder/private/planetBase.cpp:4-9 | keeps the ephemeris and its GM, and sets the clock to 0 with the location the ephemeris gives then |
| PlanetBases.PlanetBase.Copy | project/pathfinder/public/planetBase.hpp:10-25 | a copy has the same ephemeris, period, GM, time and location |
| PlanetBases.PlanetBase.SetTime | project/pathfinder/private/planetBase.cpp:11-16 | the new time, with the location the ephemeris gives for it, so location and time agree |
| PlanetScripts.GetSPICEName | project/pathfinder/private/planetScript.cpp:8-22 | the kernel name is empty exactly for the unset value |
| PlanetScripts.SPICENameInjective | project/pathfinder/private/planetScript.cpp:8-22 | no two bodies share a kernel name |
| PlanetScripts.GetCenterBody | project/pathfinder/private/planetScript.cpp:24-37 | throws only for the unset value; the Sun's centre is unset, the Moon's the Earth, every planet's the Sun |
| PlanetScripts.CentersReachSun | project/pathfinder/private/planetScript.cpp:24-37 | following centres reaches the Sun in at most two steps |
| PlanetScripts.StartIsProduct | project/pathfinder/private/planetScript.cpp:258-261 | the start of block `k` is `k` steps |
| PlanetScripts.StartMonotone | project/pathfinder/private/planetScript.cpp:258-261 | block starts do not decrease |
| PlanetScripts.StartOrder | project/pathfinder/private/planetScript.cpp:258-261 | an earlier start belongs to a lower block |
| PlanetScripts.Index | project/pathfinder/private/planetScript.cpp:219-220 | the truncated quotient of a non-negative time names the block whose span holds it |
| PlanetScripts.FloorScaled | project/pathfinder/private/planetScript.cpp:219-220 | the truncated quotient's multiple is at most the time and the next multiple is above it |
| PlanetScripts.IndexMonotone | project/pathfinder/private/planetScript.cpp:219-220 | a later time has a block index at least as large |
| PlanetScripts.FillBlocksContents | project/pathfinder/private/planetScript.cpp:255-265 | the corrected fill stores exactly the blocks from `N` that start before the chunk's end, each sampled at its own start, and keeps what was there |
| PlanetScripts.BlocksCover | project/pathfinder/private/planetScript.cpp:217-236 | corrected: the chunk a time falls in holds the time's block, sampled at the block's start |
| PlanetScripts.FillChunk | project/pathfinder/private/planetScript.cpp:255-265 | the loop builds that corrected chunk |
| PlanetScripts.AddChunkMissesBlock | project/pathfinder/private/planetScript.cpp:255-265 | as written, with step 1 and chunk 1.3, chunk 3 holds blocks 3 and 4 sampled at 3.9 and 4.9, so time 5.1 finds no block 5 and `.at` throws; the corrected chunk has it |
| PlanetScripts.PlanetScript.constructor | project/pathfinder/private/planetScript.cpp:143-153 | kernel name, centre name, start time and GM from the kernels; the period about the centre when there is one, else 0; not discretised |
| PlanetScripts.PlanetScript.GetT | project/pathfinder/private/planetScript.cpp:155-158 | the period, at any time |
| PlanetScripts.PlanetScript.GetGM | project/pathfinder/private/planetScript.cpp:160-163 | the GM, at any time |
| PlanetScripts.PlanetScript.MakeDiscret | project/pathfinder/private/planetScript.cpp:194-215 | throws "the ephemerides are already discret" a second time and "steps and chunk sizes must be positive" for a non-positive size, changing nothing; otherwise stores both sizes and is discretised |
| PlanetScripts.PlanetScript.AddChunk | project/pathfinder/private/planetScript.cpp:255-265 | adds the corrected chunk under its number and changes no other chunk |
| PlanetScripts.PlanetScript.ResultValid | project/pathfinder/private/planetScript.cpp:255-265 | the cache still holds only corrected chunks |
| PlanetScripts.PlanetScript.GetMovementD | project/pathfinder/private/planetScript.cpp:217-238 | the state at the start of the time's block, with the time's chunk filled in the cache |
| PlanetScripts.PlanetScript.GetMovement | project/pathfinder/private/planetScript.cpp:185-192 | discretised: the block-start state; otherwise the kernel state at `t0 + time`, leaving the cache alone |
| PlanetScripts.PlanetScript.GetLocation | project/pathfinder/private/planetScript.cpp:165-173 | the position of that state |
| PlanetScripts.PlanetScript.GetVelocity | project/pathfinder/private/planetScript.cpp:175-183 | the velocity of that state |
| PlanetScripts.PlanetScript.AsDriver | project/pathfinder/private/planetScript.cpp:155-192 | what the script answers as an ephemeris: period, GM and movement as above |
| PlanetScripts.Create | project/pathfinder/private/planetScript.cpp:143-153 | throws "Unsupported planet" exactly for the unset value, otherwise a fresh script that is not discretised |
| PlanetScripts.IndexAtStart | project/pathfinder/private/planetScript.cpp:219-220 | a block's start time lies in that block |
| PlanetScripts.StartScaled | project/pathfinder/private/planetScript.cpp:255-265 | the start of chunk `n` of `m` steps is the start of block `n·m` |
| PlanetScripts.FillAsWrittenAligned | project/pathfinder/private/planetScript.cpp:258-263 | started at a block's start, the filling loop as written fills the same blocks as the intended one |
| PlanetScripts.ChunkAligned | project/pathfinder/private/planetScript.cpp:255-265 | when a chunk is a whole number of steps, the chunk as written holds exactly the intended blocks |
| PlanetScripts.LookupAsWritten | project/pathfinder/private/planetScript.cpp:217-238 | over chunks filled as written, the lookup fails with "map::at" exactly when the time's chunk lacks the time's block, and otherwise answers that entry |
| PlanetScripts.AlignedLookup | project/pathfinder/private/planetScript.cpp:217-265 | with a chunk of whole steps, the lookup as written answers the state at the block's start, as the corrected class does |
| PlanetNames.GetPlanetName | project/main/utiles/getPlanetName.cpp:10-20 | the body whose spelling is the lower-cased name; otherwise throws "unexpected planet name: " and the lower-cased name |
| PlanetNames.ToLowerOfLower | project/main/utiles/getPlanetName.cpp:12 | lower-casing a lower-case string changes nothing |
| PlanetNames.SpellingRoundTrip | project/main/utiles/getPlanetName.cpp:13-18 | every spelled body is found by its spelling, and only those |
| PlanetNames.SpellingIsLower | project/main/utiles/getPlanetName.cpp:13-18 | every spelling is lower case |
| PlanetNames.SpellingInjective | project/main/utiles/getPlanetName.cpp:13-18 | no two bodies share a spelling |
| PlanetNames.CaseInsensitive | project/main/utiles/getPlanetName.cpp:12 | a name and its lower-cased form give the same answer |
| PlanetNames.UnacceptedNames | project/main/utiles/getPlanetName.cpp:13-19 | the kernel spelling "Jupiter" and the Sun are refused |
| PlanetConfigs.DefaultPlanetConfig | project/main/configs/planetConfig.hpp:35-48 | the three radii and energy are unset, and both limits are 0 |
| PlanetConfigs.GetNodeType | project/main/configs/planetConfig.cpp:40-49 | the type whose spelling is the lower-cased name; otherwise throws "unexpected node type: " and the lower-cased name |
| PlanetConfigs.NodeTypeRoundTrip | project/main/configs/planetConfig.cpp:43-47 | every type is found by its spelling |
| PlanetConfigs.SpellingIsLower | project/main/configs/planetConfig.cpp:43-47 | every spelling is lower case |
| PlanetConfigs.NodeTypeCaseInsensitive | project/main/configs/planetConfig.cpp:42 | the answer does not depend on case |
| PlanetConfigs.Check | project/main/configs/planetConfig.cpp:51-58 | a set value passes unchanged; an unset one throws "field '<name>' must be set." |
| PlanetConfigs.FirstUnset | project/main/configs/planetConfig.cpp:62-64 | the fields before it are set and it is not |
| PlanetConfigs.CheckFields | project/main/configs/planetConfig.cpp:62-64 | checking fields in order gives all their values, or the message of the first unset one |
| PlanetConfigs.BuildNode | project/main/configs/planetConfig.cpp:77-152 | the node of the type with its fields copied, bound to the script; or the first unset field's message, with the field named "Mission.Planets" followed directly by the planet, a dot and the field |
| PlanetConfigs.EnergyNeedsMore | project/main/configs/planetConfig.cpp:92-134 | an energy-driven node builds exactly when the circular one does and the energy constant is set |
| PlanetConfigs.EnergyFields | project/main/configs/planetConfig.cpp:92-105 | the energy-driven fields are the circular ones plus the energy constant |
| PlanetConfigs.AllSet | project/main/configs/planetConfig.cpp:62-64 | every field passes exactly when all are set |
| PlanetConfigs.DefaultsRefused | project/main/configs/planetConfig.hpp:35-48 | a default configuration is refused at its type's first field |
| PlanetConfigs.CreatePlanetScript | project/main/configs/planetConfig.cpp:24-27 | the name's error, or a fresh script of the named body from the start date |
| PlanetConfigs.DiscretisedScript | project/main/configs/planetConfig.cpp:73-74 | a discretised script answers with the kernel state at each block's start |
| PlanetConfigs.ProduceNode | project/main/configs/planetConfig.cpp:68-153 | in order: the planet name's error, the discretisation's error, the node type's error, the first unset field's message; otherwise the built node, bound to the discretised script of the body |
| Ephemerides.PeriodAt | project/pathfinder/private/ephemeridesClient.cpp:27-34 | a client with a connection and a time asks the connection; otherwise 0 |
| Ephemerides.GMAt | project/pathfinder/private/ephemeridesClient.cpp:36-43 | likewise for GM |
| Ephemerides.LocationAt | project/pathfinder/private/ephemeridesClient.cpp:45-52 | likewise for the location, the zero vector when not valid |
| Ephemerides.VelocityAt | project/pathfinder/private/ephemeridesClient.cpp:54-61 | likewise for the velocity |
| Ephemerides.MovementAt | project/pathfinder/private/ephemeridesClient.cpp:63-70 | likewise for location and velocity together |
| Ephemerides.UnsetTimeAnswersZero | project/pathfinder/private/ephemeridesClient.cpp:7-75 | a client whose time is still NaN answers zero to every query |
| Ephemerides.EphemeridesClient.constructor | project/pathfinder/private/ephemeridesClient.cpp:7-15 | keeps the connection with a NaN time, so the client is not yet valid |
| Ephemerides.EphemeridesClient.SetTime | project/pathfinder/private/ephemeridesClient.cpp:17-20 | sets the time and keeps the connection; the client is then valid exactly when it has a connection |
| Ephemerides.EphemeridesClient.SetDriver | project/pathfinder/private/ephemeridesClient.cpp:22-25 | replaces the connection and keeps the time |
| Ephemerides.EphemeridesClient.IsValid | project/pathfinder/private/ephemeridesClient.cpp:72-75 | valid exactly when the client has a connection and a time |
| Ephemerides.EphemeridesClient.GetT | project/pathfinder/private/ephemeridesClient.cpp:27-34 | a valid client answers the connection's period at its time; an invalid one 0 |
| Ephemerides.EphemeridesClient.GetGM | project/pathfinder/private/ephemeridesClient.cpp:36-43 | a valid client answers the connection's GM at its time; an invalid one 0 |
| Ephemerides.EphemeridesClient.GetLocation | project/pathfinder/private/ephemeridesClient.cpp:45-52 | a valid client answers the connection's location at its time; an invalid one the zero vector |
| Ephemerides.EphemeridesClient.GetVelocity | project/pathfinder/private/ephemeridesClient.cpp:54-61 | a valid client answers the connection's velocity at its time; an invalid one the zero vector |
| Ephemerides.EphemeridesClient.GetMovement | project/pathfinder/private/ephemeridesClient.cpp:63-70 | a valid client answers the connection's location and velocity at its time; an invalid one two zero vectors |
| PlanetEphemeris.EPlanet2SPICE | project/pathfinder/private/planetEphemerides.cpp:8-21 | every body but `eNotAPlant` has a kernel name, which names it back; `eNotAPlant` throws "Unsupported planet" |
| PlanetEphemeris.SpiceNamesRoundTrip | project/pathfinder/private/planetEphemerides.cpp:8-21 | each kernel name is the name of exactly one body |
| PlanetEphemeris.GetPrimaryBody | project/pathfinder/private/planetEphemerides.cpp:23-36 | throws only for `eNotAPlant`; the Sun's primary is `eNotAPlant`, the Moon's the Earth, every planet's the Sun |
| PlanetEphemeris.PrimariesReachSun | project/pathfinder/private/planetEphemerides.cpp:23-36 | primaries reach the Sun in at most two steps, and the Sun's primary has no kernel name |
| PlanetEphemeris.LocationAsWritten | project/pathfinder/private/planetEphemerides.cpp:47-56 | as written, the location reads state entries 1 to 3: the position's `y` and `z` and the velocity's `x`, each times 1000 |
| PlanetEphemeris.LocationCorrected | project/pathfinder/private/planetEphemerides.cpp:47-56 | corrected, the location is the kernel position in metres: dividing by 1000 gives it back |
| PlanetEphemeris.LocationSlip | project/pathfinder/private/planetEphemerides.cpp:51-55 | a body at (1, 2, 3) km moving at (4, 5, 6) km/s is placed at (2000, 3000, 4000) m as written and at (1000, 2000, 3000) m corrected |
| PlanetEphemeris.PlanetEphemerides.Init | project/pathfinder/private/planetEphemerides.cpp:112-120 | the start time from the date, the period about the primary then, and the GM scaled by 1e9 |
| PlanetEphemeris.PlanetEphemerides.GetLocation | project/pathfinder/private/planetEphemerides.cpp:122-125 | the kernel state of the body at `time`: entries 1 to 3 in metres as written, the position in metres corrected |
| PlanetEphemeris.PlanetEphemerides.GetGM | project/pathfinder/private/planetEphemerides.cpp:127-130 | the GM stored at construction |
| PlanetEphemeris.PlanetEphemerides.GetT | project/pathfinder/private/planetEphemerides.cpp:132-135 | the period stored at construction |
| PlanetEphemeris.New | project/pathfinder/private/planetEphemerides.cpp:112-120 | throws "Unsupported planet" exactly for `eNotAPlant` and for the Sun, whose primary has no name; otherwise a fresh ephemeris with both names, period and GM |
| PlanetEphemeris.ConstructibleBodies | project/pathfinder/private/planetEphemerides.cpp:112-120 | exactly the planets and the Moon can be constructed |
| ProblemConfigs.CheckField | project/main/configs/problemConfig.cpp:8-20 | a field check passes exactly when the value is set, returns it unchanged, and otherwise fails with "field '<type>.<name>' must be set." |
| ProblemConfigs.FirstUnset | project/main/configs/problemConfig.cpp:8-20 | the position of the first unset field: every field before it is set, and it is unset unless it is the end |
| ProblemConfigs.FirstMissing | project/main/configs/problemConfig.cpp:8-20 | checks in order fail exactly when some field is unset |
| ProblemConfigs.FirstMissingCons | project/main/configs/problemConfig.cpp:8-20 | checking one more field first reports that field if it is unset, and otherwise what the rest report |
| ProblemConfigs.FirstMissingAppend | project/main/configs/problemConfig.cpp:8-20 | checking two groups of fields in turn reports the first group's missing field, or else the second's |
| ProblemConfigs.CheckIsValid | project/main/configs/problemConfig.cpp:24-29 | the time settings are valid exactly when the discretisation and the chunk size are set |
| ProblemConfigs.CheckIsValidChecks | project/main/configs/problemConfig.cpp:24-29 | the time settings fail with the first unset of the discretisation and the chunk size, and the date and times are never checked |
| ProblemConfigs.AXConfig | project/main/configs/problemConfig.cpp:32-43 | the shared settings carry the set period factor, f0 points, time step and tolerance, and the time settings' discretisation unchecked |
| ProblemConfigs.AXConfigChecks | project/main/configs/problemConfig.cpp:32-43 | the shared settings fail exactly when one of the four checked fields is unset, with the first one's message; the time fraction is not checked |
| ProblemConfigs.MakeAXConfig | project/main/configs/problemConfig.cpp:32-43 | the field-by-field construction yields the shared settings |
| ProblemConfigs.FAXConf.constructor | project/main/configs/problemConfig.hpp:8-34 | a first-approximation section holds its fields and no section name yet |
| ProblemConfigs.FAXConf.MakeConfig | project/main/configs/problemConfig.cpp:46-53 | the section name becomes "Mission.FAX", the fields are unchanged, and the result is the shared settings checked under that name |
| ProblemConfigs.SAXConfigOf | project/main/configs/problemConfig.cpp:56-80 | the second-approximation settings extend the shared ones, keep the iteration bound, and the burn node carries the checked impulse limit, a and k; a failure of the shared settings is passed on |
| ProblemConfigs.SAXEntriesChecks | project/main/configs/problemConfig.cpp:62-71 | after the shared settings, the SAX settings fail exactly when one of their own fields is unset, with the first one's message |
| ProblemConfigs.SAXConfigChecks | project/main/configs/problemConfig.cpp:56-80 | the SAX settings fail exactly when a shared field or one of their own is unset, with the first one's message in checking order |
| ProblemConfigs.SAXDefaults | project/main/configs/problemConfig.hpp:37-54 | the iteration bound is never refused; untouched shared fields fail on the period factor; with the shared fields set, the SAX defaults fail on the impulse limit, the one unset default |
| ProblemConfigs.SAXConf.constructor | project/main/configs/problemConfig.hpp:37-54 | a second-approximation section starts from the declared defaults |
| ProblemConfigs.SAXConf.MakeConfig | project/main/configs/problemConfig.cpp:56-80 | the section name becomes "Mission.SAX", the fields are unchanged, and the result is the SAX settings checked under that name |
| ProblemConfigs.MakeFunctionality | project/main/configs/problemConfig.cpp:83-100 | the functionality exists exactly when all four weights are set, and scores a flight by the weighted sum of its correction, mismatch, impulse and time |
| ProblemConfigs.FunctionalityChecks | project/main/configs/problemConfig.cpp:83-100 | a functionality failure names the first unset weight, in the order correction, mismatch, impulse, time |
| ProblemConfigs.FunctionalityMonotone | project/main/configs/problemConfig.cpp:89-99 | the score depends on the four totals alone, and with non-negative weights a flight whose totals are no larger scores no higher |
| ProblemConfigs.WeightedLinear | project/main/configs/problemConfig.cpp:95-98 | raising one total by d raises the score by that total's weight times d |
| ProblemConfigs.WeightedMonotone | project/main/configs/problemConfig.cpp:95-98 | with non-negative weights the score is monotone in every total |
| ProblemConfigs.FirstError | project/main/configs/problemConfig.cpp:115-118 | checks run in order fail exactly when one element fails |
| ProblemConfigs.FirstErrorSnoc | project/main/configs/problemConfig.cpp:115-118 | a prefix without errors, extended by one element, fails with that element's error |
| ProblemConfigs.FirstErrorPrefix | project/main/configs/problemConfig.cpp:115-118 | the first error of a prefix is the first error of the whole sequence |
| ProblemConfigs.PlanetsError | project/main/configs/problemConfig.cpp:115-118 | the planets fail exactly when one planet's node cannot be produced |
| ProblemConfigs.Produce | project/main/configs/problemConfig.cpp:117 | one planet's node fails exactly with that planet's error, and otherwise is the node its configuration builds on a discretised ephemeris |
| ProblemConfigs.ProduceOne | project/main/configs/problemConfig.cpp:117 | the same, stated through the functions that stand for the error and the produced node |
| ProblemConfigs.ProduceAll | project/main/configs/problemConfig.cpp:115-118 | the loop yields one produced node per planet in order, or stops with the first planet's error |
| ProblemConfigs.ProduceNodes | project/main/configs/problemConfig.cpp:115-118 | the nodes of all planets in order, or the first planet's error |
| ProblemConfigs.ProblemConfig.constructor | project/main/configs/problemConfig.hpp:79-111 | a problem configuration holds its functionality, time settings, planets, both sections and the keep factor |
| ProblemConfigs.ProblemConfig.MakeMission | project/main/configs/problemConfig.cpp:103-120 | the mission fails with the FAX error, then the SAX error, then the first planet error; otherwise it holds both settings, the start time, the Sun's GM, and one produced node per planet in order |
| ProblemConfigs.ProblemConfig.MakeFinder | project/main/configs/problemConfig.cpp:122-137 | the finder fails on invalid time settings, then on an unset keep factor or one outside (0, 1] ("MissionkeepFactor must be in range of (0, 1]"), then on the mission, then on the functionality; otherwise it holds the mission's nodes and the configured functionality |
| ProblemConfigs.FinderNeeds | project/main/configs/problemConfig.cpp:126-134 | a finder is made only from valid time settings, a keep factor in (0, 1], and planets whose nodes can all be produced |

## Left out

- The GSL minimisers are abstract. In `SecondApprox.cpp` the simplex minimiser is a `Minimiser`: an initialisation status, an initial flight and a step function. Only the loop control around it is modelled. The minimiser that `FindMinimum` runs in both `link.cpp` files is a given function of the bracket, and its objective evaluations are what move the link: the objective's values are not modelled, only the probed times it leaves the link at (`LinkSearch.RunProbesLands`). The "unexpected state from multimin" throw for a GSL status other than success or `GSL_EBADFUNC` (`project/pathfinder/private/blocks/link.cpp:427-433`, `project/pathfinder/private/link.cpp:284-290`) is not modelled: a run of the abstract minimiser (`LinkSearch.MinimiserRun`) only says whether it stopped within `DTOL`.
- The numeric values of trigonometric functions, `sqrt`, `pow` and `acos` are left out: they are uninterpreted parameters (`Numerics.Funcs`) with only the laws the proofs need. This covers `Kepler::r/E/M/f`, `Hiperbolic::bmin/kink`, `GetBurnParams` and `MakeCorrection`'s power.
- Floating-point rounding, overflow and signed zero are not modelled. `FReal` and `float` are `real`. NaN is `None` or a tagged value (`Floats.Flt`, `SecondApproxSolver.Float`), and infinities appear only where the code's branches depend on them.
- `Math::Epsilon` and the library tolerances are parameters, and `Math::Equal(a, b, tol)` is taken as `|a - b| <= tol`: `Math` is not part of this model.
- The SPICE kernels are functions of a `Spice` or `RawSpice` record. Kernel loading, `furnsh_c` and the kernels' units beyond the kilometre-to-metre scaling are not modelled. The asserts around the kernel queries, `assert(et)` after `str2et_c` (`project/pathfinder/private/planetScript.cpp:95`, `project/pathfinder/private/planetEphemerides.cpp:68`) and `assert(n > 0)` after `bodvrd_c` (`project/pathfinder/private/planetScript.cpp:134`, `project/pathfinder/private/planetEphemerides.cpp:105`), are not modelled: the record always answers.
- Callbacks stored in path trees return the payload to store for the child. The C++ callbacks mutate the child in place through a reference, with the same effect on the stored payload.
- The `do`/`while` loop of `FindTragectory` has no iteration bound in the C++. The model runs it with a `fuel` count, and a run that exhausts it reports no trajectory. Behaviour beyond that bound is not modelled.
- Vector allocation and freeing in `SecondApprox.cpp` are not modelled. A `gsl_vector*` is an optional sequence, with `None` for a null pointer, and a failing `assert` is an `AssertFailed` error rather than an abort of the process.
- The `StateVectorMap` slots of `SecondApprox.cpp` hold raw pointers into the helper's fields and burn nodes. The model's slots hold locations that name those fields, so aliasing and pointer lifetime are not modelled.
- PathFinderLegacy.PathFinder.FirstApprox: takes the node check as a parameter (`check`). It stands for the virtual `NodeBase::Check` (`public/mission.hpp:30`) that `pathfinder.cpp:149` and `:160` call, whose overrides in `nodes.hpp` are `Nodes.Check`. The parameter is not instantiated with `Nodes.Check`, because that needs the physics record and the node invariants `Nodes.Checkable` demands.
- `ProblemConfigs.ProblemConfig.MakeFinder`: returns the mission and the functionality instead of a `PathFinder`. It does not model the newer `PathFinder` class: its header is not part of these files.
- `ProblemConfigs.MakeFunctionality`: the flight's `Correction`, `Mismatch` and `Impulse` are taken to be the totals `totalCorrection`, `totalMismatch` and `totalImpulse` of the chain record.
- The newer `PathFinder` constructor re-times each planet's ephemeris client. The model leaves this out: the newer `PathFinder` is not part of these files.
- Link finders are passed as closures (`real -> seq<Link>` and the like) in place of the C++ `std::function` members.
- `planet.hpp` is a stub declaring only the `EPlanet` enumeration. `planetScriptSimple` is not part of this model.
- `FindVelocity` and `FindVelAngle`: their values go through the uninterpreted `cos`, `sin`, `sqrt` and `atan` of the math library, so only the finite, circular and perpendicular cases are stated (`FindVelocityFinite`, `FindVelocityCircle`, `FindVelAngleCircle`).
- `GetTragectoryPoint`, axis rotations and quaternions are left out: they are pure numerics.
- File and console I/O, the command-line front end, JSON reflection of the configurations and `Defer` are left out.
- Numeric expectations of the test suites are not modelled, because they depend on floating-point values.
- Nodes.Check: requires non-zero sphere and parking radii and a bound script (`Checkable`). The C++ divides by these radii without a guard and dereferences the script unchecked.
- SecondApproxSolver.SecondApprox: requires that the mission has exactly one node more than the flight has legs. The C++ does not check this; with fewer legs, `ParseFlight` reads past the end of the chain.
- SolverUtiles.GetFlyTimeLimit: reports `None` for `GM = 0`, where the C++ divides by zero and gets an infinity or NaN.
- Ephemerides.EphemeridesClient.SetTime: takes a `real`, so a time can never be NaN. In the C++, setting a NaN time makes the client invalid again.
- PlanetScripts.PlanetScript.GetMovementD: requires `time >= 0`; the C++ `UInt64` conversion of a negative quotient is not modelled. The class fills chunks with the corrected `AddChunk`, under which the refilled chunk always holds the block, so the `.at` throw and the final throw are not reached. The lookup as written is `PlanetScripts.LookupAsWritten`: it agrees with the class when a chunk is a whole number of steps (`PlanetScripts.AlignedLookup`) and otherwise can throw (`PlanetScripts.AddChunkMissesBlock`).
- PlanetScripts.PlanetScript.AddChunk: fills the chunk as intended, with every block whose start lies in it. The chunk as written is `PlanetScripts.ChunkAsWritten`; it equals the intended one when the chunk size is a whole number of steps (`PlanetScripts.ChunkAligned`), and otherwise holds samples taken off the block starts and can lack a block (`PlanetScripts.AddChunkMissesBlock`).
- PlanetScripts.PlanetScript.GetMovement: the discretised answer is the block-start state because the class uses the corrected `AddChunk`; as written it is `PlanetScripts.LookupAsWritten`, which agrees only for whole-step chunks.
- PlanetConfigs.DiscretisedScript: the block-start answers hold for the corrected `AddChunk`; with the fill as written they hold when the chunk size is a whole number of steps (`PlanetScripts.AlignedLookup`).
- LinkSearch.FindScriptedLinks: requires a positive scan step `ts` and bisection tolerance `td` (the dispatch passes `timeStep` and `timeTol/100`). The configuration only checks that these are set (`ProblemConfigs.AXConfigChecks`), so with `timeStep <= 0` the scan of `blocks/link.cpp:491` never ends, and with `timeTol <= 0` the bisection of `blocks/link.cpp:375` need not end either. Those runs are not modelled.
- LinkLegacy.LegacyLinks: requires the same positive step and tolerance; with `timeStep <= 0` the scan of `link.cpp:334` never ends, and with `timeTol <= 0` the bisection of `link.cpp:241` need not end. Those runs are not modelled.
- PathFinderLegacy.PathFinder.FirstApprox: requires `LinkDispatch.ScanSettings` of the mission (a positive time step and tolerance, a non-zero GM), which the configuration does not enforce; the scans that would then never end are not modelled.
- FirstApproxSolver.FirstApprox: requires the same scan settings through `Runnable`, with the same unmodelled non-termination.
- LinkSearch.Solve: the `assert(den != 0)` of `project/pathfinder/private/trajectory/keplerOrbit.cpp:94` (unequal radii with a zero denominator of `w`) and an arrival radius `r1 = 0`, where `r0/r1` divides by zero, are modelled as a failed solve (`Solvable` is false, nothing changes). A debug build aborts there instead, and a release build goes on with `w = atan(±inf) - Q0`, which `epwqq` may accept; neither is modelled.
- LinkLegacy: the older `project/pathfinder/private/link.cpp:43-44` calls a three-argument `kepel::E(q0, r0, e)`, but the older `project/pathfinder/private/keplerOrbit.cpp:99` defines only the four-argument `E(qi, ri, e, a)`. The older link search is modelled with the newer three-argument `E` (`KeplerOrbit.E`); on an accepted ellipse the two agree (`KeplerOrbitLegacy.ELegacyAgreesOnEllipse`).
- Nodes.KinkLimit: composes `Hiperbolic::bmin` and `Hiperbolic::kink`, which are uninterpreted, so no property of the limit itself is stated; `Nodes.FlyByRejectsKinkLimit` states how the check uses it.
- SecondApproxSolver.SecondApproxHelper.ComputeFunctionality: when the search finds no flight, the current flight is left unchanged. The C++ swaps with `results[0]` of an empty vector.
- PlanetScripts.PlanetScript.constructor: requires `planet != ENone`; for `eNONE` the C++ throws `out_of_range` from `GetCenterBody`.

## Findings

| source | as written | input that shows it | evidently intended | confidence | as-written member | corrected member |
|---|---|---|---|---|---|---|
| project/pathfinder/private/solvers/SecondApprox.cpp:204-217 | `min` starts at NaN, so no `val < min` ever holds | scores `[2, 1]`: index 0 and NaN are returned | start from infinity and return the first smallest score | not executed | SecondApproxSolver.SelectFromNaN | SecondApproxSolver.SelectFromInf |
| project/pathfinder/private/solvers/SecondApprox.cpp:154 | the slot index advances by 2 per mission node, while each leg uses 5 slots | two legs: slot 9 (`5k - 1`) is never bound, and burn 1 rebinds slot 2 | an index advancing by 5 per node | not executed | SecondApproxSolver.SlotsStrideTwoUnbound | SecondApproxSolver.SlotsStrideFive |
| project/pathfinder/private/solvers/SecondApprox.cpp:167-168 | the toss angle is read from `fpos->link.f0` after `fpos++`, that is from the next leg | the last burn of any flight reads past the end of the chain | the departure angle of the leg leaving the node | not executed | SecondApproxSolver.DepartureAngleAsWrittenOverruns | SecondApproxSolver.StartAnglesFollowFlight |
| project/pathfinder/private/firstApproxUtiles.cpp:24-32 | the acceptance tests `e < 0 \|\| e >= 1` and `p < 0` are false for NaN | `Q0 = Q1 = 0`, `r0 = r1 = 1`: accepted with `(NaN, NaN)` | reject NaN elements | not executed | FirstApproxUtiles.FindPEAcceptsNaN | FirstApproxUtiles.FindPEEllipse |
| project/pathfinder/private/pathTree.hpp:126-129 | the flag is built with logical `&&`, so each term is 0 or 1 | the last pair gets flag 1 (first iteration) and never `eLastIteration` | bitwise selection of each flag | not executed | PathTreeLegacy.FlagAsWrittenBits | PathTreeLegacy.FlagIntendedBits |
| project/pathfinder/private/link.cpp:182 | `s2` reads `window[1]` | samples `+1, +3` after `-1`: an extremum is reported across a sign change | `s2 = window[2]` | not executed | LinkWindow.LegacyExtremumAcrossSignChange | LinkWindow.PatternMeaning |
| project/pathfinder/private/link.cpp:19 | `this->t0 = t0` assigns the member to itself | `t0` of one day: a zero mismatch is in truth a day late | `t0 = cfg.t0` | not executed | LinkLegacy.AsWrittenRootIsLate | LinkLegacy.StartIntended |
| project/pathfinder/private/planetScript.cpp:255-265 | the chunk is filled from `chunkSize * n` in steps, keyed by `floor(ti / stepSize)` | step 1, chunk 1.3: time 5.1 lies in chunk 3 but block 5, which chunk 3 lacks | each chunk holds every block whose times fall in it | not executed | PlanetScripts.AddChunkMissesBlock | PlanetScripts.BlocksCover |
| project/pathfinder/private/solvers/SecondApprox.cpp:120-121 | the constructor allocates `x0` and `ss` into locals that shadow the members, which stay null | any flight that gets past the burn factory: `Sync_x0_ss` fails `assert(x0)` | allocate the member vectors | not executed | SecondApproxSolver.SyncNullAborts | SecondApproxSolver.SyncStrideFivePasses |
| project/pathfinder/private/planetEphemerides.cpp:51-55 | the location reads entries 1 to 3 of the six-entry state | a body at (1, 2, 3) km moving at (4, 5, 6) km/s is placed at (2, 3, 4) km | entries 0 to 2, the position | not executed | PlanetEphemeris.LocationSlip | PlanetEphemeris.LocationCorrected |
| project/pathfinder/private/firstApproxUtiles.cpp:103-140 | accepted NaN elements give a NaN flight time, a NaN probe, and `t1 < te` then ends the loop | the arrival planet at the departure's radius and direction at the first probe: the search stops there without a trajectory | reject the probe and step on by `ts` | not executed | FirstApproxUtiles.AsWrittenRunStops | FirstApproxUtiles.CorrectedStepsOn |
