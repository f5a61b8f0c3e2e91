# Belt geometry solver — a Dafny model

The solver lays a belt around a cyclic sequence of at least two circular pulleys
in a plane.

Its geometry pass computes, for each edge from pulley i to pulley (i + 1) mod n:

- the centre distance and the centre-line angle;
- the straight tangent segment between the two pulleys (outer or crossed,
  chosen by the signed radius difference r_j·d_j − r_i·d_i);
- the tangent's angle relative to the centre line and to the x axis.

The same pass also computes, for each pulley:

- the angle and length of belt wrapped on it;
- the two points where the belt meets its rim;
- and, summed over the whole belt, the total belt length.

The geometry pass refuses a belt whose adjacent centres are closer than
1.01·(r_i + r_j).

Its force pass does four things:

1. It overwrites the torque of one "unknown torque" pulley so that the drives
   d·T/r cancel around the loop.
2. It propagates the tension from segment to segment.
3. It shifts all tensions by an offset. With no tensioner, the offset makes the
   smallest tension equal the minimum tension. With a tensioner pulley, it makes
   the mean of the tensions entering and leaving that pulley equal the tensioner
   tension.
4. It refuses any negative tension ("you can't push on a rope"), and otherwise
   computes the reaction force on every pulley.

A staleness flag marks the cached forces for recomputation. A successful
geometry pass sets it; a failed pass and changes made directly to a pulley
leave it as it was. A successful force solve clears it. The force getters solve
first exactly when it is set.

Modules, leaf first:

- `Errors`: the error constructors, `Option`, `Result`, `Outcome`.
- `Trig`: π, the host math library and the `% 2π` wrap.
- `Cyclic`: successor, predecessor and rotation of indices modulo n.
- `Series`: sum, minimum, first index of the minimum, and shift of a real
  sequence.
- `Pulleys`: the pulley class and its direction parser.
- `Geometry` and `Forces`: what each pass computes, as functions of a snapshot
  of the pulleys.
- `Passes`: the loops of both passes, proved against those functions.
- `Belts`: the belt class, its validation, its setters and getters, and its
  constructor.

The transcendental functions (`hypot`, `atan2`, `sqrt`, `asin`, `cos`, `sin`)
are fields of a `MathLib` value that the belt receives and keeps. Nothing is
assumed about them. The one exception is `Geometry.TotalLengthNonNegative`,
which takes "the square root of a positive number is not negative" as a
hypothesis.

Three behaviours of the code that the model keeps:

- Moving a pulley or changing its torque marks nothing stale. The code keeps no
  geometry flag.
- Changing the minimum or tensioner tension recomputes the forces at once. It
  does not merely mark them stale.
- A failed geometry pass leaves the lists it filled up to the failing edge.
  Those lists are not unset.

## Model

| member | source | states |
|---|---|---|
| `Pulleys.ParseDirection` | pulley_object.py:84-91 | the result is +1 exactly for the tokens 1 and "CW", −1 exactly for −1 and "CCW", and every other token is refused with an invalid-direction error |
| `Pulleys.Pulley.constructor` | pulley_object.py:58-63 | the new pulley holds the given radius, position, direction and torque |
| `Pulleys.NewPulley` | pulley_object.py:42-63 | a radius ≤ 0 is refused first, then a bad direction token; otherwise a fresh pulley holds the radius, position and torque as given (torque 0 by default) and the parsed direction |
| `Pulleys.Pulley.UpdatePosition` | pulley_object.py:65-75 | only x and y change, to the given values; radius, direction and torque stay |
| `Pulleys.Pulley.UpdateTorque` | pulley_object.py:77-82 | only the torque changes, to the given value |
| `Pulleys.SignedIsProduct` | belt_object.py:336 | the case split used for d·x is the product of the direction ±1 and x |
| `Trig.TwoPiIsTwicePi` | belt_object.py:289 | the modulus of the wrap is 2π |
| `Trig.Angle0To2Pi` | belt_object.py:287-289 | the floored remainder by 2π lies in [0, 2π) |
| `Trig.Angle0To2PiFixesRange` | belt_object.py:287-289 | an angle already in [0, 2π) is returned unchanged |
| `Trig.Angle0To2PiPeriodic` | belt_object.py:287-289 | adding any whole number of turns does not change the wrapped angle |
| `Trig.Angle0To2PiIdempotent` | belt_object.py:287-289 | wrapping twice gives the same as wrapping once |
| `Cyclic.Succ` | belt_object.py:393 | the next index stays in [0, n) |
| `Cyclic.SuccIsModulo` | belt_object.py:393 | the next index is (i + 1) mod n |
| `Cyclic.Pred` | belt_object.py:431 | the previous index stays in [0, n) |
| `Cyclic.PredIsModulo` | belt_object.py:368 | the previous index is (i − 1) mod n with a floored modulo, so the predecessor of 0 is n − 1 |
| `Cyclic.SuccPredInverse` | belt_object.py:393 | stepping forward and back (or back and forward) returns to the same index |
| `Cyclic.Rotate` | belt_object.py:335 | the visited slot stays in [0, n) |
| `Cyclic.RotateIsModulo` | belt_object.py:335 | the slot visited at step i is (i + ut) mod n |
| `Cyclic.RotationVisitsOthersOnce` | belt_object.py:334-335 | steps 1 .. n−1 never visit ut, never visit a slot twice, and reach every other slot |
| `Series.SumAppend` | belt_object.py:458 | the sum of a concatenation is the sum of its parts |
| `Series.SumNonNegative` | belt_object.py:458 | a sum of non-negative terms is non-negative |
| `Series.Min` | belt_object.py:351 | the minimum is an element of the list and no element is smaller |
| `Series.ArgMin` | belt_object.py:362 | the index holds the minimum and every earlier element is strictly larger, so it is the first minimum |
| `Series.MinOfShift` | belt_object.py:351-358 | shifting every element shifts the minimum by the same amount |
| `Geometry.FirstTooClose` | belt_object.py:392-414 | it returns none exactly when no edge from `from` on is closer than the minimum spacing; otherwise the edge it returns is too close and no earlier edge is |
| `Geometry.FirstTooCloseAt` | belt_object.py:411-414 | an edge that is too close, with no edge before it too close, is the edge the spacing check stops at |
| `Geometry.GlobalTangentAngle` | belt_object.py:427 | the tangent direction lies in [0, 2π) |
| `Geometry.TangentDomain` | belt_object.py:411-424 | once an edge passes the spacing check, the centre distance is positive and the absolute value of r_j·d_j − r_i·d_i is strictly below it, so the square-root argument is positive and the arc-sine argument lies strictly inside (−1, 1) |
| `Geometry.WrapAngle` | belt_object.py:440 | every wrap angle lies in [0, 2π) |
| `Geometry.WrapLengthBounds` | belt_object.py:440-441 | every wrap length is non-negative and below the pulley's circumference |
| `Geometry.TotalLengthNonNegative` | belt_object.py:458 | given a square root that is not negative on positive arguments, the belt length is not negative |
| `Geometry.TranslationInvariant` | belt_object.py:392-458 | moving every pulley by one offset changes neither feasibility, nor any centre distance, centre-line angle, tangent length, tangent angle or wrap angle, nor the total length; the contact points move by the offset |
| `Forces.KnownDrivesCoverOthers` | belt_object.py:334-336 | the summed drives are those of every pulley except ut: each other pulley is counted at its own step, and no two pulleys share a step |
| `Forces.RotatedSum` | belt_object.py:332-338 | the sum of all drives is the drive of ut plus the sum of the known drives |
| `Forces.KnownDrivesSkipUt` | belt_object.py:334-338 | the known drives do not depend on the torque of pulley ut |
| `Forces.BalancingTorqueUnique` | belt_object.py:338 | a pulley's drive cancels the known drives exactly when its torque is −(d·S·r) |
| `Forces.BalancedIffSolved` | belt_object.py:332-338 | after writing a torque into pulley ut, the drives cancel around the loop if and only if that torque is the solved one |
| `Forces.SolveBalances` | belt_object.py:338 | after the solve, the sum of d·T/r over all pulleys, the overwritten one included, is zero |
| `Forces.RelTensionIsPrefixSum` | belt_object.py:341-345 | the relative tension of segment i is minus the sum of the drives of pulleys 1 .. i |
| `Forces.TensionPropagation` | belt_object.py:341-358 | the shifted tension drops across every pulley i by its drive, tension[(i−1) mod n] − tension[i] = d_i·T_i/r_i; for i ≠ 0 always, and for i = 0, where the loop closes, when the torques balance |
| `Forces.MinTensionMode` | belt_object.py:350-351 | with no tensioner the smallest shifted tension is exactly the minimum tension |
| `Forces.NoTensionerNeverNegative` | belt_object.py:350-362 | with no tensioner and a non-negative minimum, no tension is negative, so the negative-tension error cannot occur |
| `Forces.TensionerMode` | belt_object.py:353-358 | with a tensioner at t, the mean of the tensions entering and leaving t is exactly the tensioner tension; a tensioner at slot 0 needs the torques to balance |
| `Forces.SignedQuotient` | belt_object.py:355 | d·(T/r) equals (d·T)/r, the form the tension propagation uses |
| `Forces.ReactionAngle` | belt_object.py:376 | the reaction direction lies in [0, 2π) |
| `Passes.SpacingAt` | belt_object.py:395-414 | the centre distance and minimum spacing read from the pulleys are the snapshot's, and the check fails exactly when the edge is too close |
| `Passes.TangentAt` | belt_object.py:416-427 | the centre-line angle, tangent length and tangent angles computed from the pulleys agree with the snapshot's values for that edge |
| `Passes.EdgePass` | belt_object.py:392-427 | the edge loop succeeds exactly when every edge passes the spacing check, and then fills every list entry; otherwise it names the first edge that is too close and its successor, and only the entries up to that edge change |
| `Passes.ArcAt` | belt_object.py:430-455 | the wrap angle, wrap length and contact points of pulley i agree with the snapshot's values |
| `Passes.WrapPass` | belt_object.py:430-455 | every wrap angle, wrap length and contact point in the lists is the snapshot's |
| `Passes.TotalOfLists` | belt_object.py:458 | the sum of the wrap lengths plus the sum of the tangent lengths is the belt length |
| `Passes.GeometryPass` | belt_object.py:385-458 | the geometry pass succeeds exactly when the belt is feasible, and the table is then the whole geometry of the snapshot with total length Σ wrap + Σ tangent; on failure it reports the first edge that is too close, and the arc lists and total length keep their old values |
| `Passes.EmptyGeometry` | belt_object.py:73-84 | every geometry list starts with one entry per pulley |
| `Passes.KnownDriveSum` | belt_object.py:332-336 | the accumulated sum is the sum of the drives of every pulley except ut |
| `Passes.SolveTorque` | belt_object.py:332-338 | afterwards the pulley object in slot ut carries the balancing torque, seen through every slot that holds it, and nothing else changes |
| `Passes.TorqueWrite` | belt_object.py:338 | the value written into the pulley is the balancing torque of its state |
| `Passes.UnsharedWrite` | belt_object.py:338 | when no other slot holds the pulley in slot ut, the write is the solve of that one slot and the torques balance |
| `Passes.RelTensionPass` | belt_object.py:341-345 | the running loop produces exactly the relative tensions of the snapshot |
| `Passes.Tensions` | belt_object.py:341-358 | the shifted tensions are the snapshot's local tensions for the configured mode |
| `Passes.ReactionPass` | belt_object.py:367-377 | every reaction angle and reaction force in the lists is the one given by the tensions entering and leaving that pulley along their tangent angles |
| `Passes.ForcePass` | belt_object.py:321-378 | the torque is written as in `SolveTorque`, and the torques balance when that pulley is unshared; the pass fails exactly when the smallest tension is negative, reporting its first index and value and keeping the old force lists; otherwise the lists hold the tensions and their reactions; with no tensioner it never fails and the smallest tension is the minimum tension |
| `Passes.ForcePassTensions` | belt_object.py:341-364 | after a successful force pass every reported tension is non-negative; with no tensioner the smallest is the minimum tension; the tension drops across every pulley but pulley 0 by its drive, and a tensioner at a slot other than 0 sees the tensioner tension as its mean; at slot 0 both need the unknown-torque pulley to be unshared |
| `Belts.ValidatePosNum` | belt_object.py:306-311 | the value passes exactly when it is ≥ 0, and is otherwise refused under its name |
| `Belts.ValidateIndex` | belt_object.py:299-304 | the index passes exactly when 0 ≤ i < n, and is otherwise refused with its name and value |
| `Belts.ValidateConfig` | belt_object.py:46-70 | construction is accepted exactly for ≥ 2 pulleys, non-negative tensions and in-range indices; the first failing check in the constructor's order decides the error |
| `Belts.ListIndex` | belt_object.py:184-186 | subscripts −n .. n−1 are accepted, negative ones counting from the end, and anything else is refused |
| `Belts.Belt.constructor` | belt_object.py:50-91 | the belt stores the configuration, every result list holds n zeros, both scales are 1, and the forces are stale |
| `Belts.Belt.ComputeGeometry` | belt_object.py:385-461 | the outcome and the table are those of `GeometryPass` on the current pulleys; a success marks the forces stale, and a failure leaves the flag as it was |
| `Belts.Belt.ComputeForces` | belt_object.py:321-380 | the outcome, the force lists and the pulleys are those of `ForcePass` on the current configuration and the cached tangent angles; a success clears the staleness flag, and a failure leaves it set as it was |
| `Belts.Belt.ChangeMinTension` | belt_object.py:99-103 | a negative tension is refused and nothing changes; otherwise it is stored and the forces are solved again at once |
| `Belts.Belt.ChangeTensionerTension` | belt_object.py:105-109 | a negative tension is refused and nothing changes; otherwise it is stored and the forces are solved again at once |
| `Belts.Belt.ReplacePulley` | belt_object.py:111-116 | an out-of-range slot is refused and nothing changes; otherwise only that slot is replaced and the geometry is recomputed |
| `Belts.Belt.SetTorqueScale` | belt_object.py:118-120 | a negative scale is refused and the old one kept; otherwise it is stored |
| `Belts.Belt.SetForceScale` | belt_object.py:122-124 | a negative scale is refused and the old one kept; otherwise it is stored |
| `Belts.Belt.GetAllForces` | belt_object.py:171-178 | the forces are solved first exactly when they are stale, and otherwise nothing changes; a failed solve is reported; a success returns the cached force lists |
| `Belts.Belt.GetSegmentForces` | belt_object.py:180-187 | solves first exactly when stale; then the entries at the subscript (negative counts from the end), or an index error when it is outside −n .. n−1 |
| `Belts.NewBelt` | belt_object.py:46-94 | the first failing input check is reported; a valid configuration yields a belt exactly when the pulleys are feasible, with the geometry current and the forces stale; otherwise the first edge that is too close is reported |

## Left out

- Type checks (`isinstance` on numbers, indices and pulley objects, and `validate_pulley`) are left out: Dafny's types rule those inputs out. A direction token is a number or a string.
- Floating point is left out. Every quantity is a `real`, π is the exact rational 3.141592653589793, and `% 2π` is the exact floored remainder. Rounding (for example a float `%` returning exactly 2π for a tiny negative angle) is not reproduced.
- `hypot`, `atan2`, `sqrt`, `asin`, `cos` and `sin` are parameters (the `MathLib` value), with no properties assumed. The reaction forces and contact points are therefore stated only as the expressions the code evaluates.
- `draw_belt`, `__line_colour`, `__arc_colour` and `__repr__` are rendering and text output. The force solve that `draw_belt` triggers when the forces are stale is the one `Belt.ComputeForces` models.
- `get_total_length`, `get_pulley`, `get_wrap_length`, `get_global_tangent_angle`, `get_all_geometry` and `get_segment_geometry` only read a field. In the model they are reads of `Belt.geometry` and `Belt.pulleys`.
- The eleven geometry lists and the total length are one record field (`geometry`), and the three force lists are another (`forces`). Each pass fills its lists and the belt stores them with one assignment. List-by-list update in place is not modelled.
- The result lists start as `[None] * n` and `total_length` starts as `None`. In the model they start as zeros.
- `Passes.ForcePass`: the torque balance is stated only when no other slot holds the same pulley object as the unknown-torque slot. When it is shared, the written torque also changes the other slot's drive and the loop is not balanced. The contract then states only the write through every alias.
- `Passes.ForcePassTensions`: the propagation across pulley 0 and a tensioner at slot 0 are stated only for an unshared unknown-torque pulley, for the same reason.
- `Geometry.TotalLengthNonNegative`: takes non-negativity of the square root as a hypothesis, because the math library is a parameter.
- The belt's index arguments are typed `int`; a non-integer index (a `TypeError` in the code) cannot be passed.
- A belt may use the same slot as both the unknown-torque pulley and the tensioner. The code accepts this, and so does the model.
- The example scripts (`belt_example.py`, `bike_belt_example.py`, `bike_tensioner_config.py`) are not part of this model.
