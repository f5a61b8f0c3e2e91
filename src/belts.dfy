/**
 * The belt object: a cyclic sequence of at least two pulleys, the force solver's
 * configuration, and the per-index results of the geometry and force passes,
 * cached in lists the passes fill in place. A staleness flag records whether the
 * cached forces still belong to the current geometry.
 */
module Belts {
  import opened Errors
  import opened Trig
  import opened Cyclic
  import opened Series
  import opened Pulleys
  import opened Geometry
  import opened Forces
  import opened Passes

  // ---------- input validation ----------

  /** A tension or a scale must not be negative; zero is accepted. */
  function ValidatePosNum(name: string, num: real): (r: Outcome)
    ensures r.Pass? <==> num >= 0.0
    ensures r.Fail? ==> r.error == NegativeNumber(name)
  {
    if num < 0.0 then Fail(NegativeNumber(name)) else Pass
  }

  /** An index into the pulleys must lie in [0, n). */
  function ValidateIndex(name: string, i: int, n: nat): (r: Outcome)
    ensures r.Pass? <==> 0 <= i < n
    ensures r.Fail? ==> r.error == IndexOutOfRange(name, i)
  {
    if i < 0 || i >= n then Fail(IndexOutOfRange(name, i)) else Pass
  }

  /** What construction demands of its arguments. */
  predicate ConfigOk(count: nat, unknownTorqueIndex: int, minTension: real,
                     tensionerIndex: Option<int>, tensionerTension: real)
  {
    2 <= count && minTension >= 0.0 && tensionerTension >= 0.0 &&
    0 <= unknownTorqueIndex < count &&
    (tensionerIndex.Some? ==> 0 <= tensionerIndex.value < count)
  }

  /**
   * The checks construction makes, in its order: the pulley count, the minimum
   * tension, the tensioner tension, the unknown-torque index, and the tensioner
   * index when one is given. The first failing check decides the error.
   */
  function ValidateConfig(count: nat, unknownTorqueIndex: int, minTension: real,
                          tensionerIndex: Option<int>, tensionerTension: real): (r: Outcome)
    ensures r.Pass? <==> ConfigOk(count, unknownTorqueIndex, minTension, tensionerIndex, tensionerTension)
    ensures count < 2 ==> r == Fail(TooFewPulleys)
    ensures 2 <= count && minTension < 0.0 ==> r == Fail(NegativeNumber("Minimum"))
    ensures 2 <= count && minTension >= 0.0 && tensionerTension < 0.0 ==> r == Fail(NegativeNumber("Tensioner"))
    ensures r.Fail? && 2 <= count && minTension >= 0.0 && tensionerTension >= 0.0 ==>
      if 0 <= unknownTorqueIndex < count
      then r == Fail(IndexOutOfRange("tensioner", tensionerIndex.value))
      else r == Fail(IndexOutOfRange("unknown_torque", unknownTorqueIndex))
  {
    if count < 2 then Fail(TooFewPulleys)
    else if ValidatePosNum("Minimum", minTension).Fail? then ValidatePosNum("Minimum", minTension)
    else if ValidatePosNum("Tensioner", tensionerTension).Fail? then ValidatePosNum("Tensioner", tensionerTension)
    else if ValidateIndex("unknown_torque", unknownTorqueIndex, count).Fail? then
      ValidateIndex("unknown_torque", unknownTorqueIndex, count)
    else if tensionerIndex.Some? then ValidateIndex("tensioner", tensionerIndex.value, count)
    else Pass
  }

  /**
   * A list subscript as the host language reads it: -n <= i < 0 counts from the
   * end, anything outside -n .. n-1 is an error.
   */
  function ListIndex(i: int, n: nat): (r: Option<nat>)
    ensures r.Some? <==> -(n as int) <= i < n
    ensures r.Some? ==> r.value < n && (if i >= 0 then r.value == i else r.value == i + n)
  {
    if 0 <= i < n then Some(i as nat)
    else if -(n as int) <= i < 0 then Some((i + n) as nat)
    else None
  }

  /** The forces of one pulley and of the segment leaving it. */
  datatype SegmentForces = SegmentForces(reactionAngle: real, reactionForce: real, localTension: real)

  class Belt {
    const num: nat
    /** The host math library the passes call. */
    const math: MathLib
    const unknownTorqueIndex: nat
    const tensionerIndex: Option<nat>

    var pulleys: seq<Pulley>
    var minTension: real
    var tensionerTension: real
    /** The per-index lists of the geometry pass and the belt length, under their own names. */
    var geometry: GeometryTable
    /** The per-index lists of the force pass. */
    var forces: ForceReport
    var forceScale: real
    var torqueScale: real
    /** Set by the geometry pass, cleared by a successful force pass. */
    var recomputeForces: bool

    ghost predicate Valid()
      reads this
    {
      2 <= num && |pulleys| == num && unknownTorqueIndex < num &&
      (tensionerIndex.Some? ==> tensionerIndex.value < num) &&
      minTension >= 0.0 && tensionerTension >= 0.0 && forceScale >= 0.0 && torqueScale >= 0.0 &&
      geometry.Sized(num) && forces.Sized(num)
    }

    /** The cached geometry is the geometry of the current pulleys. */
    ghost predicate GeometryCurrent()
      reads this, pulleys
    {
      GeometryOf(math, States(pulleys), geometry)
    }

    /**
     * What a geometry pass leaves: it succeeds exactly when every edge passes the
     * spacing check, and then the cached geometry is current and the forces are
     * stale; otherwise it reports the first edge that is too close, stops there,
     * and leaves the staleness flag as it was.
     */
    twostate predicate GeometrySolved(r: Outcome)
      reads this, pulleys
    {
      GeometryPassResult(math, States(pulleys), old(geometry), r, geometry) &&
      recomputeForces == (r.Pass? || old(recomputeForces))
    }

    /**
     * What a force solve leaves: the force lists and the pulleys as the force
     * pass leaves them (see ForcePassResult), with the forces no longer stale
     * exactly when the pass succeeded.
     */
    twostate predicate ForcesSolved(r: Outcome)
      requires Valid()
      reads this, pulleys
    {
      |old(States(pulleys))| == num &&
      ForcePassResult(math, old(States(pulleys)), pulleys, States(pulleys), unknownTorqueIndex, tensionerIndex,
                      minTension, tensionerTension, geometry.globalTangentAngle, old(forces), r, forces) &&
      recomputeForces == (r.Fail? && old(recomputeForces))
    }

    /** Stores an already validated configuration; every result list starts as zeros. */
    constructor (pulleys: seq<Pulley>, math: MathLib, unknownTorqueIndex: nat, minTension: real,
                 tensionerIndex: Option<nat>, tensionerTension: real)
      requires ConfigOk(|pulleys|, unknownTorqueIndex, minTension, tensionerIndex, tensionerTension)
      ensures Valid()
      ensures this.num == |pulleys| && this.pulleys == pulleys && this.math == math
      ensures this.unknownTorqueIndex == unknownTorqueIndex && this.tensionerIndex == tensionerIndex
      ensures this.minTension == minTension && this.tensionerTension == tensionerTension
      ensures geometry == EmptyGeometry(num) && forces == ForceReport(Zeros(num), Zeros(num), Zeros(num))
      ensures forceScale == 1.0 && torqueScale == 1.0 && recomputeForces
    {
      var n := |pulleys|;
      this.num := n;
      this.math := math;
      this.pulleys := pulleys;
      this.minTension := minTension;
      this.tensionerTension := tensionerTension;
      this.unknownTorqueIndex := unknownTorqueIndex;
      this.tensionerIndex := tensionerIndex;
      geometry := EmptyGeometry(n);
      forces := ForceReport(Zeros(n), Zeros(n), Zeros(n));
      forceScale := 1.0;
      torqueScale := 1.0;
      recomputeForces := true;
    }

    /** The geometry pass, filling the cached lists; on success the forces are marked stale. */
    method ComputeGeometry() returns (r: Outcome)
      requires Valid()
      modifies this`geometry, this`recomputeForces
      ensures Valid() && GeometrySolved(r)
    {
      ghost var ps := States(pulleys);
      var g;
      r, g := GeometryPass(math, pulleys, ps, geometry);
      geometry := g;
      if r.Pass? {
        recomputeForces := true;
      }
      StatesUnchanged(pulleys);
    }

    /** The force pass, filling the cached force lists; on success the forces are no longer stale. */
    method ComputeForces() returns (r: Outcome)
      requires Valid()
      modifies this`forces, this`recomputeForces, pulleys[unknownTorqueIndex]
      ensures Valid() && ForcesSolved(r)
    {
      var f;
      r, f := ForcePass(math, pulleys, unknownTorqueIndex, tensionerIndex, minTension, tensionerTension,
                        geometry.globalTangentAngle, forces);
      label Solved:
      forces := f;
      if r.Pass? {
        recomputeForces := false;
      }
      StatesUnchanged@Solved(pulleys);
    }

    /** Validates and stores a new minimum tension, then solves the forces again. */
    method ChangeMinTension(tension: real) returns (r: Outcome)
      requires Valid()
      modifies this`minTension, this`forces, this`recomputeForces, pulleys[unknownTorqueIndex]
      ensures Valid()
      ensures tension < 0.0 ==>
        r == Fail(NegativeNumber("Minimum tension")) && unchanged(this) && unchanged(pulleys[unknownTorqueIndex])
      ensures tension >= 0.0 ==> minTension == tension && ForcesSolved(r)
    {
      r := ValidatePosNum("Minimum tension", tension);
      if r.Fail? {
        return;
      }
      minTension := tension;
      r := ComputeForces();
    }

    /** Validates and stores a new tensioner tension, then solves the forces again. */
    method ChangeTensionerTension(tension: real) returns (r: Outcome)
      requires Valid()
      modifies this`tensionerTension, this`forces, this`recomputeForces, pulleys[unknownTorqueIndex]
      ensures Valid()
      ensures tension < 0.0 ==>
        r == Fail(NegativeNumber("Tensioner tension")) && unchanged(this) && unchanged(pulleys[unknownTorqueIndex])
      ensures tension >= 0.0 ==> tensionerTension == tension && ForcesSolved(r)
    {
      r := ValidatePosNum("Tensioner tension", tension);
      if r.Fail? {
        return;
      }
      tensionerTension := tension;
      r := ComputeForces();
    }

    /** Validates the slot, puts the pulley in it, then recomputes the geometry. */
    method ReplacePulley(pulley: Pulley, position: int) returns (r: Outcome)
      requires Valid()
      modifies this`pulleys, this`geometry, this`recomputeForces
      ensures Valid()
      ensures !(0 <= position < num) ==> r == Fail(IndexOutOfRange("Pulley", position)) && unchanged(this)
      ensures 0 <= position < num ==> pulleys == old(pulleys)[position := pulley] && GeometrySolved(r)
    {
      r := ValidateIndex("Pulley", position, num);
      if r.Fail? {
        return;
      }
      pulleys := pulleys[position := pulley];
      r := ComputeGeometry();
    }

    /** Validates and stores the scale the drawing applies to torques. */
    method SetTorqueScale(scale: real) returns (r: Outcome)
      requires Valid()
      modifies this`torqueScale
      ensures Valid()
      ensures r == ValidatePosNum("Torque scale", scale)
      ensures torqueScale == if r.Pass? then scale else old(torqueScale)
    {
      r := ValidatePosNum("Torque scale", scale);
      if r.Pass? {
        torqueScale := scale;
      }
    }

    /** Validates and stores the scale the drawing applies to forces. */
    method SetForceScale(scale: real) returns (r: Outcome)
      requires Valid()
      modifies this`forceScale
      ensures Valid()
      ensures r == ValidatePosNum("Force scale", scale)
      ensures forceScale == if r.Pass? then scale else old(forceScale)
    {
      r := ValidatePosNum("Force scale", scale);
      if r.Pass? {
        forceScale := scale;
      }
    }

    /** All force lists; the forces are solved first exactly when they are stale. */
    method GetAllForces() returns (r: Result<ForceReport>)
      requires Valid()
      modifies this`forces, this`recomputeForces, pulleys[unknownTorqueIndex]
      ensures Valid()
      ensures old(recomputeForces) ==> ForcesSolved(if r.Err? then Fail(r.error) else Pass)
      ensures !old(recomputeForces) ==> r.Ok? && unchanged(this) && unchanged(pulleys[unknownTorqueIndex])
      ensures r.Ok? ==> r.value == forces
    {
      if recomputeForces {
        var solved := ComputeForces();
        if solved.Fail? {
          return Err(solved.error);
        }
      }
      return Ok(forces);
    }

    /**
     * The forces of pulley i and of the segment leaving it, solving first exactly
     * when the forces are stale; i is a list subscript, so -num <= i < 0 counts
     * from the end.
     */
    method GetSegmentForces(i: int) returns (r: Result<SegmentForces>)
      requires Valid()
      modifies this`forces, this`recomputeForces, pulleys[unknownTorqueIndex]
      ensures Valid()
      ensures old(recomputeForces) ==>
        ForcesSolved(if r.Err? && r.error.NegativeTension? then Fail(r.error) else Pass)
      ensures !old(recomputeForces) ==>
        !(r.Err? && r.error.NegativeTension?) && unchanged(this) && unchanged(pulleys[unknownTorqueIndex])
      ensures !(r.Err? && r.error.NegativeTension?) ==>
        (ListIndex(i, num).None? ==> r == Err(ListIndexOutOfRange(i))) &&
        (ListIndex(i, num).Some? ==>
          var k := ListIndex(i, num).value;
          r == Ok(SegmentForces(forces.reactionAngle[k], forces.reactionForce[k], forces.localTension[k])))
    {
      if recomputeForces {
        var solved := ComputeForces();
        if solved.Fail? {
          return Err(solved.error);
        }
      }
      var k := ListIndex(i, num);
      if k.None? {
        return Err(ListIndexOutOfRange(i));
      }
      return Ok(SegmentForces(forces.reactionAngle[k.value], forces.reactionForce[k.value], forces.localTension[k.value]));
    }
  }

  /**
   * Builds a belt: validates the configuration in the constructor's order, stores
   * it, and computes the geometry, refusing a belt whose pulleys are too close.
   */
  method NewBelt(pulleys: seq<Pulley>, math: MathLib, unknownTorqueIndex: int := 0, minTension: real := 0.0,
                 tensionerIndex: Option<int> := None, tensionerTension: real := 0.0)
    returns (r: Result<Belt>)
    ensures var check := ValidateConfig(|pulleys|, unknownTorqueIndex, minTension, tensionerIndex, tensionerTension);
      check.Fail? ==> r == Err(check.error)
    ensures ConfigOk(|pulleys|, unknownTorqueIndex, minTension, tensionerIndex, tensionerTension) ==>
      (r.Ok? <==> Feasible(math, States(pulleys))) &&
      (r.Err? ==> r.error.PulleysTooClose? && FirstTooClose(math, States(pulleys), 0) == Some(r.error.i))
    ensures r.Ok? ==>
      var b := r.value;
      fresh(b) && b.Valid() && b.pulleys == pulleys && b.math == math &&
      b.unknownTorqueIndex == unknownTorqueIndex && b.minTension == minTension &&
      b.tensionerTension == tensionerTension &&
      (if tensionerIndex.None? then b.tensionerIndex.None? else b.tensionerIndex == Some(tensionerIndex.value as nat)) &&
      b.GeometryCurrent() && b.recomputeForces && b.forceScale == 1.0 && b.torqueScale == 1.0 &&
      b.forces == ForceReport(Zeros(|pulleys|), Zeros(|pulleys|), Zeros(|pulleys|))
  {
    var check := ValidateConfig(|pulleys|, unknownTorqueIndex, minTension, tensionerIndex, tensionerTension);
    if check.Fail? {
      return Err(check.error);
    }
    var tensioner: Option<nat> := if tensionerIndex.None? then None else Some(tensionerIndex.value as nat);
    var b := new Belt(pulleys, math, unknownTorqueIndex as nat, minTension, tensioner, tensionerTension);
    var geometry := b.ComputeGeometry();
    if geometry.Fail? {
      return Err(geometry.error);
    }
    return Ok(b);
  }
}
