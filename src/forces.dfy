/**
 * The static force solve of a belt: the torque that balances the loop, the
 * tension in every straight segment, and the reaction each pulley feels. All
 * of it is a function of a snapshot of the pulleys; the belt's imperative
 * solver is proved against these definitions.
 *
 * Segment i runs from pulley i to pulley Succ(i). Pulley i sits between
 * segment Pred(i) (belt coming in) and segment i (belt going out).
 */
module Forces {
  import opened Errors
  import opened Trig
  import opened Cyclic
  import opened Series
  import opened Pulleys

  // ---------- torque balance ----------

  /** The belt force a pulley's torque demands, d * T / r. */
  function Drive(p: PulleyState): real
  {
    Signed(p.direction, p.torque) / p.radius
  }

  function Drives(ps: seq<PulleyState>): (ds: seq<real>)
    ensures |ds| == |ps| && forall i :: 0 <= i < |ps| ==> ds[i] == Drive(ps[i])
  {
    seq(|ps|, i requires 0 <= i < |ps| => Drive(ps[i]))
  }

  /** The torques cancel around the loop: the sum of d * T / r is zero. */
  predicate Balanced(ps: seq<PulleyState>)
  {
    Sum(Drives(ps)) == 0.0
  }

  /** The drives of every pulley but `ut`, in the order ut + 1, ut + 2, ... around the loop. */
  function KnownDrives(ps: seq<PulleyState>, ut: nat): (ks: seq<real>)
    requires ut < |ps|
    ensures |ks| == |ps| - 1
    ensures forall i :: 0 <= i < |ps| - 1 ==> ks[i] == Drive(ps[Rotate(i + 1, ut, |ps|)])
  {
    seq(|ps| - 1, i requires 0 <= i < |ps| - 1 => Drive(ps[Rotate(i + 1, ut, |ps|)]))
  }

  /** The torque the solver writes into pulley `ut`: -(d * S * r), S the sum of the known drives. */
  function SolvedTorque(ps: seq<PulleyState>, ut: nat): real
    requires ut < |ps|
  {
    BalancingTorque(ps[ut], Sum(KnownDrives(ps, ut)))
  }

  /** The snapshot with pulley k's torque replaced. */
  function WithTorque(ps: seq<PulleyState>, k: nat, torque: real): (qs: seq<PulleyState>)
    requires k < |ps|
    ensures |qs| == |ps| && qs[k] == ps[k].(torque := torque)
    ensures forall j :: 0 <= j < |ps| && j != k ==> qs[j] == ps[j]
  {
    ps[k := ps[k].(torque := torque)]
  }

  /** The snapshot after the torque solve. */
  function Solve(ps: seq<PulleyState>, ut: nat): seq<PulleyState>
    requires ut < |ps|
  {
    WithTorque(ps, ut, SolvedTorque(ps, ut))
  }

  /**
   * Summing the drives starting at `ut` gives the same total: the drive of `ut`
   * plus the drives of all the others, each counted once.
   */
  lemma RotatedSum(ps: seq<PulleyState>, ut: nat)
    requires ut < |ps|
    ensures Sum(Drives(ps)) == Drive(ps[ut]) + Sum(KnownDrives(ps, ut))
  {
    var ds, ks := Drives(ps), KnownDrives(ps, ut);
    var rotated := ds[ut..] + ds[..ut];
    assert ds == ds[..ut] + ds[ut..];
    SumAppend(ds[..ut], ds[ut..]);
    SumAppend(ds[ut..], ds[..ut]);
    forall i | 0 <= i < |ks|
      ensures rotated[i + 1] == ks[i]
    {
      RotateIsModulo(i + 1, ut, |ps|);
    }
    assert rotated == [ds[ut]] + ks;
    SumFront(rotated);
    assert rotated[1..] == ks;
  }

  /**
   * The known drives are those of every pulley except ut: pulley j != ut is
   * counted at step StepTo(j), and no two pulleys share a step, so each of the
   * n - 1 entries belongs to exactly one of the n - 1 other pulleys.
   */
  lemma KnownDrivesCoverOthers(ps: seq<PulleyState>, ut: nat)
    requires ut < |ps|
    ensures var ks := KnownDrives(ps, ut);
      (forall j :: 0 <= j < |ps| && j != ut ==>
        1 <= StepTo(j, ut, |ps|) && ks[StepTo(j, ut, |ps|) - 1] == Drive(ps[j])) &&
      (forall j, j' ::
         0 <= j < |ps| && 0 <= j' < |ps| && j != ut && j' != ut && StepTo(j, ut, |ps|) == StepTo(j', ut, |ps|)
         ==> j == j')
  {
    RotationVisitsOthersOnce(ut, |ps|);
  }

  /** The known drives do not depend on the torque of pulley ut. */
  lemma KnownDrivesSkipUt(ps: seq<PulleyState>, ut: nat, torque: real)
    requires ut < |ps|
    ensures KnownDrives(WithTorque(ps, ut, torque), ut) == KnownDrives(ps, ut)
  {
    RotationVisitsOthersOnce(ut, |ps|);
  }

  /**
   * The torque a pulley needs so that its drive cancels `known`, the drives of
   * all the others: -(d * known * r).
   */
  function BalancingTorque(p: PulleyState, known: real): real
  {
    -(Signed(p.direction, known) * p.radius)
  }

  /** Pulley p with torque t cancels `known` exactly when t is the balancing torque. */
  lemma BalancingTorqueUnique(p: PulleyState, t: real, known: real)
    ensures Drive(p.(torque := t)) + known == 0.0 <==> t == BalancingTorque(p, known)
  {
    var r := p.radius;
    var x := Drive(p.(torque := t));
    assert x * r == Signed(p.direction, t);
    assert (x + known) * r == Signed(p.direction, t) + known * r;
    if p.direction == -1 {
      assert (-known) * r == -(known * r);
    }
  }

  /**
   * Pulley ut balances the loop exactly when its torque is the solved one: the
   * solver's answer exists and is the only one.
   */
  lemma {:induction false} BalancedIffSolved(ps: seq<PulleyState>, ut: nat, torque: real)
    requires ut < |ps|
    ensures Balanced(WithTorque(ps, ut, torque)) <==> torque == SolvedTorque(ps, ut)
  {
    var qs := WithTorque(ps, ut, torque);
    KnownDrivesSkipUt(ps, ut, torque);
    RotatedSum(qs, ut);
    BalancingTorqueUnique(ps[ut], torque, Sum(KnownDrives(ps, ut)));
  }

  /** After the solve the torques cancel, the overwritten one included. */
  lemma SolveBalances(ps: seq<PulleyState>, ut: nat)
    requires ut < |ps|
    ensures Balanced(Solve(ps, ut))
  {
    BalancedIffSolved(ps, ut, SolvedTorque(ps, ut));
  }

  // ---------- segment tensions ----------

  /**
   * Tension of segment i relative to segment 0: each pulley passed takes its
   * drive out of the belt.
   */
  function RelTension(ps: seq<PulleyState>, i: nat): real
    requires i < |ps|
  {
    if i == 0 then 0.0 else RelTension(ps, i - 1) - Drive(ps[i])
  }

  function RelTensions(ps: seq<PulleyState>): (rel: seq<real>)
    ensures |rel| == |ps| && forall i :: 0 <= i < |ps| ==> rel[i] == RelTension(ps, i)
  {
    seq(|ps|, i requires 0 <= i < |ps| => RelTension(ps, i))
  }

  /** The relative tension of segment i is minus the drives of pulleys 1 .. i. */
  lemma {:induction false} RelTensionIsPrefixSum(ps: seq<PulleyState>, i: nat)
    requires i < |ps|
    ensures RelTension(ps, i) == -Sum(Drives(ps)[1..i + 1])
  {
    var ds := Drives(ps);
    if i > 0 {
      RelTensionIsPrefixSum(ps, i - 1);
      assert ds[1..i + 1] == ds[1..i] + [ds[i]];
      SumAppend(ds[1..i], [ds[i]]);
      assert [ds[i]][..0] == [];
    } else {
      assert ds[1..1] == [];
    }
  }

  /**
   * The amount added to every relative tension: with no tensioner it lifts the
   * smallest tension to `minTension`; with a tensioner at t it sets the tension
   * at t to `tensionerTension` less half of pulley t's drive.
   */
  function Offset(ps: seq<PulleyState>, tensioner: Option<nat>, minTension: real, tensionerTension: real): real
    requires ps != [] && (tensioner.Some? ==> tensioner.value < |ps|)
  {
    var rel := RelTensions(ps);
    match tensioner
    case None => minTension - Min(rel)
    case Some(t) => tensionerTension - rel[t] - Signed(ps[t].direction, ps[t].torque / ps[t].radius) / 2.0
  }

  /** The tension of every segment. */
  function LocalTensions(ps: seq<PulleyState>, tensioner: Option<nat>, minTension: real, tensionerTension: real): seq<real>
    requires ps != [] && (tensioner.Some? ==> tensioner.value < |ps|)
  {
    AddToAll(RelTensions(ps), Offset(ps, tensioner, minTension, tensionerTension))
  }

  /**
   * Across every pulley the tension drops by that pulley's drive, from the
   * incoming segment to the outgoing one. For pulley 0, where the loop closes,
   * this holds only when the torques balance; for every other pulley it holds
   * by the propagation alone.
   */
  lemma {:induction false} TensionPropagation(ps: seq<PulleyState>, tensioner: Option<nat>, minTension: real, tensionerTension: real)
    requires ps != [] && (tensioner.Some? ==> tensioner.value < |ps|)
    ensures var lt := LocalTensions(ps, tensioner, minTension, tensionerTension);
      forall i :: 0 <= i < |ps| && (i != 0 || Balanced(ps)) ==> lt[Pred(i, |ps|)] - lt[i] == Drive(ps[i])
  {
    var lt := LocalTensions(ps, tensioner, minTension, tensionerTension);
    var rel := RelTensions(ps);
    var n := |ps|;
    forall i | 0 <= i < n && (i != 0 || Balanced(ps))
      ensures lt[Pred(i, n)] - lt[i] == Drive(ps[i])
    {
      assert lt[Pred(i, n)] - lt[i] == rel[Pred(i, n)] - rel[i];
      if i == 0 {
        var ds := Drives(ps);
        RelTensionIsPrefixSum(ps, n - 1);
        SumFront(ds);
        assert ds[1..n] == ds[1..];
      }
    }
  }

  /** With no tensioner the smallest tension is exactly `minTension`. */
  lemma MinTensionMode(ps: seq<PulleyState>, minTension: real, tensionerTension: real)
    requires ps != []
    ensures Min(LocalTensions(ps, None, minTension, tensionerTension)) == minTension
  {
    MinOfShift(RelTensions(ps), Offset(ps, None, minTension, tensionerTension));
  }

  /** With no tensioner and a non-negative minimum, no tension is negative. */
  lemma NoTensionerNeverNegative(ps: seq<PulleyState>, minTension: real, tensionerTension: real)
    requires ps != [] && minTension >= 0.0
    ensures var lt := LocalTensions(ps, None, minTension, tensionerTension);
      forall i :: 0 <= i < |lt| ==> lt[i] >= 0.0
  {
    MinTensionMode(ps, minTension, tensionerTension);
  }

  /**
   * With a tensioner at t the mean of the tensions entering and leaving pulley t
   * is exactly `tensionerTension`. A tensioner at slot 0 needs the torques to
   * balance, since its incoming segment is the one where the loop closes.
   */
  lemma TensionerMode(ps: seq<PulleyState>, t: nat, minTension: real, tensionerTension: real)
    requires t < |ps| && (t == 0 ==> Balanced(ps))
    ensures var lt := LocalTensions(ps, Some(t), minTension, tensionerTension);
      (lt[Pred(t, |ps|)] + lt[t]) / 2.0 == tensionerTension
  {
    TensionPropagation(ps, Some(t), minTension, tensionerTension);
    var lt := LocalTensions(ps, Some(t), minTension, tensionerTension);
    var rel := RelTensions(ps);
    var p := ps[t];
    SignedQuotient(p.direction, p.torque, p.radius);
    var h := Drive(p);
    assert lt[t] == tensionerTension - h / 2.0;
    assert lt[Pred(t, |ps|)] == lt[t] + h;
  }

  /** d * (T / r) is (d * T) / r. */
  lemma SignedQuotient(d: Sign, x: real, r: real)
    requires r > 0.0
    ensures Signed(d, x / r) == Signed(d, x) / r
  {
  }

  // ---------- reactions ----------

  /**
   * The pull of the belt on pulley i: the incoming segment pulls along its
   * tangent, the outgoing one against its tangent.
   */
  function ReactionX(m: MathLib, tangents: seq<real>, tensions: seq<real>, i: nat): real
    requires |tangents| == |tensions| && i < |tensions|
  {
    var k := Pred(i, |tensions|);
    tensions[k] * m.cos(tangents[k]) + tensions[i] * m.cos(tangents[i] + Pi)
  }

  function ReactionY(m: MathLib, tangents: seq<real>, tensions: seq<real>, i: nat): real
    requires |tangents| == |tensions| && i < |tensions|
  {
    var k := Pred(i, |tensions|);
    tensions[k] * m.sin(tangents[k]) + tensions[i] * m.sin(tangents[i] + Pi)
  }

  /** Direction of the reaction on pulley i, in [0, 2*pi). */
  function ReactionAngle(m: MathLib, tangents: seq<real>, tensions: seq<real>, i: nat): (r: real)
    requires |tangents| == |tensions| && i < |tensions|
    ensures 0.0 <= r < TwoPi
  {
    Angle0To2Pi(m.atan2(ReactionY(m, tangents, tensions, i), ReactionX(m, tangents, tensions, i)))
  }

  /** Magnitude of the reaction on pulley i. */
  function ReactionForce(m: MathLib, tangents: seq<real>, tensions: seq<real>, i: nat): real
    requires |tangents| == |tensions| && i < |tensions|
  {
    m.hypot(ReactionY(m, tangents, tensions, i), ReactionX(m, tangents, tensions, i))
  }
}
