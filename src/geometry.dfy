/**
 * The geometry of a belt laid around a cyclic sequence of pulleys: centre-to-centre
 * vectors, the tangent line from each pulley to the next, the arc wrapped on each
 * pulley, the contact points and the total belt length. Everything here is a
 * function of a snapshot of the pulleys and of the host math library.
 */
module Geometry {
  import opened Errors
  import opened Trig
  import opened Cyclic
  import opened Series
  import opened Pulleys

  /** Adjacent pulley centres must be at least MinSpace * (r_i + r_j) apart; MinSpace > 1. */
  const MinSpace: real := 1.01

  // ---------- first pass: one edge from pulley i to pulley Succ(i) ----------

  function Dx(ps: seq<PulleyState>, i: nat): real
    requires i < |ps|
  {
    ps[Succ(i, |ps|)].x - ps[i].x
  }

  function Dy(ps: seq<PulleyState>, i: nat): real
    requires i < |ps|
  {
    ps[Succ(i, |ps|)].y - ps[i].y
  }

  /** Distance between the centres of pulley i and the next one. */
  function CentreDelta(m: MathLib, ps: seq<PulleyState>, i: nat): real
    requires i < |ps|
  {
    m.hypot(Dx(ps, i), Dy(ps, i))
  }

  /** The smallest centre distance the edge from pulley i accepts. */
  function MinSpacing(ps: seq<PulleyState>, i: nat): real
    requires i < |ps|
  {
    (ps[i].radius + ps[Succ(i, |ps|)].radius) * MinSpace
  }

  /** The spacing check of edge i fails: strictly closer than the minimum. */
  predicate TooClose(m: MathLib, ps: seq<PulleyState>, i: nat)
    requires i < |ps|
  {
    CentreDelta(m, ps, i) < MinSpacing(ps, i)
  }

  /** Every edge passes the spacing check. */
  predicate Feasible(m: MathLib, ps: seq<PulleyState>)
  {
    forall i :: 0 <= i < |ps| ==> !TooClose(m, ps, i)
  }

  /**
   * The first edge at or after `from` that fails the spacing check, which is the
   * edge the geometry pass stops at.
   */
  function FirstTooClose(m: MathLib, ps: seq<PulleyState>, from: nat): (r: Option<nat>)
    requires from <= |ps|
    ensures r.None? <==> forall j :: from <= j < |ps| ==> !TooClose(m, ps, j)
    ensures r.Some? ==>
      from <= r.value < |ps| && TooClose(m, ps, r.value) &&
      forall j :: from <= j < r.value ==> !TooClose(m, ps, j)
    decreases |ps| - from
  {
    if from == |ps| then None
    else if TooClose(m, ps, from) then Some(from)
    else FirstTooClose(m, ps, from + 1)
  }

  /** An edge that is too close, with none too close before it from `from` on, is the one FirstTooClose finds. */
  lemma {:induction false} FirstTooCloseAt(m: MathLib, ps: seq<PulleyState>, from: nat, e: nat)
    requires from <= e < |ps| && TooClose(m, ps, e)
    requires forall k :: from <= k < e ==> !TooClose(m, ps, k)
    ensures FirstTooClose(m, ps, from) == Some(e)
    decreases e - from
  {
    if from < e {
      FirstTooCloseAt(m, ps, from + 1, e);
    }
  }

  /** Direction of the centre-to-centre vector, in [0, 2*pi). */
  function C2CAngle(m: MathLib, ps: seq<PulleyState>, i: nat): real
    requires i < |ps|
  {
    Angle0To2Pi(m.atan2(Dy(ps, i), Dx(ps, i)))
  }

  /**
   * Signed radius difference r_j * d_j - r_i * d_i. With equal directions it picks
   * the outer common tangent, with opposite directions the crossed one.
   */
  function RadiusDelta(ps: seq<PulleyState>, i: nat): real
    requires i < |ps|
  {
    var j := Succ(i, |ps|);
    Signed(ps[j].direction, ps[j].radius) - Signed(ps[i].direction, ps[i].radius)
  }

  function Square(x: real): real
  {
    x * x
  }

  /** Length of the straight belt segment from pulley i to the next. */
  function TangentLength(m: MathLib, ps: seq<PulleyState>, i: nat): real
    requires i < |ps|
  {
    m.sqrt(Square(CentreDelta(m, ps, i)) - Square(RadiusDelta(ps, i)))
  }

  /** Angle of the tangent relative to the centre line; defined once the edge is not too close. */
  function LocalTangentAngle(m: MathLib, ps: seq<PulleyState>, i: nat): real
    requires i < |ps| && !TooClose(m, ps, i)
  {
    m.asin(RadiusDelta(ps, i) / CentreDelta(m, ps, i))
  }

  /** Direction of the tangent segment, in [0, 2*pi). */
  function GlobalTangentAngle(m: MathLib, ps: seq<PulleyState>, i: nat): (r: real)
    requires i < |ps| && !TooClose(m, ps, i)
    ensures 0.0 <= r < TwoPi
  {
    Angle0To2Pi(LocalTangentAngle(m, ps, i) + C2CAngle(m, ps, i))
  }

  /**
   * Once an edge passes the spacing check, |RadiusDelta| is strictly below the
   * centre distance, so the square root receives a positive argument and the arc
   * sine an argument strictly inside (-1, 1): neither math call can fail.
   */
  lemma TangentDomain(m: MathLib, ps: seq<PulleyState>, i: nat)
    requires i < |ps| && !TooClose(m, ps, i)
    ensures var c, rd := CentreDelta(m, ps, i), RadiusDelta(ps, i);
      c > 0.0 && -c < rd < c && Square(c) - Square(rd) > 0.0 && -1.0 < rd / c < 1.0
  {
    var j := Succ(i, |ps|);
    var c, rd := CentreDelta(m, ps, i), RadiusDelta(ps, i);
    var rsum := ps[i].radius + ps[j].radius;
    assert -rsum <= rd <= rsum;
    assert c >= rsum * MinSpace > rsum;
    assert c * c - rd * rd == (c - rd) * (c + rd);
    QuotientInsideUnit(rd, c);
  }

  lemma QuotientInsideUnit(a: real, c: real)
    requires c > 0.0 && -c < a < c
    ensures -1.0 < a / c < 1.0
  {
  }

  // ---------- second pass: the arc on pulley i, entered from Pred(i) ----------

  /** Arc of belt in contact with pulley i, in [0, 2*pi). */
  function WrapAngle(m: MathLib, ps: seq<PulleyState>, i: nat): (r: real)
    requires i < |ps| && Feasible(m, ps)
    ensures 0.0 <= r < TwoPi
  {
    assert !TooClose(m, ps, Pred(i, |ps|));
    var tangentIn := GlobalTangentAngle(m, ps, Pred(i, |ps|));
    var tangentOut := GlobalTangentAngle(m, ps, i);
    Angle0To2Pi(Signed(ps[i].direction, tangentIn - tangentOut))
  }

  /** Length of an arc of `angle` radians on a circle of radius `radius`. */
  function ArcLength(angle: real, radius: real): real
  {
    angle * radius
  }

  /** Length of the arc wrapped on pulley i. */
  function WrapLength(m: MathLib, ps: seq<PulleyState>, i: nat): real
    requires i < |ps| && Feasible(m, ps)
  {
    ArcLength(WrapAngle(m, ps, i), ps[i].radius)
  }

  /** An arc is never negative and shorter than the full circumference. */
  lemma WrapLengthBounds(m: MathLib, ps: seq<PulleyState>, i: nat)
    requires i < |ps| && Feasible(m, ps)
    ensures 0.0 <= WrapLength(m, ps, i) < TwoPi * ps[i].radius
  {
    var w, r := WrapAngle(m, ps, i), ps[i].radius;
    ArcBelowCircumference(w, r);
  }

  lemma ArcBelowCircumference(w: real, r: real)
    requires 0.0 <= w < TwoPi && r > 0.0
    ensures 0.0 <= ArcLength(w, r) < TwoPi * r
  {
    MulStrictlyMonotone(w, TwoPi, r);
  }

  /** Angle from the centre of pulley i to the point where the belt along `tangent` touches it. */
  function Normal(ps: seq<PulleyState>, i: nat, tangent: real): real
    requires i < |ps|
  {
    tangent + Signed(ps[i].direction, Pi / 2.0)
  }

  /** The point at distance `radius` from `centre` along one axis, `unit` being the cosine or sine of the direction. */
  function PointOnRim(centre: real, radius: real, unit: real): real
  {
    centre + radius * unit
  }

  function XIn(m: MathLib, ps: seq<PulleyState>, i: nat): real
    requires i < |ps| && Feasible(m, ps)
  {
    PointOnRim(ps[i].x, ps[i].radius, m.cos(Normal(ps, i, GlobalTangentAngle(m, ps, Pred(i, |ps|)))))
  }

  function YIn(m: MathLib, ps: seq<PulleyState>, i: nat): real
    requires i < |ps| && Feasible(m, ps)
  {
    PointOnRim(ps[i].y, ps[i].radius, m.sin(Normal(ps, i, GlobalTangentAngle(m, ps, Pred(i, |ps|)))))
  }

  function XOut(m: MathLib, ps: seq<PulleyState>, i: nat): real
    requires i < |ps| && Feasible(m, ps)
  {
    PointOnRim(ps[i].x, ps[i].radius, m.cos(Normal(ps, i, GlobalTangentAngle(m, ps, i))))
  }

  function YOut(m: MathLib, ps: seq<PulleyState>, i: nat): real
    requires i < |ps| && Feasible(m, ps)
  {
    PointOnRim(ps[i].y, ps[i].radius, m.sin(Normal(ps, i, GlobalTangentAngle(m, ps, i))))
  }

  // ---------- the per-index lists ----------

  function CentreDeltas(m: MathLib, ps: seq<PulleyState>): seq<real>
  {
    seq(|ps|, i requires 0 <= i < |ps| => CentreDelta(m, ps, i))
  }

  function C2CAngles(m: MathLib, ps: seq<PulleyState>): seq<real>
  {
    seq(|ps|, i requires 0 <= i < |ps| => C2CAngle(m, ps, i))
  }

  function TangentLengths(m: MathLib, ps: seq<PulleyState>): seq<real>
  {
    seq(|ps|, i requires 0 <= i < |ps| => TangentLength(m, ps, i))
  }

  function LocalTangentAngles(m: MathLib, ps: seq<PulleyState>): seq<real>
    requires Feasible(m, ps)
  {
    seq(|ps|, i requires 0 <= i < |ps| => LocalTangentAngle(m, ps, i))
  }

  function GlobalTangentAngles(m: MathLib, ps: seq<PulleyState>): seq<real>
    requires Feasible(m, ps)
  {
    seq(|ps|, i requires 0 <= i < |ps| => GlobalTangentAngle(m, ps, i))
  }

  function WrapAngles(m: MathLib, ps: seq<PulleyState>): seq<real>
    requires Feasible(m, ps)
  {
    seq(|ps|, i requires 0 <= i < |ps| => WrapAngle(m, ps, i))
  }

  function WrapLengths(m: MathLib, ps: seq<PulleyState>): seq<real>
    requires Feasible(m, ps)
  {
    seq(|ps|, i requires 0 <= i < |ps| => WrapLength(m, ps, i))
  }

  function XIns(m: MathLib, ps: seq<PulleyState>): seq<real>
    requires Feasible(m, ps)
  {
    seq(|ps|, i requires 0 <= i < |ps| => XIn(m, ps, i))
  }

  function YIns(m: MathLib, ps: seq<PulleyState>): seq<real>
    requires Feasible(m, ps)
  {
    seq(|ps|, i requires 0 <= i < |ps| => YIn(m, ps, i))
  }

  function XOuts(m: MathLib, ps: seq<PulleyState>): seq<real>
    requires Feasible(m, ps)
  {
    seq(|ps|, i requires 0 <= i < |ps| => XOut(m, ps, i))
  }

  function YOuts(m: MathLib, ps: seq<PulleyState>): seq<real>
    requires Feasible(m, ps)
  {
    seq(|ps|, i requires 0 <= i < |ps| => YOut(m, ps, i))
  }

  /** Belt length: every arc plus every straight segment. */
  function TotalLength(m: MathLib, ps: seq<PulleyState>): real
    requires Feasible(m, ps)
  {
    Sum(WrapLengths(m, ps)) + Sum(TangentLengths(m, ps))
  }

  // ---------- properties of the whole belt ----------

  /**
   * With a square root that is never negative on positive arguments, the belt
   * length is never negative: arcs are non-negative by the wrap, and every
   * tangent receives a positive argument by TangentDomain.
   */
  lemma {:induction false} TotalLengthNonNegative(m: MathLib, ps: seq<PulleyState>)
    requires Feasible(m, ps)
    requires forall x :: 0.0 < x ==> 0.0 <= m.sqrt(x)
    ensures TotalLength(m, ps) >= 0.0
  {
    var wraps, tangents := WrapLengths(m, ps), TangentLengths(m, ps);
    forall i | 0 <= i < |ps|
      ensures wraps[i] >= 0.0 && tangents[i] >= 0.0
    {
      TangentDomain(m, ps, i);
    }
    SumNonNegative(wraps);
    SumNonNegative(tangents);
  }

  /** Every pulley moved by the same offset. */
  function Translate(ps: seq<PulleyState>, tx: real, ty: real): (qs: seq<PulleyState>)
    ensures |qs| == |ps|
    ensures forall i :: 0 <= i < |ps| ==>
      qs[i].x == ps[i].x + tx && qs[i].y == ps[i].y + ty && qs[i].radius == ps[i].radius &&
      qs[i].direction == ps[i].direction && qs[i].torque == ps[i].torque
  {
    seq(|ps|, i requires 0 <= i < |ps| => ps[i].(x := ps[i].x + tx, y := ps[i].y + ty))
  }

  /** One edge seen after a translation: no length or angle changes. */
  lemma EdgeUnmoved(m: MathLib, ps: seq<PulleyState>, tx: real, ty: real, i: nat)
    requires i < |ps|
    ensures var qs := Translate(ps, tx, ty);
      CentreDelta(m, qs, i) == CentreDelta(m, ps, i) && C2CAngle(m, qs, i) == C2CAngle(m, ps, i) &&
      RadiusDelta(qs, i) == RadiusDelta(ps, i) && TangentLength(m, qs, i) == TangentLength(m, ps, i) &&
      (TooClose(m, qs, i) <==> TooClose(m, ps, i)) &&
      (!TooClose(m, ps, i) ==> GlobalTangentAngle(m, qs, i) == GlobalTangentAngle(m, ps, i))
  {
    var qs := Translate(ps, tx, ty);
    var j := Succ(i, |ps|);
    assert qs[i].radius == ps[i].radius && qs[j].radius == ps[j].radius;
    assert qs[i].direction == ps[i].direction && qs[j].direction == ps[j].direction;
    assert Dx(qs, i) == Dx(ps, i) && Dy(qs, i) == Dy(ps, i);
    assert CentreDelta(m, qs, i) == CentreDelta(m, ps, i);
    assert C2CAngle(m, qs, i) == C2CAngle(m, ps, i);
    assert RadiusDelta(qs, i) == RadiusDelta(ps, i);
    assert MinSpacing(qs, i) == MinSpacing(ps, i);
  }

  /** One arc seen after a translation: same wrap angle and length. */
  lemma WrapUnmoved(m: MathLib, ps: seq<PulleyState>, tx: real, ty: real, i: nat)
    requires i < |ps| && Feasible(m, ps) && Feasible(m, Translate(ps, tx, ty))
    requires forall k :: 0 <= k < |ps| ==>
      GlobalTangentAngle(m, Translate(ps, tx, ty), k) == GlobalTangentAngle(m, ps, k)
    ensures var qs := Translate(ps, tx, ty);
      WrapAngle(m, qs, i) == WrapAngle(m, ps, i) && WrapLength(m, qs, i) == WrapLength(m, ps, i)
  {
    var qs := Translate(ps, tx, ty);
    var h := Pred(i, |ps|);
    assert qs[i].radius == ps[i].radius && qs[i].direction == ps[i].direction;
    var gin, gout := GlobalTangentAngle(m, ps, h), GlobalTangentAngle(m, ps, i);
    assert GlobalTangentAngle(m, qs, h) == gin;
    assert GlobalTangentAngle(m, qs, i) == gout;
    assert WrapAngle(m, qs, i) == WrapAngle(m, ps, i);
  }

  /** The contact points of pulley i after a translation are moved by the offset. */
  lemma ContactsMoved(m: MathLib, ps: seq<PulleyState>, tx: real, ty: real, i: nat)
    requires i < |ps| && Feasible(m, ps) && Feasible(m, Translate(ps, tx, ty))
    requires forall k :: 0 <= k < |ps| ==>
      GlobalTangentAngle(m, Translate(ps, tx, ty), k) == GlobalTangentAngle(m, ps, k)
    ensures var qs := Translate(ps, tx, ty);
      XIn(m, qs, i) == XIn(m, ps, i) + tx && YIn(m, qs, i) == YIn(m, ps, i) + ty &&
      XOut(m, qs, i) == XOut(m, ps, i) + tx && YOut(m, qs, i) == YOut(m, ps, i) + ty
  {
    var qs := Translate(ps, tx, ty);
    var h := Pred(i, |ps|);
    var gin, gout := GlobalTangentAngle(m, ps, h), GlobalTangentAngle(m, ps, i);
    assert GlobalTangentAngle(m, qs, h) == gin;
    assert GlobalTangentAngle(m, qs, i) == gout;
    var r := ps[i].radius;
    var nin, nout := Normal(ps, i, gin), Normal(ps, i, gout);
    assert Normal(qs, i, gin) == nin && Normal(qs, i, gout) == nout;
    RimMoved(ps[i].x, r, m.cos(nin), tx);
    RimMoved(ps[i].y, r, m.sin(nin), ty);
    RimMoved(ps[i].x, r, m.cos(nout), tx);
    RimMoved(ps[i].y, r, m.sin(nout), ty);
  }

  /** Moving the centre moves the rim point by the same amount. */
  lemma RimMoved(centre: real, radius: real, unit: real, t: real)
    ensures PointOnRim(centre + t, radius, unit) == PointOnRim(centre, radius, unit) + t
  {
  }

  /**
   * Moving every pulley by the same offset changes no length and no angle: the
   * spacing check, the tangent and wrap angles and the total length are the
   * same, and the contact points move by the offset.
   */
  lemma {:induction false} TranslationInvariant(m: MathLib, ps: seq<PulleyState>, tx: real, ty: real)
    ensures var qs := Translate(ps, tx, ty);
      (Feasible(m, qs) <==> Feasible(m, ps)) &&
      CentreDeltas(m, qs) == CentreDeltas(m, ps) &&
      C2CAngles(m, qs) == C2CAngles(m, ps) &&
      TangentLengths(m, qs) == TangentLengths(m, ps) &&
      (Feasible(m, ps) ==>
        GlobalTangentAngles(m, qs) == GlobalTangentAngles(m, ps) &&
        WrapAngles(m, qs) == WrapAngles(m, ps) &&
        TotalLength(m, qs) == TotalLength(m, ps) &&
        forall i :: 0 <= i < |ps| ==>
          XIn(m, qs, i) == XIn(m, ps, i) + tx && YIn(m, qs, i) == YIn(m, ps, i) + ty &&
          XOut(m, qs, i) == XOut(m, ps, i) + tx && YOut(m, qs, i) == YOut(m, ps, i) + ty)
  {
    var qs := Translate(ps, tx, ty);
    forall i | 0 <= i < |ps| {
      EdgeUnmoved(m, ps, tx, ty, i);
    }
    assert CentreDeltas(m, qs) == CentreDeltas(m, ps);
    assert C2CAngles(m, qs) == C2CAngles(m, ps);
    assert TangentLengths(m, qs) == TangentLengths(m, ps);
    if Feasible(m, ps) {
      assert GlobalTangentAngles(m, qs) == GlobalTangentAngles(m, ps);
      forall i | 0 <= i < |ps| {
        WrapUnmoved(m, ps, tx, ty, i);
      }
      forall i | 0 <= i < |ps| {
        ContactsMoved(m, ps, tx, ty, i);
      }
      assert WrapAngles(m, qs) == WrapAngles(m, ps);
      assert WrapLengths(m, qs) == WrapLengths(m, ps);
    }
  }
}
