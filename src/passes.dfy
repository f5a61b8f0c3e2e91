/**
 * The loops of the geometry and force computations. Each loop walks the
 * pulleys as the belt does, reading their current fields, and fills its
 * per-index lists one entry at a time; the belt stores the lists it gets back.
 * Every loop is proved against the snapshot functions of Geometry and Forces.
 */
module Passes {
  import opened Errors
  import opened Trig
  import opened Cyclic
  import opened Series
  import opened Pulleys
  import opened Geometry
  import opened Forces

  // ---------- geometry, first loop: one edge per step ----------

  /** The five first-loop results of edge k agree with the snapshot. */
  ghost predicate EdgeResults(m: MathLib, ps: seq<PulleyState>, k: nat,
                              length: real, angle: real, tangent: real, local: real, global: real)
    requires k < |ps| && !TooClose(m, ps, k)
  {
    length == CentreDelta(m, ps, k) && angle == C2CAngle(m, ps, k) &&
    tangent == TangentLength(m, ps, k) && local == LocalTangentAngle(m, ps, k) &&
    global == GlobalTangentAngle(m, ps, k)
  }

  /** Every edge passed the spacing check and the five lists hold its first-loop results. */
  ghost predicate EdgesDone(m: MathLib, ps: seq<PulleyState>, lengths: seq<real>, angles: seq<real>,
                            tangents: seq<real>, locals: seq<real>, globals: seq<real>)
  {
    Feasible(m, ps) &&
    |lengths| == |ps| && |angles| == |ps| && |tangents| == |ps| && |locals| == |ps| && |globals| == |ps| &&
    forall k :: 0 <= k < |ps| ==>
      EdgeResults(m, ps, k, lengths[k], angles[k], tangents[k], locals[k], globals[k])
  }

  /**
   * The lists a first loop leaves when it stops at edge e, given the lists it
   * started from: the centre distances of edges 0 .. e and the other results of
   * edges 0 .. e-1 are new, the rest are as they were.
   */
  ghost predicate EdgesStoppedAt(m: MathLib, ps: seq<PulleyState>, e: nat,
                                 lengths0: seq<real>, angles0: seq<real>, tangents0: seq<real>,
                                 locals0: seq<real>, globals0: seq<real>,
                                 lengths: seq<real>, angles: seq<real>, tangents: seq<real>,
                                 locals: seq<real>, globals: seq<real>)
  {
    e < |ps| &&
    |lengths0| == |ps| && |angles0| == |ps| && |tangents0| == |ps| && |locals0| == |ps| && |globals0| == |ps| &&
    |lengths| == |ps| && |angles| == |ps| && |tangents| == |ps| && |locals| == |ps| && |globals| == |ps| &&
    (forall k :: 0 <= k < e ==> !TooClose(m, ps, k)) &&
    forall k :: 0 <= k < |ps| ==>
      (k <= e ==> lengths[k] == CentreDelta(m, ps, k)) &&
      (k < e ==> EdgeResults(m, ps, k, lengths[k], angles[k], tangents[k], locals[k], globals[k])) &&
      (e < k ==> lengths[k] == lengths0[k]) &&
      (e <= k ==> angles[k] == angles0[k] && tangents[k] == tangents0[k] &&
                  locals[k] == locals0[k] && globals[k] == globals0[k])
  }

  /** The centre distance of edge i and the smallest distance the spacing check accepts. */
  method SpacingAt(m: MathLib, pulleys: seq<Pulley>, ghost ps: seq<PulleyState>, i: nat)
    returns (centreDelta: real, minSpace: real)
    requires ps == States(pulleys) && i < |ps|
    ensures centreDelta == CentreDelta(m, ps, i) && minSpace == MinSpacing(ps, i)
    ensures centreDelta < minSpace <==> TooClose(m, ps, i)
  {
    var pi, pj := pulleys[i], pulleys[Succ(i, |pulleys|)];
    assert pi.State() == ps[i] && pj.State() == ps[Succ(i, |ps|)];
    centreDelta := m.hypot(pj.x - pi.x, pj.y - pi.y);
    minSpace := (pi.radius + pj.radius) * MinSpace;
  }

  /**
   * The rest of one step of the first loop, for an edge that passed the spacing
   * check: the centre-line angle, the tangent length, and the tangent's angle
   * relative to the centre line and to the x axis.
   */
  method TangentAt(m: MathLib, pulleys: seq<Pulley>, ghost ps: seq<PulleyState>, i: nat, centreDelta: real)
    returns (angle: real, tangent: real, local: real, global: real)
    requires ps == States(pulleys) && i < |ps| && !TooClose(m, ps, i)
    requires centreDelta == CentreDelta(m, ps, i)
    ensures EdgeResults(m, ps, i, centreDelta, angle, tangent, local, global)
  {
    var pi, pj := pulleys[i], pulleys[Succ(i, |pulleys|)];
    assert pi.State() == ps[i] && pj.State() == ps[Succ(i, |ps|)];
    var dx, dy := pj.x - pi.x, pj.y - pi.y;
    angle := Angle0To2Pi(m.atan2(dy, dx));
    var radiusDelta := Signed(pj.direction, pj.radius) - Signed(pi.direction, pi.radius);
    tangent := m.sqrt(Square(centreDelta) - Square(radiusDelta));
    local := m.asin(radiusDelta / centreDelta);
    global := Angle0To2Pi(local + angle);
  }

  /**
   * The first geometry loop, writing into the lists it is given. Each edge
   * records its centre distance, then stops the loop if its pulleys are too
   * close; otherwise it records its centre-line angle, tangent length and
   * tangent angles. Stopping at edge e leaves the centre distances of edges
   * 0 .. e and the other results of edges 0 .. e-1 new, and the rest as given.
   */
  method EdgePass(m: MathLib, pulleys: seq<Pulley>, ghost ps: seq<PulleyState>,
                  lengths0: seq<real>, angles0: seq<real>, tangents0: seq<real>,
                  locals0: seq<real>, globals0: seq<real>)
    returns (r: Outcome, lengths: seq<real>, angles: seq<real>, tangents: seq<real>,
             locals: seq<real>, globals: seq<real>)
    requires ps == States(pulleys)
    requires |lengths0| == |ps| && |angles0| == |ps| && |tangents0| == |ps| &&
      |locals0| == |ps| && |globals0| == |ps|
    ensures |lengths| == |ps| && |angles| == |ps| && |tangents| == |ps| &&
      |locals| == |ps| && |globals| == |ps|
    ensures r.Pass? <==> Feasible(m, ps)
    ensures r.Pass? ==> EdgesDone(m, ps, lengths, angles, tangents, locals, globals)
    ensures r.Fail? ==>
      r.error.PulleysTooClose? && r.error.i < |ps| && r.error.j == Succ(r.error.i, |ps|) &&
      FirstTooClose(m, ps, 0) == Some(r.error.i) &&
      EdgesStoppedAt(m, ps, r.error.i, lengths0, angles0, tangents0, locals0, globals0,
                     lengths, angles, tangents, locals, globals)
  {
    var n := |pulleys|;
    lengths, angles, tangents, locals, globals := lengths0, angles0, tangents0, locals0, globals0;
    var i := 0;
    while i < n
      invariant 0 <= i <= n
      invariant |lengths| == n && |angles| == n && |tangents| == n && |locals| == n && |globals| == n
      invariant forall k :: 0 <= k < i ==> !TooClose(m, ps, k)
      invariant forall k :: 0 <= k < i ==>
        EdgeResults(m, ps, k, lengths[k], angles[k], tangents[k], locals[k], globals[k])
      invariant forall k :: i <= k < n ==>
        lengths[k] == lengths0[k] && angles[k] == angles0[k] && tangents[k] == tangents0[k] &&
        locals[k] == locals0[k] && globals[k] == globals0[k]
    {
      var centreDelta, minSpace := SpacingAt(m, pulleys, ps, i);
      lengths := lengths[i := centreDelta];
      if centreDelta < minSpace {
        FirstTooCloseAt(m, ps, 0, i);
        return Fail(PulleysTooClose(i, Succ(i, n))), lengths, angles, tangents, locals, globals;
      }
      var angle, tangent, local, global := TangentAt(m, pulleys, ps, i, centreDelta);
      angles := angles[i := angle];
      tangents := tangents[i := tangent];
      locals := locals[i := local];
      globals := globals[i := global];
      i := i + 1;
    }
    return Pass, lengths, angles, tangents, locals, globals;
  }

  // ---------- geometry, second loop: one pulley per step ----------

  /** The six second-loop results of pulley k agree with the snapshot. */
  ghost predicate ArcResults(m: MathLib, ps: seq<PulleyState>, k: nat,
                             wrap: real, arc: real, x0: real, y0: real, x1: real, y1: real)
    requires k < |ps| && Feasible(m, ps)
  {
    wrap == WrapAngle(m, ps, k) && arc == WrapLength(m, ps, k) &&
    x0 == XIn(m, ps, k) && y0 == YIn(m, ps, k) && x1 == XOut(m, ps, k) && y1 == YOut(m, ps, k)
  }

  /** The six lists hold the second-loop results of every pulley. */
  ghost predicate ArcsDone(m: MathLib, ps: seq<PulleyState>, wraps: seq<real>, arcs: seq<real>,
                           xIns: seq<real>, yIns: seq<real>, xOuts: seq<real>, yOuts: seq<real>)
    requires Feasible(m, ps)
  {
    |wraps| == |ps| && |arcs| == |ps| && |xIns| == |ps| && |yIns| == |ps| && |xOuts| == |ps| && |yOuts| == |ps| &&
    forall k :: 0 <= k < |ps| ==> ArcResults(m, ps, k, wraps[k], arcs[k], xIns[k], yIns[k], xOuts[k], yOuts[k])
  }

  /**
   * One step of the second loop, for pulley i: the wrap between the tangent
   * cached for the incoming edge Pred(i) and the one for the outgoing edge i,
   * the arc length, and the points where the belt meets the rim.
   */
  method ArcAt(m: MathLib, pulleys: seq<Pulley>, ghost ps: seq<PulleyState>, tangents: seq<real>, i: nat)
    returns (wrap: real, arc: real, x0: real, y0: real, x1: real, y1: real)
    requires ps == States(pulleys) && Feasible(m, ps) && i < |ps|
    requires |tangents| == |ps| && forall k :: 0 <= k < |ps| ==> tangents[k] == GlobalTangentAngle(m, ps, k)
    ensures ArcResults(m, ps, i, wrap, arc, x0, y0, x1, y1)
  {
    var k := Pred(i, |pulleys|);
    var p := pulleys[i];
    assert p.State() == ps[i];
    var tangentIn, tangentOut := tangents[k], tangents[i];
    wrap := Angle0To2Pi(Signed(p.direction, tangentIn - tangentOut));
    arc := ArcLength(wrap, p.radius);
    var normalIn := tangentIn + Signed(p.direction, Pi / 2.0);
    x0, y0 := PointOnRim(p.x, p.radius, m.cos(normalIn)), PointOnRim(p.y, p.radius, m.sin(normalIn));
    var normalOut := tangentOut + Signed(p.direction, Pi / 2.0);
    x1, y1 := PointOnRim(p.x, p.radius, m.cos(normalOut)), PointOnRim(p.y, p.radius, m.sin(normalOut));
  }

  /**
   * The second geometry loop: for every pulley, from the tangent angles the
   * first loop cached, the wrap angle, the wrap length and the two contact points.
   */
  method WrapPass(m: MathLib, pulleys: seq<Pulley>, ghost ps: seq<PulleyState>, tangents: seq<real>)
    returns (wraps: seq<real>, arcs: seq<real>, xIns: seq<real>, yIns: seq<real>, xOuts: seq<real>, yOuts: seq<real>)
    requires ps == States(pulleys) && Feasible(m, ps)
    requires |tangents| == |ps| && forall k :: 0 <= k < |ps| ==> tangents[k] == GlobalTangentAngle(m, ps, k)
    ensures ArcsDone(m, ps, wraps, arcs, xIns, yIns, xOuts, yOuts)
  {
    var n := |pulleys|;
    wraps, arcs, xIns, yIns, xOuts, yOuts := Zeros(n), Zeros(n), Zeros(n), Zeros(n), Zeros(n), Zeros(n);
    var i := 0;
    while i < n
      invariant 0 <= i <= n
      invariant |wraps| == n && |arcs| == n && |xIns| == n && |yIns| == n && |xOuts| == n && |yOuts| == n
      invariant forall k :: 0 <= k < i ==> ArcResults(m, ps, k, wraps[k], arcs[k], xIns[k], yIns[k], xOuts[k], yOuts[k])
    {
      var wrap, arc, x0, y0, x1, y1 := ArcAt(m, pulleys, ps, tangents, i);
      wraps := wraps[i := wrap];
      arcs := arcs[i := arc];
      xIns := xIns[i := x0];
      yIns := yIns[i := y0];
      xOuts := xOuts[i := x1];
      yOuts := yOuts[i := y1];
      i := i + 1;
    }
  }

  /** Belt length from the two lists, once they hold the snapshot's arcs and tangents. */
  lemma TotalOfLists(m: MathLib, ps: seq<PulleyState>, arcs: seq<real>, tangents: seq<real>)
    requires Feasible(m, ps) && |arcs| == |ps| && |tangents| == |ps|
    requires forall k :: 0 <= k < |ps| ==> arcs[k] == WrapLength(m, ps, k) && tangents[k] == TangentLength(m, ps, k)
    ensures Sum(arcs) + Sum(tangents) == TotalLength(m, ps)
  {
    assert arcs == WrapLengths(m, ps);
    assert tangents == TangentLengths(m, ps);
  }

  // ---------- the whole geometry pass ----------

  /** The lists the geometry pass fills, one entry per pulley or per edge, and the belt length. */
  datatype GeometryTable = GeometryTable(
    c2cAngle: seq<real>, c2cLength: seq<real>, tangentLength: seq<real>,
    localTangentAngle: seq<real>, globalTangentAngle: seq<real>,
    wrapAngle: seq<real>, wrapLength: seq<real>,
    xIn: seq<real>, yIn: seq<real>, xOut: seq<real>, yOut: seq<real>,
    totalLength: real)
  {
    /** Every list has one entry per pulley. */
    predicate Sized(n: nat)
    {
      |c2cAngle| == n && |c2cLength| == n && |tangentLength| == n &&
      |localTangentAngle| == n && |globalTangentAngle| == n &&
      |wrapAngle| == n && |wrapLength| == n && |xIn| == n && |yIn| == n && |xOut| == n && |yOut| == n
    }
  }

  /** The table holds the complete geometry of a feasible snapshot. */
  ghost predicate GeometryOf(m: MathLib, ps: seq<PulleyState>, g: GeometryTable)
  {
    EdgesDone(m, ps, g.c2cLength, g.c2cAngle, g.tangentLength, g.localTangentAngle, g.globalTangentAngle) &&
    ArcsDone(m, ps, g.wrapAngle, g.wrapLength, g.xIn, g.yIn, g.xOut, g.yOut) &&
    g.totalLength == TotalLength(m, ps)
  }

  /**
   * What the geometry pass leaves, starting from table g0: it succeeds exactly
   * when every edge passes the spacing check, and then the table is the
   * snapshot's geometry; otherwise it names the first edge e that is too close
   * and its successor, and only the first-loop lists of edges up to e changed.
   */
  ghost predicate GeometryPassResult(m: MathLib, ps: seq<PulleyState>, g0: GeometryTable, r: Outcome, g: GeometryTable)
  {
    g.Sized(|ps|) &&
    (r.Pass? <==> Feasible(m, ps)) &&
    (r.Pass? ==> GeometryOf(m, ps, g)) &&
    (r.Fail? ==>
      r.error.PulleysTooClose? && r.error.i < |ps| && r.error.j == Succ(r.error.i, |ps|) &&
      FirstTooClose(m, ps, 0) == Some(r.error.i) &&
      EdgesStoppedAt(m, ps, r.error.i, g0.c2cLength, g0.c2cAngle, g0.tangentLength, g0.localTangentAngle,
                     g0.globalTangentAngle, g.c2cLength, g.c2cAngle, g.tangentLength, g.localTangentAngle,
                     g.globalTangentAngle) &&
      g.wrapAngle == g0.wrapAngle && g.wrapLength == g0.wrapLength && g.xIn == g0.xIn && g.yIn == g0.yIn &&
      g.xOut == g0.xOut && g.yOut == g0.yOut && g.totalLength == g0.totalLength)
  }

  /**
   * The geometry pass over the pulleys, starting from the lists in g0: the edge
   * loop, which stops at the first edge whose pulleys are too close; then the
   * wrap loop over the tangent angles the edge loop cached; then the belt length
   * as the sum of the wrap lengths plus the sum of the tangent lengths.
   */
  method GeometryPass(m: MathLib, pulleys: seq<Pulley>, ghost ps: seq<PulleyState>, g0: GeometryTable)
    returns (r: Outcome, g: GeometryTable)
    requires ps == States(pulleys) && g0.Sized(|ps|)
    ensures GeometryPassResult(m, ps, g0, r, g)
  {
    var lengths, angles, tangents, locals, globals;
    r, lengths, angles, tangents, locals, globals :=
      EdgePass(m, pulleys, ps, g0.c2cLength, g0.c2cAngle, g0.tangentLength, g0.localTangentAngle, g0.globalTangentAngle);
    if r.Fail? {
      g := g0.(c2cAngle := angles, c2cLength := lengths, tangentLength := tangents,
               localTangentAngle := locals, globalTangentAngle := globals);
      return;
    }
    var wraps, arcs, xIns, yIns, xOuts, yOuts := WrapPass(m, pulleys, ps, globals);
    TotalOfLists(m, ps, arcs, tangents);
    g := GeometryTable(angles, lengths, tangents, locals, globals, wraps, arcs, xIns, yIns, xOuts, yOuts,
                       Sum(arcs) + Sum(tangents));
  }

  /** The table a new belt starts from: every list zeros, the length zero. */
  function EmptyGeometry(n: nat): (g: GeometryTable)
    ensures g.Sized(n)
  {
    GeometryTable(Zeros(n), Zeros(n), Zeros(n), Zeros(n), Zeros(n), Zeros(n), Zeros(n), Zeros(n), Zeros(n),
                  Zeros(n), Zeros(n), 0.0)
  }

  /** A list of n zeros, as the belt allocates its result lists. */
  function Zeros(n: nat): (z: seq<real>)
    ensures |z| == n && forall i :: 0 <= i < n ==> z[i] == 0.0
  {
    seq(n, _ => 0.0)
  }

  // ---------- forces ----------

  /**
   * The first force loop: the drives d * T / r of every pulley but ut, summed in
   * the order (i + ut) mod n for i = 1 .. n-1.
   */
  method KnownDriveSum(pulleys: seq<Pulley>, ghost ps: seq<PulleyState>, ut: nat) returns (sum: real)
    requires ps == States(pulleys) && ut < |ps|
    ensures sum == Sum(KnownDrives(ps, ut))
  {
    var n := |pulleys|;
    ghost var ks := KnownDrives(ps, ut);
    sum := 0.0;
    var i := 1;
    while i < n
      invariant 1 <= i <= n
      invariant sum == Sum(ks[..i - 1])
    {
      var k := Rotate(i, ut, n);
      var p := pulleys[k];
      assert p.State() == ps[k];
      assert ks[..i] == ks[..i - 1] + [ks[i - 1]];
      SumAppend(ks[..i - 1], [ks[i - 1]]);
      sum := sum + Signed(p.direction, p.torque) / p.radius;
      i := i + 1;
    }
    assert ks[..n - 1] == ks;
  }

  /**
   * Overwrites the torque of the pulley in slot ut with the one that balances the
   * known drives. Every slot holding that same pulley object sees the new torque.
   */
  method SolveTorque(pulleys: seq<Pulley>, ut: nat)
    requires ut < |pulleys|
    modifies pulleys[ut]
    ensures States(pulleys) ==
      WriteTorque(old(States(pulleys)), pulleys, ut, SolvedTorque(old(States(pulleys)), ut))
  {
    ghost var ps := States(pulleys);
    var sum := KnownDriveSum(pulleys, ps, ut);
    var p := pulleys[ut];
    TorqueWrite(p, ps[ut], sum, SolvedTorque(ps, ut));
    p.torque := -(Signed(p.direction, sum) * p.radius);
    assert p.State() == ps[ut].(torque := SolvedTorque(ps, ut));
  }

  /** The expression the loop writes is the balancing torque of the pulley's state. */
  lemma TorqueWrite(p: Pulley, s: PulleyState, sum: real, solved: real)
    requires p.State() == s && solved == BalancingTorque(s, sum)
    ensures -(Signed(p.direction, sum) * p.radius) == solved
  {
  }

  /**
   * The states after writing `torque` into the pulley object in slot ut: every
   * slot that holds that same object sees the new torque.
   */
  function WriteTorque(ps: seq<PulleyState>, objs: seq<Pulley>, ut: nat, torque: real): (qs: seq<PulleyState>)
    requires |objs| == |ps| && ut < |ps|
    ensures |qs| == |ps|
    ensures forall j :: 0 <= j < |ps| ==>
      qs[j] == if objs[j] == objs[ut] then ps[j].(torque := torque) else ps[j]
  {
    seq(|ps|, j requires 0 <= j < |ps| => if objs[j] == objs[ut] then ps[j].(torque := torque) else ps[j])
  }

  /** No other slot holds the pulley object in slot k. */
  predicate Unshared(objs: seq<Pulley>, k: nat)
    requires k < |objs|
  {
    forall j :: 0 <= j < |objs| && j != k ==> objs[j] != objs[k]
  }

  /**
   * When the object in slot ut appears nowhere else, the write is the solve of
   * slot ut alone, and the torques balance.
   */
  lemma UnsharedWrite(ps: seq<PulleyState>, objs: seq<Pulley>, ut: nat)
    requires |objs| == |ps| && ut < |ps|
    ensures Unshared(objs, ut) ==>
      WriteTorque(ps, objs, ut, SolvedTorque(ps, ut)) == Solve(ps, ut) && Balanced(Solve(ps, ut))
  {
    if Unshared(objs, ut) {
      SolveBalances(ps, ut);
    }
  }

  /**
   * The second force loop: the tension of each segment relative to segment 0,
   * each pulley taking its drive out of the belt.
   */
  method RelTensionPass(pulleys: seq<Pulley>, ghost ps: seq<PulleyState>) returns (rel: seq<real>)
    requires ps == States(pulleys) && ps != []
    ensures rel == RelTensions(ps)
  {
    var n := |pulleys|;
    rel := Zeros(n);
    var i := 1;
    while i < n
      invariant 1 <= i <= n && |rel| == n
      invariant forall k :: 0 <= k < i ==> rel[k] == RelTension(ps, k)
    {
      var p := pulleys[i];
      assert p.State() == ps[i];
      rel := rel[i := rel[i - 1] - Signed(p.direction, p.torque) / p.radius];
      i := i + 1;
    }
  }

  /**
   * The tension of every segment: the relative tensions shifted by the offset of
   * the configured mode, no tensioner or a tensioner at slot t.
   */
  method Tensions(pulleys: seq<Pulley>, ghost ps: seq<PulleyState>, tensioner: Option<nat>,
                  minTension: real, tensionerTension: real) returns (tensions: seq<real>)
    requires ps == States(pulleys) && ps != [] && (tensioner.Some? ==> tensioner.value < |ps|)
    ensures tensions == LocalTensions(ps, tensioner, minTension, tensionerTension)
  {
    var rel := RelTensionPass(pulleys, ps);
    var offset;
    match tensioner {
      case None =>
        offset := minTension - Min(rel);
      case Some(t) =>
        var p := pulleys[t];
        assert p.State() == ps[t];
        offset := tensionerTension - rel[t];
        offset := offset - Signed(p.direction, p.torque / p.radius) / 2.0;
    }
    tensions := AddToAll(rel, offset);
  }

  /** The force lists, as the force getter returns them. */
  datatype ForceReport = ForceReport(reactionAngle: seq<real>, reactionForce: seq<real>, localTension: seq<real>)
  {
    /** Every list has one entry per pulley. */
    predicate Sized(n: nat)
    {
      |reactionAngle| == n && |reactionForce| == n && |localTension| == n
    }
  }

  /** The report holds the tensions `lt` and the reactions they and the tangent angles produce. */
  ghost predicate ReactionsOf(m: MathLib, tangents: seq<real>, lt: seq<real>, f: ForceReport)
    requires |tangents| == |lt|
  {
    f.localTension == lt && f.Sized(|lt|) &&
    forall i :: 0 <= i < |lt| ==>
      f.reactionAngle[i] == ReactionAngle(m, tangents, lt, i) && f.reactionForce[i] == ReactionForce(m, tangents, lt, i)
  }

  /**
   * The third force loop: for every pulley, the direction and size of the pull of
   * the segments entering and leaving it.
   */
  method ReactionPass(m: MathLib, tangents: seq<real>, tensions: seq<real>)
    returns (angles: seq<real>, forces: seq<real>)
    requires |tangents| == |tensions|
    ensures |angles| == |tensions| && |forces| == |tensions|
    ensures forall i :: 0 <= i < |tensions| ==>
      angles[i] == ReactionAngle(m, tangents, tensions, i) && forces[i] == ReactionForce(m, tangents, tensions, i)
  {
    var n := |tensions|;
    angles, forces := Zeros(n), Zeros(n);
    var i := 0;
    while i < n
      invariant 0 <= i <= n && |angles| == n && |forces| == n
      invariant forall k :: 0 <= k < i ==>
        angles[k] == ReactionAngle(m, tangents, tensions, k) && forces[k] == ReactionForce(m, tangents, tensions, k)
    {
      var k := Pred(i, n);
      var tangentIn, tangentOut := tangents[k], tangents[i];
      var reactionX := tensions[k] * m.cos(tangentIn) + tensions[i] * m.cos(tangentOut + Pi);
      var reactionY := tensions[k] * m.sin(tangentIn) + tensions[i] * m.sin(tangentOut + Pi);
      assert reactionX == ReactionX(m, tangents, tensions, i) && reactionY == ReactionY(m, tangents, tensions, i);
      angles := angles[i := Angle0To2Pi(m.atan2(reactionY, reactionX))];
      forces := forces[i := m.hypot(reactionY, reactionX)];
      i := i + 1;
    }
  }

  /**
   * What the force pass leaves, from the snapshot `before` of the pulley objects
   * `objs` to the snapshot `ps` after it: the pulley object in slot ut carries
   * the balancing torque, seen through every slot that holds it, and when no
   * other slot holds it the torques cancel. The pass fails exactly when some
   * tension would be negative, reports the first smallest one and keeps the
   * lists f0; otherwise the lists hold the tensions and the reactions they
   * produce along the tangent angles. With no tensioner it never fails and the
   * smallest tension is the minimum tension.
   */
  ghost predicate ForcePassResult(m: MathLib, before: seq<PulleyState>, objs: seq<Pulley>, ps: seq<PulleyState>,
                                  ut: nat, tensioner: Option<nat>, minTension: real, tensionerTension: real,
                                  tangents: seq<real>, f0: ForceReport, r: Outcome, f: ForceReport)
    requires |objs| == |before| && ut < |before| && |tangents| == |before|
    requires tensioner.Some? ==> tensioner.value < |before|
  {
    ps == WriteTorque(before, objs, ut, SolvedTorque(before, ut)) &&
    (Unshared(objs, ut) ==> ps == Solve(before, ut) && Balanced(ps)) &&
    var lt := LocalTensions(ps, tensioner, minTension, tensionerTension);
    (r.Pass? <==> Min(lt) >= 0.0) &&
    (tensioner.None? ==> r.Pass? && Min(lt) == minTension) &&
    (r.Fail? ==> r.error == NegativeTension(ArgMin(lt), Min(lt)) && f == f0) &&
    (r.Pass? ==> ReactionsOf(m, tangents, lt, f))
  }

  /**
   * The force pass: balance the torques by overwriting the unknown one, propagate
   * the tensions, shift them by the offset of the configured mode, refuse a
   * negative tension, then compute the reactions along the tangent angles.
   */
  method ForcePass(m: MathLib, pulleys: seq<Pulley>, ut: nat, tensioner: Option<nat>,
                   minTension: real, tensionerTension: real, tangents: seq<real>, f0: ForceReport)
    returns (r: Outcome, f: ForceReport)
    requires ut < |pulleys| && |tangents| == |pulleys| && (tensioner.Some? ==> tensioner.value < |pulleys|)
    requires minTension >= 0.0 && f0.Sized(|pulleys|)
    modifies pulleys[ut]
    ensures f.Sized(|pulleys|)
    ensures ForcePassResult(m, old(States(pulleys)), pulleys, States(pulleys), ut, tensioner,
                            minTension, tensionerTension, tangents, f0, r, f)
  {
    ghost var before := States(pulleys);
    SolveTorque(pulleys, ut);
    UnsharedWrite(before, pulleys, ut);
    ghost var ps := States(pulleys);
    var lt := Tensions(pulleys, ps, tensioner, minTension, tensionerTension);
    if tensioner.None? {
      MinTensionMode(ps, minTension, tensionerTension);
    }
    if Min(lt) < 0.0 {
      return Fail(NegativeTension(ArgMin(lt), Min(lt))), f0;
    }
    var angles, magnitudes := ReactionPass(m, tangents, lt);
    return Pass, ForceReport(angles, magnitudes, lt);
  }

  /**
   * What a successful force pass guarantees about the tensions it reports: no
   * tension is negative; with no tensioner the smallest one is the minimum
   * tension; across every pulley but pulley 0 the tension drops by that
   * pulley's drive. Where the loop closes, at pulley 0, and for a tensioner at
   * slot 0, the guarantee needs the torques to balance, which the solve secures
   * when the unknown-torque pulley sits in one slot only. A tensioner at any
   * other slot sees its entering and leaving tensions average to the
   * tensioner tension.
   */
  lemma ForcePassTensions(m: MathLib, before: seq<PulleyState>, objs: seq<Pulley>, ps: seq<PulleyState>,
                          ut: nat, tensioner: Option<nat>, minTension: real, tensionerTension: real,
                          tangents: seq<real>, f0: ForceReport, r: Outcome, f: ForceReport)
    requires |objs| == |before| && ut < |before| && |tangents| == |before|
    requires tensioner.Some? ==> tensioner.value < |before|
    requires ForcePassResult(m, before, objs, ps, ut, tensioner, minTension, tensionerTension, tangents, f0, r, f)
    requires r.Pass?
    ensures |f.localTension| == |ps| == |before|
    ensures forall i :: 0 <= i < |ps| ==> f.localTension[i] >= 0.0
    ensures tensioner.None? ==> Min(f.localTension) == minTension
    ensures forall i :: 0 <= i < |ps| && (i != 0 || Unshared(objs, ut)) ==>
      f.localTension[Pred(i, |ps|)] - f.localTension[i] == Drive(ps[i])
    ensures tensioner.Some? && (tensioner.value != 0 || Unshared(objs, ut)) ==>
      var t := tensioner.value;
      (f.localTension[Pred(t, |ps|)] + f.localTension[t]) / 2.0 == tensionerTension
  {
    TensionPropagation(ps, tensioner, minTension, tensionerTension);
    if tensioner.Some? && (tensioner.value != 0 || Unshared(objs, ut)) {
      TensionerMode(ps, tensioner.value, minTension, tensionerTension);
    }
  }
}
