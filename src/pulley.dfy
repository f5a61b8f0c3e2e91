/** A pulley: radius, centre, rotation direction and torque. */
module Pulleys {
  import opened Errors

  /** A strictly positive length. */
  type PosReal = r: real | r > 0.0 witness 1.0

  /** A rotation direction: +1 clockwise, -1 counter-clockwise. */
  type Sign = d: int | d == 1 || d == -1 witness 1

  /**
   * A quantity times a direction, d * x. Written as a case split so that the
   * solver sees linear arithmetic; SignedIsProduct states that it is the product.
   */
  function Signed(d: Sign, x: real): real
  {
    if d == 1 then x else -x
  }

  lemma SignedIsProduct(d: Sign, x: real)
    ensures Signed(d, x) == (d as real) * x
  {
  }

  /** What a caller may pass as a direction: a number or a string. */
  datatype DirectionToken = Number(value: real) | Text(text: string)

  /** Normalises a direction token: 1 or "CW" is clockwise, -1 or "CCW" counter-clockwise. */
  function ParseDirection(token: DirectionToken): (r: Result<Sign>)
    ensures r == Ok(1) <==> token == Number(1.0) || token == Text("CW")
    ensures r == Ok(-1) <==> token == Number(-1.0) || token == Text("CCW")
    ensures r.Err? ==> r.error == InvalidDirection
  {
    if token == Number(1.0) || token == Text("CW") then Ok(1)
    else if token == Number(-1.0) || token == Text("CCW") then Ok(-1)
    else Err(InvalidDirection)
  }

  /** The value a pulley holds at one moment. */
  datatype PulleyState = PulleyState(radius: PosReal, x: real, y: real, direction: Sign, torque: real)

  class Pulley {
    const radius: PosReal
    const direction: Sign
    var x: real
    var y: real
    var torque: real

    /** Stores already validated arguments. */
    constructor (radius: PosReal, x: real, y: real, direction: Sign, torque: real)
      ensures State() == PulleyState(radius, x, y, direction, torque)
    {
      this.direction := direction;
      this.radius := radius;
      this.x := x;
      this.y := y;
      this.torque := torque;
    }

    function State(): PulleyState
      reads this
    {
      PulleyState(radius, x, y, direction, torque)
    }

    /** Moves the pulley; nothing else changes. */
    method UpdatePosition(x: real, y: real)
      modifies this
      ensures State() == old(State()).(x := x, y := y)
    {
      this.x := x;
      this.y := y;
    }

    /** Overwrites the torque; nothing else changes. */
    method UpdateTorque(torque: real)
      modifies this
      ensures State() == old(State()).(torque := torque)
    {
      this.torque := torque;
    }
  }

  /** The states of a sequence of pulleys, slot by slot. */
  function States(ps: seq<Pulley>): (ss: seq<PulleyState>)
    reads ps
    ensures |ss| == |ps| && forall i :: 0 <= i < |ps| ==> ss[i] == ps[i].State()
  {
    if ps == [] then [] else States(ps[..|ps| - 1]) + [ps[|ps| - 1].State()]
  }

  /** Snapshots taken before and after a change that left every pulley alone agree. */
  twostate lemma StatesUnchanged(ps: seq<Pulley>)
    requires forall k :: 0 <= k < |ps| ==> unchanged(ps[k])
    ensures States(ps) == old(States(ps))
  {
    var now, was := States(ps), old(States(ps));
    assert |now| == |was|;
    forall k | 0 <= k < |ps|
      ensures now[k] == was[k]
    {
      assert ps[k].State() == old(ps[k].State());
    }
  }

  /**
   * Builds a pulley, refusing a radius that is not positive and then a direction
   * token that is not one of the four accepted forms.
   */
  method NewPulley(radius: real, x: real, y: real, direction: DirectionToken, torque: real := 0.0)
    returns (r: Result<Pulley>)
    ensures radius <= 0.0 ==> r == Err(NonPositiveRadius)
    ensures radius > 0.0 && ParseDirection(direction).Err? ==> r == Err(InvalidDirection)
    ensures radius > 0.0 && ParseDirection(direction).Ok? ==>
      r.Ok? && fresh(r.value) &&
      r.value.State() == PulleyState(radius, x, y, ParseDirection(direction).value, torque)
  {
    if radius <= 0.0 {
      return Err(NonPositiveRadius);
    }
    var d := ParseDirection(direction);
    if d.Err? {
      return Err(d.error);
    }
    var p := new Pulley(radius, x, y, d.value, torque);
    return Ok(p);
  }
}
