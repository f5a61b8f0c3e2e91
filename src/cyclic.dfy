/**
 * Cyclic index arithmetic over the pulleys of a belt. The belt code writes these as
 * `(i + 1) % n`, `(i - 1) % n` and `(i + start) % n` with the floored modulo of
 * its language, which agrees with Dafny's Euclidean `%` for a positive modulus.
 * The functions below are written as a single wrap-around so that the solver
 * sees linear arithmetic; the lemmas after each one state that it is the modulo.
 */
module Cyclic {

  /** The pulley after `i` around the loop. */
  function Succ(i: nat, n: nat): (j: nat)
    requires i < n
    ensures j < n
  {
    if i + 1 == n then 0 else i + 1
  }

  lemma SuccIsModulo(i: nat, n: nat)
    requires i < n
    ensures Succ(i, n) == (i + 1) % n
  {
  }

  /** The pulley before `i` around the loop; the predecessor of 0 is n - 1. */
  function Pred(i: nat, n: nat): (k: nat)
    requires i < n
    ensures k < n
  {
    if i == 0 then n - 1 else i - 1
  }

  lemma PredIsModulo(i: nat, n: nat)
    requires i < n
    ensures Pred(i, n) == (i - 1) % n
  {
  }

  /** Succ and Pred undo each other. */
  lemma SuccPredInverse(i: nat, n: nat)
    requires i < n
    ensures Succ(Pred(i, n), n) == i && Pred(Succ(i, n), n) == i
  {
  }

  /** The slot visited at step `i` of a pass that starts at `start`. */
  function Rotate(i: nat, start: nat, n: nat): (m: nat)
    requires i < n && start < n
    ensures m < n
  {
    if i + start < n then i + start else i + start - n
  }

  lemma RotateIsModulo(i: nat, start: nat, n: nat)
    requires i < n && start < n
    ensures Rotate(i, start, n) == (i + start) % n
  {
  }

  /** The step at which a pass that starts at `start` reaches slot `j`. */
  function StepTo(j: nat, start: nat, n: nat): (i: nat)
    requires j < n && start < n
    ensures i < n
  {
    if start <= j then j - start else j - start + n
  }

  /**
   * Steps 1 .. n-1 of a pass that starts at `start` visit every slot except
   * `start`, each exactly once: no step lands on `start`, no two steps land on
   * the same slot, and every other slot is reached, at the step StepTo.
   */
  lemma RotationVisitsOthersOnce(start: nat, n: nat)
    requires start < n
    ensures forall i :: 1 <= i < n ==> Rotate(i, start, n) != start
    ensures forall i, i' :: 1 <= i < n && 1 <= i' < n && Rotate(i, start, n) == Rotate(i', start, n) ==> i == i'
    ensures forall j :: 0 <= j < n && j != start ==>
      1 <= StepTo(j, start, n) && Rotate(StepTo(j, start, n), start, n) == j
  {
  }
}
