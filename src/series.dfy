/** Sums, minima and shifts of real sequences: the array operations the force solver uses. */
module Series {

  /** Left-to-right sum, as an accumulator loop or the host's `sum` builds it. */
  function Sum(s: seq<real>): real
  {
    if s == [] then 0.0 else Sum(s[..|s| - 1]) + s[|s| - 1]
  }

  /** The sum of a concatenation is the sum of the parts. */
  lemma {:induction false} SumAppend(a: seq<real>, b: seq<real>)
    ensures Sum(a + b) == Sum(a) + Sum(b)
  {
    if b != [] {
      assert (a + b)[..|a + b| - 1] == a + b[..|b| - 1];
      SumAppend(a, b[..|b| - 1]);
    } else {
      assert a + b == a;
    }
  }

  /** Peeling the first element off a sum. */
  lemma SumFront(s: seq<real>)
    requires s != []
    ensures Sum(s) == s[0] + Sum(s[1..])
  {
    assert s == [s[0]] + s[1..];
    SumAppend([s[0]], s[1..]);
    assert [s[0]][..0] == [];
  }

  /** A sum of non-negative terms is non-negative. */
  lemma {:induction false} SumNonNegative(s: seq<real>)
    requires forall i :: 0 <= i < |s| ==> s[i] >= 0.0
    ensures Sum(s) >= 0.0
  {
    if s != [] {
      SumNonNegative(s[..|s| - 1]);
    }
  }

  /** The smallest element (numpy's `min`). */
  function Min(s: seq<real>): (m: real)
    requires s != []
    ensures m in s
    ensures forall i :: 0 <= i < |s| ==> m <= s[i]
  {
    if |s| == 1 then s[0]
    else
      var rest := Min(s[..|s| - 1]);
      if s[|s| - 1] < rest then s[|s| - 1] else rest
  }

  /** The first index holding the smallest element (numpy's `argmin`). */
  function ArgMin(s: seq<real>): (k: nat)
    requires s != []
    ensures k < |s| && s[k] == Min(s)
    ensures forall j :: 0 <= j < k ==> s[k] < s[j]
  {
    if |s| == 1 then 0
    else
      var k := ArgMin(s[..|s| - 1]);
      if s[|s| - 1] < s[k] then |s| - 1 else k
  }

  /** Adds `c` to every element (numpy's in-place `s += c`). */
  function AddToAll(s: seq<real>, c: real): (r: seq<real>)
    ensures |r| == |s|
    ensures forall i :: 0 <= i < |s| ==> r[i] - s[i] == c
  {
    seq(|s|, i requires 0 <= i < |s| => s[i] + c)
  }

  /** Shifting every element shifts the minimum by the same amount. */
  lemma MinOfShift(s: seq<real>, c: real)
    requires s != []
    ensures Min(AddToAll(s, c)) == Min(s) + c
  {
    var r := AddToAll(s, c);
    var k :| 0 <= k < |r| && r[k] == Min(r);
    var j :| 0 <= j < |s| && s[j] == Min(s);
    assert Min(r) <= r[j];
    assert Min(s) <= s[k];
  }
}
