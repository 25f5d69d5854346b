/**
 The result of an optimisation run: the row of X at which Y is smallest.
 `ArgMin` follows numpy's `argmin` (the first index of the minimum), and
 `Minimum` follows Python's `min`, a left-to-right fold.
 */
module Best {

  /** The first index at which `y` takes its least value. */
  function ArgMin(y: seq<real>): (i: nat)
    requires |y| > 0
    ensures i < |y|
    ensures forall j :: 0 <= j < |y| ==> y[i] <= y[j]
    ensures forall j :: 0 <= j < i ==> y[i] < y[j]
    decreases |y|
  {
    if |y| == 1 then 0
    else
      var i := ArgMin(y[..|y| - 1]);
      assert forall j :: 0 <= j < |y| - 1 ==> y[..|y| - 1][j] == y[j];
      if y[|y| - 1] < y[i] then |y| - 1 else i
  }

  /** The least value of `y`, folded from the front as Python's `min` does. */
  function Minimum(y: seq<real>): (m: real)
    requires |y| > 0
    ensures exists j :: 0 <= j < |y| && y[j] == m
    ensures forall j :: 0 <= j < |y| ==> m <= y[j]
    decreases |y|
  {
    if |y| == 1 then y[0]
    else
      var rest := Minimum(y[1..]);
      assert forall j :: 1 <= j < |y| ==> y[1..][j - 1] == y[j];
      assert exists j :: 1 <= j < |y| && y[j] == rest by {
        var j' :| 0 <= j' < |y| - 1 && y[1..][j'] == rest;
        assert y[j' + 1] == rest;
      }
      if y[0] <= rest then y[0] else rest
  }

  /** `fx_opt` (`min(Y)`) is the value of Y at `argmin(Y)`, the row `x_opt` is read from. */
  lemma ArgMinAttainsMinimum(y: seq<real>)
    requires |y| > 0
    ensures y[ArgMin(y)] == Minimum(y)
  {
  }
}
