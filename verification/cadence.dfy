/**
 The hyperparameter cadence: a refit re-optimises the hyperparameters when
 Python's `num_acquisitions % model_optimize_interval` is zero, that is when
 the acquisition counter is a multiple of the interval.
 */
module Cadence {

  /** A non-zero interval; Python raises on a zero (or `None`) interval. */
  type NonZero = n: int | n != 0 witness 1

  /** The absolute value of an interval: the step between re-optimisations. */
  function Step(iv: NonZero): (s: nat)
    ensures s > 0 && (s == iv as int || s == -(iv as int))
  {
    if iv < 0 then -(iv as int) else iv as int
  }

  /**
   Python's `%` on integers: the floored remainder, which takes the sign of
   the divisor (`5 % -2 == -1`), where Dafny's `%` is never negative.
   */
  function PyMod(a: int, b: NonZero): (r: int)
    ensures b > 0 ==> 0 <= r < b
    ensures b < 0 ==> b < r <= 0
    ensures r == 0 <==> a % b == 0
  {
    var m := a % b;
    if b < 0 && m != 0 then m + b else m
  }

  /**
   The cadence as a count: a counter is due when repeatedly stepping back by
   the interval's size lands exactly on zero.
   */
  predicate Due(counter: nat, iv: NonZero)
    decreases counter
  {
    if counter < Step(iv) then counter == 0 else Due(counter - Step(iv), iv)
  }

  /** Quotient and remainder are the unique pair with `a == q*d + r` and `0 <= r < d`. */
  lemma DivUnique(a: int, d: int, q: int, r: int)
    requires d > 0 && 0 <= r < d && a == q * d + r
    ensures a / d == q && a % d == r
  {
    var q', r' := a / d, a % d;
    var t := q - q';
    assert t * d == r' - r by {
      assert q * d + r == q' * d + r';
    }
  }

  /** Dafny's remainder by a negative divisor is the remainder by its size. */
  lemma RemainderBySize(a: int, d: NonZero)
    ensures a % d == a % Step(d)
  {
    if d < 0 {
      var q, e := a / d, -(d as int);
      assert a == (-q) * e + a % d by {
        assert (-q) * e == q * d;
      }
      DivUnique(a, e, -q, a % d);
    }
  }

  /** The counting cadence decides divisibility by the interval's size. */
  lemma {:induction false} DueIsStepMultiple(counter: nat, iv: NonZero)
    ensures Due(counter, iv) <==> counter % Step(iv) == 0
    decreases counter
  {
    var s := Step(iv);
    if counter < s {
      DivUnique(counter, s, 0, counter);
    } else {
      DueIsStepMultiple(counter - s, iv);
      var q, r := (counter - s) / s, (counter - s) % s;
      DivUnique(counter, s, q + 1, r);
    }
  }

  /**
   The counting cadence is the source's test: a counter is due exactly when
   Python's `counter % iv` is zero, for a positive or a negative interval.
   */
  lemma DueIsMultiple(counter: nat, iv: NonZero)
    ensures Due(counter, iv) <==> PyMod(counter, iv) == 0
  {
    DueIsStepMultiple(counter, iv);
    RemainderBySize(counter, iv);
  }
}
