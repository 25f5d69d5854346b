/**
 The stopping distance of the optimisation loop: the Euclidean distance
 between the last two rows of X, compared against the stop tolerance.
 The square root is never taken: the loop keeps the squared distance and
 compares it with the squared tolerance, which decides the same question.
 */
module Distance {
  import opened Collaborators

  /** Squared Euclidean distance, summed over the coordinates both rows have. */
  function SqDist(a: Point, b: Point): (d: real)
    ensures d >= 0.0
    decreases |a|
  {
    if |a| == 0 || |b| == 0 then 0.0
    else (a[0] - b[0]) * (a[0] - b[0]) + SqDist(a[1..], b[1..])
  }

  /**
   Squared distance between the last row of X and the row before it, read
   with Python's indexing: when X has one row, index -1 wraps to that row.
   */
  function LastSqDist(x: seq<Point>): real
    requires |x| >= 1
  {
    SqDist(x[|x| - 1], x[if |x| >= 2 then |x| - 2 else |x| - 1])
  }

  /** `sqrt(sq) > tol`, decided without a square root. */
  predicate FarApart(sq: real, tol: real)
  {
    tol < 0.0 || sq > tol * tol
  }

  /**
   The loop's distance variable. Before the first completed pass it holds
   `stop_criteria + 1`, which always exceeds the tolerance.
   */
  datatype Gap = Unmeasured | Measured(sq: real)

  /** The loop guard's distance half: `distance_lastX > stop_criteria`. */
  predicate Continues(gap: Gap, tol: real)
  {
    match gap
    case Unmeasured => true
    case Measured(sq) => FarApart(sq, tol)
  }

  /** Comparing the squares decides exactly the comparison of the root. */
  lemma FarApartIsRootComparison(root: real, tol: real)
    requires root >= 0.0
    ensures root > tol <==> FarApart(root * root, tol)
  {
    if tol >= 0.0 {
      if root > tol {
        assert root * root > tol * root >= tol * tol;
      } else {
        assert root * root <= tol * root <= tol * tol;
      }
    }
  }

  /** A row is at distance zero from itself. */
  lemma {:induction false} SqDistSelf(a: Point)
    ensures SqDist(a, a) == 0.0
    decreases |a|
  {
    if |a| > 0 {
      SqDistSelf(a[1..]);
    }
  }

  /** Under a non-negative tolerance, a repeated row always fails the distance test. */
  lemma RepeatedRowIsClose(p: Point, tol: real)
    requires tol >= 0.0
    ensures !Continues(Measured(SqDist(p, p)), tol)
  {
  }
}
