/**
 The body of `continue_optimization` (GPyOpt/core/bo.py): the while loop
 bounded by the iteration budget and the distance between the last two rows
 of X, broken early by a singular refit.
 */
module OptimizationLoop {
  import opened Wrappers
  import opened Collaborators
  import opened Distance
  import opened Cadence
  import opened ControllerState

  /** Why the loop ended. */
  datatype Exit = IterationBound | CloseSamples | SingularStop

  /** The state after the loop, the completed passes `k`, and why it ended. */
  datatype LoopEnd = LoopEnd(ctl: Controller, passes: nat, exit: Exit)

  /**
   The loop from pass `k` onwards with distance variable `gap`. A pass runs
   while `k < maxIter` and the distance test passes; a completed pass counts
   and measures the distance between the last two rows; a singular refit
   ends the loop without counting the pass.
   */
  function Loop(c: Controller, o: Oracles, maxIter: int, k: nat, gap: Gap): (r: LoopEnd)
    requires c.run.Some?
    ensures r.ctl.run.Some? && r.ctl.cfg == c.cfg
    ensures r.ctl.sparse == c.sparse && r.ctl.inducing == c.inducing
    ensures r.ctl.run.value.tol == c.run.value.tol && r.ctl.run.value.settings == c.run.value.settings
    ensures k <= r.passes
    ensures k <= maxIter ==> r.passes <= maxIter
    ensures r.exit == IterationBound <==> r.passes >= maxIter
    ensures r.exit == CloseSamples ==> r.passes > k || !Continues(gap, c.run.value.tol)
    ensures r.ctl.run.value.acquisitions ==
              c.run.value.acquisitions + (r.passes - k) + (if r.exit == SingularStop then 1 else 0)
    decreases if k < maxIter then maxIter - k else 0
  {
    if k < maxIter && Continues(gap, c.run.value.tol) then
      match Pass(c, o)
      case Singular(d) => LoopEnd(d, k, SingularStop)
      case Refitted(d) => Loop(d, o, maxIter, k + 1, Measured(LastSqDist(d.x)))
    else
      LoopEnd(c, k, if k < maxIter then CloseSamples else IterationBound)
  }

  /**
   The loop written as the source writes it, a while loop over mutable
   locals; it computes exactly what `Loop` defines.
   */
  method RunLoop(c: Controller, o: Oracles, maxIter: int) returns (r: LoopEnd)
    requires c.run.Some?
    ensures r == Loop(c, o, maxIter, 0, Unmeasured)
  {
    var cur := c;
    var k: nat := 0;
    var gap := Unmeasured;
    while k < maxIter && Continues(gap, cur.run.value.tol)
      invariant cur.run.Some?
      invariant Loop(cur, o, maxIter, k, gap) == Loop(c, o, maxIter, 0, Unmeasured)
      decreases maxIter - k
    {
      cur := Append(cur, o);
      var run := cur.run.value;
      var fit := Refit(cur.cfg, cur.x, cur.y, cur.model, run.acquisitions, run.settings, o);
      if fit.Err? {
        cur := cur.(model := Retrain(cur.cfg, cur.x, cur.y, cur.model, run.acquisitions));
        return LoopEnd(cur, k, SingularStop);
      }
      cur := cur.(model := fit.value.model, run := Some(run.(suggested := fit.value.suggested)));
      k := k + 1;
      gap := Measured(LastSqDist(cur.x));
    }
    r := LoopEnd(cur, k, if k < maxIter then CloseSamples else IterationBound);
  }

  /** Every row of X from `from` on holds its objective value in Y. */
  predicate EvaluatedFrom(c: Controller, o: Oracles, from: nat)
  {
    forall i :: from <= i < |c.x| && i < |c.y| ==> c.y[i] == o.objective(c.x[i])
  }

  /** The loop keeps X, Y and both traces the same length. */
  lemma {:induction false} LoopKeepsTracesAligned(c: Controller, o: Oracles, maxIter: int, k: nat, gap: Gap)
    requires c.run.Some? && Consistent(c)
    ensures Consistent(Loop(c, o, maxIter, k, gap).ctl)
    decreases if k < maxIter then maxIter - k else 0
  {
    if k < maxIter && Continues(gap, c.run.value.tol) {
      match Pass(c, o)
      case Singular(d) =>
      case Refitted(d) => LoopKeepsTracesAligned(d, o, maxIter, k + 1, Measured(LastSqDist(d.x)));
    }
  }

  /**
   One pass only appends: X, Y and both traces keep their old contents as a
   prefix, and the appended rows of X have their objective values in Y.
   */
  lemma PassAppendsOnly(c: Controller, o: Oracles, from: nat)
    requires c.run.Some? && Consistent(c) && EvaluatedFrom(c, o, from)
    ensures var d := Pass(c, o).ctl;
            && c.x <= d.x && c.y <= d.y
            && c.run.value.means <= d.run.value.means && c.run.value.sds <= d.run.value.sds
            && EvaluatedFrom(d, o, from)
  {
  }

  /**
   The loop only appends: X, Y and both traces start with what they held
   before, and every row the loop appends to X has its objective value in Y.
   */
  lemma {:induction false} LoopAppendsOnly(c: Controller, o: Oracles, maxIter: int, k: nat, gap: Gap, from: nat)
    requires c.run.Some? && Consistent(c) && EvaluatedFrom(c, o, from)
    ensures var r := Loop(c, o, maxIter, k, gap).ctl;
            && c.x <= r.x && c.y <= r.y
            && c.run.value.means <= r.run.value.means && c.run.value.sds <= r.run.value.sds
            && EvaluatedFrom(r, o, from)
    decreases if k < maxIter then maxIter - k else 0
  {
    if k < maxIter && Continues(gap, c.run.value.tol) {
      var p := Pass(c, o);
      PassAppendsOnly(c, o, from);
      if p.Refitted? {
        var d := p.ctl;
        LoopAppendsOnly(d, o, maxIter, k + 1, Measured(LastSqDist(d.x)), from);
      }
    }
  }

  /** A close-samples stop means the last measured distance is within the tolerance. */
  lemma {:induction false} LoopStopsOnlyWhenClose(c: Controller, o: Oracles, maxIter: int, k: nat, gap: Gap)
    requires c.run.Some?
    ensures var r := Loop(c, o, maxIter, k, gap);
            r.exit == CloseSamples ==>
              if r.passes == k then !Continues(gap, c.run.value.tol)
              else |r.ctl.x| >= 1 && !FarApart(LastSqDist(r.ctl.x), c.run.value.tol)
    decreases if k < maxIter then maxIter - k else 0
  {
    if k < maxIter && Continues(gap, c.run.value.tol) {
      match Pass(c, o)
      case Singular(d) =>
      case Refitted(d) =>
        var g := Measured(LastSqDist(d.x));
        LoopStopsOnlyWhenClose(d, o, maxIter, k + 1, g);
        var r := Loop(d, o, maxIter, k + 1, g);
        if r.exit == CloseSamples && r.passes == k + 1 {
          assert r.ctl == d;
        }
    }
  }

  /**
   The suggested batch sits at the end of X, with its objective values at
   the end of Y.
   */
  predicate EndsWithBatch(c: Controller, o: Oracles)
    requires c.run.Some?
  {
    var b := c.run.value.suggested;
    && |b| <= |c.x| && c.x[|c.x| - |b|..] == b
    && |b| <= |c.y| && c.y[|c.y| - |b|..] == Evaluate(o.objective, b)
  }

  /** A pass cut short by a singular refit leaves the batch it appended as the suggested one. */
  lemma PassSingularKeepsBatch(c: Controller, o: Oracles)
    requires c.run.Some?
    ensures Pass(c, o).Singular? ==> EndsWithBatch(Pass(c, o).ctl, o)
  {
  }

  /**
   A singular refit ends the loop before `k` reaches `max_iter` and before
   the suggested batch is replaced: the batch that was being fitted is
   still the suggested one, at the end of X, with its values at the end of Y.
   */
  lemma {:induction false} SingularStopKeepsBatch(c: Controller, o: Oracles, maxIter: int, k: nat, gap: Gap)
    requires c.run.Some?
    ensures var r := Loop(c, o, maxIter, k, gap);
            r.exit == SingularStop ==> r.passes < maxIter && EndsWithBatch(r.ctl, o)
    decreases if k < maxIter then maxIter - k else 0
  {
    if k < maxIter && Continues(gap, c.run.value.tol) {
      PassSingularKeepsBatch(c, o);
      match Pass(c, o)
      case Singular(d) =>
      case Refitted(d) =>
        SingularStopKeepsBatch(d, o, maxIter, k + 1, Measured(LastSqDist(d.x)));
    }
  }

  /** The loop never removes rows from X. */
  lemma {:induction false} LoopGrowsX(c: Controller, o: Oracles, maxIter: int, k: nat, gap: Gap)
    requires c.run.Some?
    ensures |Loop(c, o, maxIter, k, gap).ctl.x| >= |c.x|
    decreases if k < maxIter then maxIter - k else 0
  {
    if k < maxIter && Continues(gap, c.run.value.tol) {
      match Pass(c, o)
      case Singular(d) =>
      case Refitted(d) => LoopGrowsX(d, o, maxIter, k + 1, Measured(LastSqDist(d.x)));
    }
  }

  /**
   While the budget allows and the distance test passes, the loop makes at
   least one pass: the suggested batch reaches X and the counter moves.
   */
  lemma LoopAttemptsAPass(c: Controller, o: Oracles, maxIter: int, k: nat, gap: Gap)
    requires c.run.Some?
    requires k < maxIter && Continues(gap, c.run.value.tol)
    ensures var r := Loop(c, o, maxIter, k, gap);
            |r.ctl.x| > |c.x| && r.ctl.run.value.acquisitions > c.run.value.acquisitions
  {
    match Pass(c, o)
    case Singular(d) =>
    case Refitted(d) => LoopGrowsX(d, o, maxIter, k + 1, Measured(LastSqDist(d.x)));
  }

  /**
   The loop stops as soon as a completed pass leaves the last two rows of X
   within the tolerance: it ends right after that pass, by the close-samples
   test, or by the bound if that pass was the last one allowed.
   */
  lemma CloseRowsEndLoop(c: Controller, o: Oracles, maxIter: int, k: nat, gap: Gap)
    requires c.run.Some? && k < maxIter && Continues(gap, c.run.value.tol)
    requires Pass(c, o).Refitted? && !FarApart(LastSqDist(Pass(c, o).ctl.x), c.run.value.tol)
    ensures Loop(c, o, maxIter, k, gap) ==
              LoopEnd(Pass(c, o).ctl, k + 1, if k + 1 < maxIter then CloseSamples else IterationBound)
  {
  }

  /**
   Once a completed pass has appended a row equal to the one before it, a
   non-negative tolerance ends the loop right there.
   */
  lemma RepeatedRowEndsLoop(c: Controller, o: Oracles, maxIter: int, k: nat, gap: Gap)
    requires c.run.Some? && k < maxIter && Continues(gap, c.run.value.tol) && c.run.value.tol >= 0.0
    requires Pass(c, o).Refitted?
    requires var x := Pass(c, o).ctl.x; |x| >= 2 && x[|x| - 1] == x[|x| - 2]
    ensures Loop(c, o, maxIter, k, gap).ctl == Pass(c, o).ctl
    ensures Loop(c, o, maxIter, k, gap).passes == k + 1
  {
    var x := Pass(c, o).ctl.x;
    RepeatedRowIsClose(x[|x| - 1], c.run.value.tol);
    CloseRowsEndLoop(c, o, maxIter, k, gap);
  }
}
