/**
 The public operations of the `BO` optimiser (GPyOpt/core/bo.py):
 `start_optimization`, `continue_optimization`, and the switches between
 the standard and the sparse Gaussian-process surrogate.
 */
module BO {
  import opened Wrappers
  import opened Collaborators
  import opened Distance
  import opened Cadence
  import opened ControllerState
  import opened OptimizationLoop
  import opened Best

  /** The stop tolerance `stop_criteria` defaults to, `1e-6`. */
  const DefaultTolerance: real := 0.000001

  /** The number of acquisition restarts a `None` argument stands for. */
  const DefaultRestarts: nat := 10

  /**
   The arguments of `start_optimization`; `None` stands for an argument
   passed as `None`.
   */
  datatype StartArgs = StartArgs(
    maxIter: Option<int>,
    batchSize: nat,
    optimizeMethod: string,
    batchMethod: string,
    restarts: Option<nat>,
    tol: real)

  /** `start_optimization(max_iter)` with every other argument left at its default. */
  function DefaultArgs(maxIter: Option<int>): StartArgs
  {
    StartArgs(maxIter, 1, "random", "predmean", None, DefaultTolerance)
  }

  /** The iteration budget: `None` means no iteration. */
  function Budget(args: StartArgs): int
  {
    match args.maxIter
    case None => 0
    case Some(n) => n
  }

  /** The acquisition settings stored by `start_optimization`. */
  function SettingsOf(args: StartArgs): AcquisitionSettings
  {
    var restarts := match args.restarts
      case None => DefaultRestarts
      case Some(n) => n;
    AcquisitionSettings(args.batchSize, args.optimizeMethod, args.batchMethod, restarts)
  }

  /**
   The part of `start_optimization` before the loop: store the settings,
   reset the acquisition counter, refit the surrogate on X and Y, and seed
   both traces with the refitted surrogate's predictions at X. A singular
   refit here is not caught and ends the call.
   */
  function Initialize(c: Controller, o: Oracles, args: StartArgs): (r: Result<Controller, Fault>)
    requires Consistent(c)
    ensures r.Err? <==> Refit(c.cfg, c.x, c.y, c.model, 0, SettingsOf(args), o).Err?
    ensures r.Err? ==> r.error == SingularRefit
    ensures r.Ok? ==> && r.value.run.Some? && Consistent(r.value)
                      && r.value.cfg == c.cfg && r.value.x == c.x && r.value.y == c.y
                      && r.value.sparse == c.sparse && r.value.inducing == c.inducing
    ensures r.Ok? ==> var run := r.value.run.value;
                      && run.acquisitions == 0 && run.tol == args.tol
                      && run.settings.batchSize == args.batchSize
                      && run.settings.optimizeMethod == args.optimizeMethod
                      && run.settings.batchMethod == args.batchMethod
                      && (args.restarts.None? ==> run.settings.restarts == 10)
                      && (args.restarts.Some? ==> run.settings.restarts == args.restarts.value)
    ensures r.Ok? ==> && r.value.model.x == c.x && r.value.model.y == c.y
                      && r.value.model.searches == c.model.searches + 1
                      && r.value.run.value.suggested == o.acquire(r.value.model, SettingsOf(args))
    ensures r.Ok? ==> forall i :: 0 <= i < |c.x| ==>
                        && r.value.run.value.means[i] == o.predict(r.value.model, c.x[i]).mean
                        && r.value.run.value.sds[i] == o.predict(r.value.model, c.x[i]).sd
  {
    var settings := SettingsOf(args);
    match Refit(c.cfg, c.x, c.y, c.model, 0, settings, o)
    case Err(e) => Err(e)
    case Ok(fit) =>
      var run := Run(0, settings, args.tol, Means(o, fit.model, c.x), Deviations(o, fit.model, c.x), fit.suggested);
      Ok(c.(model := fit.model, run := Some(run)))
  }

  /** The closing message of `continue_optimization`. */
  datatype Verdict = MaxIterationsReached | CloseSamplesCollected

  /**
   What `continue_optimization` reports: the completed passes, why the loop
   ended, the closing message, and the arg-min row of Y with its value.
   */
  datatype Report = Report(passes: nat, exit: Exit, verdict: Verdict, best: nat, xOpt: Point, fxOpt: real)

  /** The optimiser after a call, and what the call reported. */
  datatype Outcome = Outcome(ctl: Controller, report: Result<Report, Fault>)

  /**
   `continue_optimization(max_iter)`: nothing happens unless the
   optimisation was started; otherwise run the loop, choose the message by
   `k == max_iter`, and report the row of X where Y is least. An empty Y
   has no arg-min.
   */
  function Continue(c: Controller, o: Oracles, maxIter: int): (r: Outcome)
    requires Consistent(c)
    ensures c.run.None? <==> r.report == Err(NotStarted)
    ensures c.run.None? ==> r.ctl == c
    ensures c.run.Some? ==> r.ctl == Loop(c, o, maxIter, 0, Unmeasured).ctl
    ensures Consistent(r.ctl)
    ensures r.report == Err(EmptyData) <==> r.ctl.run.Some? && |r.ctl.y| == 0
    ensures r.report.Ok? ==> var rep := r.report.value;
              && (rep.verdict == MaxIterationsReached <==> rep.passes == maxIter)
              && (maxIter >= 0 ==> rep.passes <= maxIter)
              && (rep.exit == IterationBound <==> rep.passes >= maxIter)
              && r.ctl.run.Some? && c.run.Some?
              && r.ctl.run.value.acquisitions ==
                   c.run.value.acquisitions + rep.passes + (if rep.exit == SingularStop then 1 else 0)
    ensures r.report.Ok? ==> var rep := r.report.value;
              && rep.best < |r.ctl.x| && rep.xOpt == r.ctl.x[rep.best] && rep.fxOpt == r.ctl.y[rep.best]
              && (forall j :: 0 <= j < |r.ctl.y| ==> rep.fxOpt <= r.ctl.y[j])
              && (forall j :: 0 <= j < rep.best ==> rep.fxOpt < r.ctl.y[j])
  {
    if c.run.None? then Outcome(c, Err(NotStarted))
    else
      var end := Loop(c, o, maxIter, 0, Unmeasured);
      LoopKeepsTracesAligned(c, o, maxIter, 0, Unmeasured);
      var d := end.ctl;
      if |d.y| == 0 then Outcome(d, Err(EmptyData))
      else
        var verdict := if end.passes == maxIter then MaxIterationsReached else CloseSamplesCollected;
        var i := ArgMin(d.y);
        Outcome(d, Ok(Report(end.passes, end.exit, verdict, i, d.x[i], d.y[i])))
  }

  /**
   `start_optimization`: initialise, then continue with the budget
   (`None` meaning zero iterations). A singular initial refit is raised to
   the caller, so no outcome is produced.
   */
  function Start(c: Controller, o: Oracles, args: StartArgs): (r: Result<Outcome, Fault>)
    requires Consistent(c)
    ensures r.Err? <==> Initialize(c, o, args).Err?
    ensures r.Err? ==> r.error == SingularRefit
    ensures r.Ok? ==> && r.value.ctl.run.Some? && r.value.report != Err(NotStarted)
                      && r.value == Continue(Initialize(c, o, args).value, o, Budget(args))
    ensures r.Ok? && args.maxIter.None? && r.value.report.Ok? ==>
              r.value.report.value.passes == 0 && r.value.report.value.verdict == MaxIterationsReached
  {
    match Initialize(c, o, args)
    case Err(e) => Err(e)
    case Ok(d) => Ok(Continue(d, o, Budget(args)))
  }

  /**
   `change_to_sparseGP(num_inducing)`: refused when the surrogate is
   already sparse; otherwise record the inducing-point count, switch to
   sparse, and rebuild the surrogate on X and Y.
   */
  function ToSparse(c: Controller, inducing: nat): (r: Result<Controller, Fault>)
    ensures r.Err? <==> c.sparse
    ensures r.Err? ==> r.error == AlreadySparse
    ensures r.Ok? ==> && r.value.sparse && r.value.inducing == Some(inducing)
                      && r.value.cfg == c.cfg && r.value.x == c.x && r.value.y == c.y && r.value.run == c.run
                      && r.value.model == Fresh(c.x, c.y, true, Some(inducing))
  {
    if c.sparse then Err(AlreadySparse)
    else
      var inducingNow := Some(inducing);
      Ok(c.(inducing := inducingNow, sparse := true, model := Fresh(c.x, c.y, true, inducingNow)))
  }

  /**
   `change_to_standardGP()`: refused when the surrogate is already
   standard; otherwise switch to standard and rebuild the surrogate on X
   and Y. The recorded inducing-point count is kept.
   */
  function ToStandard(c: Controller): (r: Result<Controller, Fault>)
    ensures r.Err? <==> !c.sparse
    ensures r.Err? ==> r.error == AlreadyStandard
    ensures r.Ok? ==> && !r.value.sparse && r.value.inducing == c.inducing
                      && r.value.cfg == c.cfg && r.value.x == c.x && r.value.y == c.y && r.value.run == c.run
                      && r.value.model == Fresh(c.x, c.y, false, c.inducing)
  {
    if !c.sparse then Err(AlreadyStandard)
    else Ok(c.(sparse := false, model := Fresh(c.x, c.y, false, c.inducing)))
  }

  /**
   Starting with every default: one row per batch, ten acquisition
   restarts, tolerance `1e-6`, and a `None` budget that runs no pass and
   reports the maximum number of iterations as reached.
   */
  lemma DefaultStart(c: Controller, o: Oracles)
    requires Consistent(c)
    ensures var r := Start(c, o, DefaultArgs(None));
            r.Ok? ==> && r.value.ctl.run.Some?
                      && r.value.ctl.run.value.settings == AcquisitionSettings(1, "random", "predmean", 10)
                      && r.value.ctl.run.value.tol == 0.000001
                      && r.value.ctl.run.value.acquisitions == 0
                      && r.value.ctl.x == c.x && r.value.ctl.y == c.y
                      && (r.value.report.Ok? ==> && r.value.report.value.passes == 0
                                                 && r.value.report.value.verdict == MaxIterationsReached)
  {
  }

  /**
   Because `start_optimization` resets the acquisition counter and the
   traces, the counter after a start is the number of passes it made, and a
   start ends the same whatever an earlier start left behind.
   */
  lemma StartResetsCounter(c: Controller, o: Oracles, args: StartArgs, prior: Option<Run>)
    requires Consistent(c) && Consistent(c.(run := prior))
    ensures var r := Start(c, o, args);
            r.Ok? && r.value.report.Ok? ==>
              var rep := r.value.report.value;
              r.value.ctl.run.value.acquisitions == rep.passes + (if rep.exit == SingularStop then 1 else 0)
    ensures Start(c.(run := prior), o, args) == Start(c, o, args)
  {
  }

  /**
   The constructor starts nothing: continuing a newly built optimiser
   reports that the optimisation was not started and changes nothing.
   */
  lemma ContinueBeforeStart(cfg: Config, x: seq<Point>, y: seq<real>, sparse: bool, o: Oracles, maxIter: int)
    requires |x| == |y|
    ensures var c := NewController(cfg, x, y, sparse);
            Continue(c, o, maxIter) == Outcome(c, Err(NotStarted))
  {
  }

  /**
   A refit failure during the loop keeps the sample it was fitting in X and
   its value in Y, and the closing message is then the close-samples one,
   since fewer than `max_iter` passes completed.
   */
  lemma ContinueSingularStop(c: Controller, o: Oracles, maxIter: int)
    requires Consistent(c) && c.run.Some?
    ensures var r := Continue(c, o, maxIter);
            r.report.Ok? && r.report.value.exit == SingularStop ==>
              r.report.value.verdict == CloseSamplesCollected && EndsWithBatch(r.ctl, o)
  {
    SingularStopKeepsBatch(c, o, maxIter, 0, Unmeasured);
  }

  /**
   With a positive budget the loop always makes a pass, because the
   distance starts above the tolerance; so an empty Y can only be reported
   when the optimiser started with no data and no budget, and then the
   call changed nothing.
   */
  lemma ContinueEmptyData(c: Controller, o: Oracles, maxIter: int)
    requires Consistent(c) && c.run.Some?
    ensures var r := Continue(c, o, maxIter);
            && (maxIter > 0 ==> |r.ctl.x| > |c.x| && r.ctl.run.value.acquisitions > c.run.value.acquisitions)
            && (r.report == Err(EmptyData) <==> maxIter <= 0 && |c.y| == 0)
            && (r.report == Err(EmptyData) ==> r.ctl == c)
  {
    if maxIter > 0 {
      LoopAttemptsAPass(c, o, maxIter, 0, Unmeasured);
    } else {
      assert Loop(c, o, maxIter, 0, Unmeasured) == LoopEnd(c, 0, IterationBound);
    }
  }

  /** Switching to the sparse surrogate and back restores the optimiser, except that the inducing-point count stays recorded and the surrogate is rebuilt. */
  lemma SparseRoundTrip(c: Controller, inducing: nat)
    requires !c.sparse
    ensures ToSparse(c, inducing).Ok?
    ensures ToStandard(ToSparse(c, inducing).value) ==
              Ok(c.(inducing := Some(inducing), model := Fresh(c.x, c.y, false, Some(inducing))))
  {
  }

  /** A switch to the mode already in use is refused, so a repeated switch always fails. */
  lemma RepeatedSwitchRefused(c: Controller, inducing: nat, again: nat)
    ensures ToSparse(c, inducing).Ok? ==> ToSparse(ToSparse(c, inducing).value, again) == Err(AlreadySparse)
    ensures ToStandard(c).Ok? ==> ToStandard(ToStandard(c).value) == Err(AlreadyStandard)
  {
  }
}
