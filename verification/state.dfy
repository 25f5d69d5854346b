/**
 The state of the `BO` optimiser object (GPyOpt/core/bo.py) and the two
 steps of one loop pass: appending the suggested batch, and refitting the
 surrogate (`_update_model`).
 */
module ControllerState {
  import opened Wrappers
  import opened Collaborators
  import opened Cadence

  /** The settings fixed by the constructor. */
  datatype Config = Config(
    inputDim: nat,
    interval: NonZero,
    hyperRestarts: nat,
    dataInit: nat,
    normalize: bool,
    verbose: bool)

  /**
   The attributes that exist once `start_optimization` has run: the
   acquisition counter, the acquisition settings, the stop tolerance, the
   predicted mean and deviation traces, and the suggested next batch.
   */
  datatype Run = Run(
    acquisitions: nat,
    settings: AcquisitionSettings,
    tol: real,
    means: seq<real>,
    sds: seq<real>,
    suggested: Batch)

  /**
   The optimiser object: configuration, dataset, surrogate, surrogate mode,
   and the run attributes (absent until the optimisation has been started).
   */
  datatype Controller = Controller(
    cfg: Config,
    x: seq<Point>,
    y: seq<real>,
    model: Surrogate,
    sparse: bool,
    inducing: Option<nat>,
    run: Option<Run>)

  /** Failures the optimiser reports instead of a result. */
  datatype Fault =
    | NotStarted
    | SingularRefit
    | AlreadySparse
    | AlreadyStandard
    | EmptyData

  /** X and Y pair up row by row, and once started so do both prediction traces. */
  predicate Consistent(c: Controller)
  {
    && |c.x| == |c.y|
    && (c.run.Some? ==> |c.run.value.means| == |c.x| && |c.run.value.sds| == |c.x|)
  }

  /**
   The constructor's defaults. The dimension is an explicit input: the
   source reads it from `self.bounds`, which the constructor never assigns.
   */
  function NewConfig(inputDim: nat, interval: NonZero, hyperRestarts: nat,
                     dataInit: Option<nat>, normalize: bool, verbose: bool): (c: Config)
    ensures dataInit.None? ==> c.dataInit == 2 * inputDim
    ensures dataInit.Some? ==> c.dataInit == dataInit.value
    ensures c.inputDim == inputDim && c.interval == interval && c.hyperRestarts == hyperRestarts
    ensures c.normalize == normalize && c.verbose == verbose
  {
    var init := match dataInit
      case None => 2 * inputDim
      case Some(n) => n;
    Config(inputDim, interval, hyperRestarts, init, normalize, verbose)
  }

  /**
   An optimiser holding a seed dataset and a surrogate built on it, not yet
   started. Generating the seed and building the surrogate belong to the
   subclasses that call this constructor.
   */
  function NewController(cfg: Config, x: seq<Point>, y: seq<real>, sparse: bool): (c: Controller)
    requires |x| == |y|
    ensures Consistent(c) && c.run.None?
    ensures c.x == x && c.y == y && c.sparse == sparse
    ensures c.model.x == x && c.model.y == y && c.model.sparse == sparse && c.model.searches == 0
  {
    Controller(cfg, x, y, Fresh(x, y, sparse, None), sparse, None, None)
  }

  /** The surrogate refitted on new data, and the batch it suggests next. */
  datatype Fitted = Fitted(model: Surrogate, suggested: Batch)

  /**
   The first two steps of `_update_model`: hand X and Y to the surrogate
   (marking the normalising branch), then re-optimise its hyperparameters
   when Python's `num_acquisitions % model_optimize_interval` is zero.
   */
  function Retrain(cfg: Config, x: seq<Point>, y: seq<real>, model: Surrogate, acquisitions: nat): (m: Surrogate)
    ensures m.x == x && m.y == y && m.normalized == cfg.normalize
    ensures m.sparse == model.sparse && m.inducing == model.inducing
  {
    var fitted := model.(x := x, y := y, normalized := cfg.normalize);
    if PyMod(acquisitions, cfg.interval) == 0 then fitted.(searches := fitted.searches + 1) else fitted
  }

  /**
   `_update_model`: retrain the surrogate, then ask for the next batch. A
   singular linear system at any of these steps is a failure.
   */
  function Refit(cfg: Config, x: seq<Point>, y: seq<real>, model: Surrogate,
                 acquisitions: nat, settings: AcquisitionSettings, o: Oracles): (r: Result<Fitted, Fault>)
    ensures r.Err? <==> o.singular(Retrain(cfg, x, y, model, acquisitions))
    ensures r.Err? ==> r.error == SingularRefit
    ensures r.Ok? ==> && r.value.model.x == x && r.value.model.y == y
                      && r.value.model.normalized == cfg.normalize
                      && r.value.model.sparse == model.sparse
                      && r.value.model.inducing == model.inducing
                      && !o.singular(r.value.model)
                      && r.value.suggested == o.acquire(r.value.model, settings)
    ensures r.Ok? ==> r.value.model.searches ==
                        model.searches + (if PyMod(acquisitions, cfg.interval) == 0 then 1 else 0)
  {
    var tuned := Retrain(cfg, x, y, model, acquisitions);
    if o.singular(tuned) then Err(SingularRefit)
    else Ok(Fitted(tuned, o.acquire(tuned, settings)))
  }

  /**
   A successful refit runs one hyperparameter search exactly when the
   counter is due, every `|model_optimize_interval|`-th value counted from
   zero, and none otherwise.
   */
  lemma RefitSearchesOnMultiples(cfg: Config, x: seq<Point>, y: seq<real>, model: Surrogate,
                                 acquisitions: nat, settings: AcquisitionSettings, o: Oracles)
    ensures var r := Refit(cfg, x, y, model, acquisitions, settings, o);
            r.Ok? ==> && (Due(acquisitions, cfg.interval) ==> r.value.model.searches == model.searches + 1)
                      && (!Due(acquisitions, cfg.interval) ==> r.value.model.searches == model.searches)
  {
    DueIsMultiple(acquisitions, cfg.interval);
  }

  /**
   The first half of a loop pass: append the suggested batch to X, its
   objective values to Y, and the current surrogate's predictions at it to
   the two traces, and count one acquisition.
   */
  function Append(c: Controller, o: Oracles): (r: Controller)
    requires c.run.Some?
    ensures r.run.Some?
    ensures r.cfg == c.cfg && r.model == c.model && r.sparse == c.sparse && r.inducing == c.inducing
    ensures r.x == c.x + c.run.value.suggested
    ensures r.y == c.y + Evaluate(o.objective, c.run.value.suggested)
    ensures r.run.value.acquisitions == c.run.value.acquisitions + 1
    ensures r.run.value.means == c.run.value.means + Means(o, c.model, c.run.value.suggested)
    ensures r.run.value.sds == c.run.value.sds + Deviations(o, c.model, c.run.value.suggested)
    ensures r.run.value.settings == c.run.value.settings && r.run.value.tol == c.run.value.tol
    ensures r.run.value.suggested == c.run.value.suggested
    ensures Consistent(c) ==> Consistent(r)
  {
    var run := c.run.value;
    var batch := run.suggested;
    c.(x := c.x + batch,
       y := c.y + Evaluate(o.objective, batch),
       run := Some(run.(acquisitions := run.acquisitions + 1,
                        means := run.means + Means(o, c.model, batch),
                        sds := run.sds + Deviations(o, c.model, batch))))
  }

  /** How a loop pass ended: refitted, or stopped by a singular refit. */
  datatype PassEnd = Refitted(ctl: Controller) | Singular(ctl: Controller)

  /**
   One pass of the loop body: append, then refit. On a singular refit the
   appended rows and predictions stay, the surrogate has already been handed
   the new X and Y, and the suggested batch is the one from before the pass.
   */
  function Pass(c: Controller, o: Oracles): (r: PassEnd)
    requires c.run.Some?
    ensures r.ctl.run.Some? && r.ctl.cfg == c.cfg
    ensures r.ctl.sparse == c.sparse && r.ctl.inducing == c.inducing
    ensures r.ctl.x == c.x + c.run.value.suggested
    ensures r.ctl.y == c.y + Evaluate(o.objective, c.run.value.suggested)
    ensures r.ctl.run.value.acquisitions == c.run.value.acquisitions + 1
    ensures r.ctl.run.value.means == c.run.value.means + Means(o, c.model, c.run.value.suggested)
    ensures r.ctl.run.value.sds == c.run.value.sds + Deviations(o, c.model, c.run.value.suggested)
    ensures r.ctl.run.value.settings == c.run.value.settings && r.ctl.run.value.tol == c.run.value.tol
    ensures r.Singular? ==> && r.ctl.model.x == r.ctl.x && r.ctl.model.y == r.ctl.y
                            && r.ctl.model.sparse == c.model.sparse && o.singular(r.ctl.model)
                            && r.ctl.run.value.suggested == c.run.value.suggested
    ensures r.Refitted? ==> && r.ctl.model.x == r.ctl.x && r.ctl.model.y == r.ctl.y
                            && !o.singular(r.ctl.model)
                            && r.ctl.run.value.suggested == o.acquire(r.ctl.model, c.run.value.settings)
    ensures r.Refitted? ==>
              r.ctl.model.searches == c.model.searches
                + (if PyMod(c.run.value.acquisitions + 1, c.cfg.interval) == 0 then 1 else 0)
    ensures r.Singular? <==> Refit(c.cfg, r.ctl.x, r.ctl.y, c.model, c.run.value.acquisitions + 1,
                                   c.run.value.settings, o).Err?
    ensures Consistent(c) ==> Consistent(r.ctl)
  {
    var appended := Append(c, o);
    var run := appended.run.value;
    match Refit(appended.cfg, appended.x, appended.y, appended.model, run.acquisitions, run.settings, o)
    case Err(_) => Singular(appended.(model := Retrain(appended.cfg, appended.x, appended.y, appended.model, run.acquisitions)))
    case Ok(fit) => Refitted(appended.(model := fit.model, run := Some(run.(suggested := fit.suggested))))
  }
}
