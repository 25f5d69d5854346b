/**
 The collaborators the optimisation controller talks to but does not own:
 the objective function, the Gaussian-process surrogate (GPy) and the
 acquisition optimiser. Each is an oracle: a total function whose value the
 controller consumes without knowing how it is computed.
 */
module Collaborators {
  import opened Wrappers

  /** One row of the design matrix X: one coordinate per input dimension. */
  type Point = seq<real>

  /** The rows proposed by the acquisition optimiser for one loop pass; never empty. */
  type Batch = b: seq<Point> | |b| > 0 witness [[]]

  /** What the surrogate predicts at one row: the mean and the standard
      deviation (the square root of GPy's variance is taken by the oracle). */
  datatype Prediction = Prediction(mean: real, sd: real)

  /**
   What the controller has told the surrogate: the training rows and targets
   it was last given, whether the targets went through the normalising branch,
   which approximation it uses, and how many hyperparameter searches it has
   run since it was built.
   */
  datatype Surrogate = Surrogate(
    x: seq<Point>,
    y: seq<real>,
    normalized: bool,
    sparse: bool,
    inducing: Option<nat>,
    searches: nat)

  /** The settings the batch acquisition optimiser reads from the controller. */
  datatype AcquisitionSettings = AcquisitionSettings(
    batchSize: nat,
    optimizeMethod: string,
    batchMethod: string,
    restarts: nat)

  /**
   The external oracles:
   - objective: the function being minimised;
   - predict: the surrogate's prediction at a row;
   - singular: whether fitting this surrogate (or choosing the next batch
     from it) hits a singular linear system;
   - acquire: the next batch proposed from a fitted surrogate.
   */
  datatype Oracles = Oracles(
    objective: Point -> real,
    predict: (Surrogate, Point) -> Prediction,
    singular: Surrogate -> bool,
    acquire: (Surrogate, AcquisitionSettings) -> Batch)

  /** The objective values of a batch of rows, one per row, in order. */
  function Evaluate(f: Point -> real, rows: seq<Point>): (vals: seq<real>)
    ensures |vals| == |rows|
    ensures forall i :: 0 <= i < |rows| ==> vals[i] == f(rows[i])
  {
    seq(|rows|, i requires 0 <= i < |rows| => f(rows[i]))
  }

  /** The predicted means of a surrogate at a batch of rows. */
  function Means(o: Oracles, m: Surrogate, rows: seq<Point>): (ms: seq<real>)
    ensures |ms| == |rows|
    ensures forall i :: 0 <= i < |rows| ==> ms[i] == o.predict(m, rows[i]).mean
  {
    seq(|rows|, i requires 0 <= i < |rows| => o.predict(m, rows[i]).mean)
  }

  /** The predicted standard deviations of a surrogate at a batch of rows. */
  function Deviations(o: Oracles, m: Surrogate, rows: seq<Point>): (ss: seq<real>)
    ensures |ss| == |rows|
    ensures forall i :: 0 <= i < |rows| ==> ss[i] == o.predict(m, rows[i]).sd
  {
    seq(|rows|, i requires 0 <= i < |rows| => o.predict(m, rows[i]).sd)
  }

  /** A surrogate newly built on a dataset, with no hyperparameter search yet. */
  function Fresh(x: seq<Point>, y: seq<real>, sparse: bool, inducing: Option<nat>): Surrogate
  {
    Surrogate(x, y, false, sparse, inducing, 0)
  }
}
