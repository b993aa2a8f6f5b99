/**
 * One pass over a data loader (run_epoch and run_epoch_fast, run/step_train_network.py, lines 33-176).
 * The forward pass, the loss and backpropagation are PyTorch's; what is modelled is the per-batch
 * accounting, the guard on the optimizer step and the optimizer's n_iters counter.
 */
module EpochRunner {
  import opened Outcomes
  import opened TopOne

  /** The two optimizers the trainer can build, with the hyperparameters it passes them. */
  datatype OptimizerKind =
    | Sgd(lr: real, weightDecay: real, momentum: real, nesterov: bool)
    | Adam(lr: real, weightDecay: real)

  /** What the model and the criterion produce for one batch: the output rows with their targets, and the scalar loss. */
  datatype BatchResult = BatchResult(output: Batch, loss: real)

  /**
   * An optimizer as far as the driver sees it. `nIters` is the n_iters attribute, which does not exist
   * (None) until the first training batch; `steps` counts the backward-and-step pairs applied.
   */
  class Optimizer {
    const kind: OptimizerKind
    var nIters: Option<nat>
    var steps: nat

    constructor (kind: OptimizerKind)
      ensures this.kind == kind && nIters == None && steps == 0
    {
      this.kind := kind;
      nIters := None;
      steps := 0;
    }
  }

  /** One update of n_iters: one more than before, or 1 when the attribute did not exist yet. */
  function NextIters(n: Option<nat>): Option<nat>
  {
    Some(if n.Some? then n.value + 1 else 1)
  }

  /** n_iters after k training batches starting from `start`. */
  function IterationsAfter(start: Option<nat>, k: nat): Option<nat>
    decreases k
  {
    if k == 0 then start else NextIters(IterationsAfter(start, k - 1))
  }

  /** After k > 0 batches n_iters is its old value plus k (counting a missing attribute as 0); after none it is untouched. */
  lemma {:induction false} IterationsCount(start: Option<nat>, k: nat)
    ensures IterationsAfter(start, k) == if k == 0 then start else Some((if start.Some? then start.value else 0) + k)
    decreases k
  {
    if k > 0 {
      IterationsCount(start, k - 1);
    }
  }

  /** On a fresh optimizer, n_iters equals the number of training batches seen, once there was one. */
  lemma FreshIterations(k: nat)
    ensures k > 0 ==> IterationsAfter(None, k) == Some(k)
    ensures k == 0 ==> IterationsAfter(None, k) == None
  {
    IterationsCount(None, k);
  }

  /** Running a batches and then b more batches is the same as running a + b batches. */
  lemma {:induction false} IterationsAdd(start: Option<nat>, a: nat, b: nat)
    ensures IterationsAfter(IterationsAfter(start, a), b) == IterationsAfter(start, a + b)
    decreases b
  {
    if b > 0 {
      IterationsAdd(start, a, b - 1);
    }
  }

  /**
   * Whether backpropagation and the optimizer step run for a training batch: always in run_epoch,
   * and only for a loss above zero in run_epoch_fast (`skipNonPositive`).
   */
  predicate StepTaken(b: BatchResult, skipNonPositive: bool)
  {
    !skipNonPositive || b.loss > 0.0
  }

  /** The number of optimizer steps over the first k of a sequence of training batches. */
  function StepsBefore(batches: seq<BatchResult>, k: nat, skipNonPositive: bool): nat
    requires k <= |batches|
    decreases k
  {
    if k == 0 then 0
    else StepsBefore(batches, k - 1, skipNonPositive) + (if StepTaken(batches[k - 1], skipNonPositive) then 1 else 0)
  }

  /** The number of optimizer steps over a sequence of training batches. */
  function StepCount(batches: seq<BatchResult>, skipNonPositive: bool): nat
  {
    StepsBefore(batches, |batches|, skipNonPositive)
  }

  /**
   * The standard runner steps on every batch; the fast runner steps on exactly the batches with a
   * positive loss, so it never steps when no loss is positive and always when every loss is.
   */
  lemma {:induction false} StepsBeforeBounds(batches: seq<BatchResult>, k: nat, skipNonPositive: bool)
    requires k <= |batches|
    ensures StepsBefore(batches, k, skipNonPositive) <= k
    ensures !skipNonPositive ==> StepsBefore(batches, k, skipNonPositive) == k
    ensures skipNonPositive && (forall i :: 0 <= i < k ==> batches[i].loss <= 0.0) ==>
              StepsBefore(batches, k, skipNonPositive) == 0
    ensures (forall i :: 0 <= i < k ==> batches[i].loss > 0.0) ==>
              StepsBefore(batches, k, skipNonPositive) == k
    decreases k
  {
    if k > 0 {
      StepsBeforeBounds(batches, k - 1, skipNonPositive);
    }
  }

  lemma StepCountBounds(batches: seq<BatchResult>, skipNonPositive: bool)
    ensures StepCount(batches, skipNonPositive) <= |batches|
    ensures !skipNonPositive ==> StepCount(batches, skipNonPositive) == |batches|
    ensures skipNonPositive && (forall i :: 0 <= i < |batches| ==> batches[i].loss <= 0.0) ==>
              StepCount(batches, skipNonPositive) == 0
    ensures (forall i :: 0 <= i < |batches| ==> batches[i].loss > 0.0) ==>
              StepCount(batches, skipNonPositive) == |batches|
  {
    StepsBeforeBounds(batches, |batches|, skipNonPositive);
  }

  /**
   * One batch: in training mode the optimizer steps unless the guard skips the batch, and n_iters
   * advances; the batch's loss and top-1 error are what the meters receive.
   */
  method RunBatch(opt: Optimizer, b: BatchResult, train: bool, skipNonPositive: bool) returns (loss: real, error: real)
    requires WellFormedBatch(b.output)
    modifies opt
    ensures loss == b.loss && error == BatchError(b.output)
    ensures train ==> opt.nIters == NextIters(old(opt.nIters))
    ensures train ==> opt.steps == old(opt.steps) + if StepTaken(b, skipNonPositive) then 1 else 0
    ensures !train ==> opt.nIters == old(opt.nIters) && opt.steps == old(opt.steps)
  {
    if train {
      if StepTaken(b, skipNonPositive) {
        opt.steps := opt.steps + 1;
      }
      opt.nIters := NextIters(opt.nIters);
    }
    loss, error := b.loss, BatchError(b.output);
  }

  /** What `f` gives for each of the first k elements of `xs`, in order. */
  function MapBefore<T, U>(xs: seq<T>, f: T --> U, k: nat): seq<U>
    requires k <= |xs| && forall i :: 0 <= i < k ==> f.requires(xs[i])
    decreases k
  {
    if k == 0 then [] else MapBefore(xs, f, k - 1) + [f(xs[k - 1])]
  }

  lemma {:induction false} MapBeforeAt<T, U>(xs: seq<T>, f: T --> U, k: nat)
    requires k <= |xs| && forall i :: 0 <= i < k ==> f.requires(xs[i])
    ensures |MapBefore(xs, f, k)| == k
    ensures forall i :: 0 <= i < k ==> MapBefore(xs, f, k)[i] == f(xs[i])
    decreases k
  {
    if k > 0 {
      MapBeforeAt(xs, f, k - 1);
    }
  }

  /** What the loss meter receives for a batch. */
  function LossOf(b: BatchResult): real
  {
    b.loss
  }

  /** What the error meter receives for a batch. */
  function ErrorOf(b: BatchResult): real
    requires WellFormedBatch(b.output)
  {
    BatchError(b.output)
  }

  /**
   * One epoch over `batches`. In training mode every batch advances n_iters, and a batch takes an
   * optimizer step unless the fast runner's guard skips it. In evaluation mode the optimizer is left
   * alone. Every batch's loss and top-1 error are returned, in order: they are what the loss and error
   * meters are fed.
   */
  method RunEpoch(opt: Optimizer, batches: seq<BatchResult>, train: bool, skipNonPositive: bool)
    returns (losses: seq<real>, errors: seq<real>)
    requires forall i :: 0 <= i < |batches| ==> WellFormedBatch(batches[i].output)
    modifies opt
    ensures |losses| == |batches| && |errors| == |batches|
    ensures forall i :: 0 <= i < |batches| ==> losses[i] == batches[i].loss
    ensures forall i :: 0 <= i < |batches| ==> errors[i] == BatchError(batches[i].output)
    ensures train ==> opt.nIters == IterationsAfter(old(opt.nIters), |batches|)
    ensures train ==> opt.steps == old(opt.steps) + StepCount(batches, skipNonPositive)
    ensures !train ==> opt.nIters == old(opt.nIters) && opt.steps == old(opt.steps)
  {
    losses, errors := [], [];
    for i := 0 to |batches|
      invariant losses == MapBefore(batches, LossOf, i) && errors == MapBefore(batches, ErrorOf, i)
      invariant train ==> opt.nIters == IterationsAfter(old(opt.nIters), i)
      invariant train ==> opt.steps == old(opt.steps) + StepsBefore(batches, i, skipNonPositive)
      invariant !train ==> opt.nIters == old(opt.nIters) && opt.steps == old(opt.steps)
    {
      var loss, error := RunBatch(opt, batches[i], train, skipNonPositive);
      losses := losses + [loss];
      errors := errors + [error];
    }
    MapBeforeAt(batches, LossOf, |batches|);
    MapBeforeAt(batches, ErrorOf, |batches|);
  }
}
