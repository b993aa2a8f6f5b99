/**
 * The training driver's bookkeeping (train and calibrate, run/step_train_network.py, lines 179-336):
 * configuration choices, warmup, the best-error checkpoint rule, the scheduler steps and the final save.
 * Saves, audit lines and passes over the data are events of a log; the validation error of each main
 * epoch is an input, as is what the model produces on each training batch.
 */
module Trainer {
  import opened Outcomes
  import opened TopOne
  import opened EpochRunner

  /** What the save path is before training: absent (it is then created), a directory, or something else. */
  datatype DirState = Missing | Directory | NotADirectory

  datatype TrainError =
    | SaveDirNotADirectory
    | MissingKey(key: string)
    | MissingCheckpoint(file: string)

  datatype Outcome = Completed | Failed(error: TrainError)

  /**
   * The training parameters the driver reads. Keys the source tests for presence (`optimizer`,
   * `lr_scheduler`) or reads only inside the epoch loop (`run_epoch`) are optional; the others
   * are taken to be present.
   */
  datatype Config = Config(
    nEpochs: int,
    lr: real,
    wd: real,
    momentum: real,
    optimizer: Option<string>,
    lrScheduler: Option<string>,
    lossFn: string,
    warmup: int,
    weightInit: string,
    runEpoch: Option<string>)

  datatype WeightInit = Xavier | Kaiming | DefaultInit

  datatype LossFn = MarginLoss | CrossEntropy

  datatype Scheduler =
    | ReduceOnPlateau(patience: nat)
    | MultiStep(milestones: seq<real>, gamma: real)

  datatype Setup = Setup(init: WeightInit, loss: LossFn, optimizer: OptimizerKind, scheduler: Scheduler)

  /** The weight_init choice: Xavier and Kaiming by name, the model's own initialisation for any other name. */
  function ChooseInit(name: string): (w: WeightInit)
    ensures w == Xavier <==> name == "xavier"
    ensures w == Kaiming <==> name == "kaiming"
    ensures w == DefaultInit <==> name != "xavier" && name != "kaiming"
  {
    if name == "xavier" then Xavier else if name == "kaiming" then Kaiming else DefaultInit
  }

  /** The loss_fn choice: the margin loss by name, cross-entropy for any other name. */
  function ChooseLoss(name: string): (l: LossFn)
    ensures l == MarginLoss <==> name == "MarginLoss"
  {
    if name == "MarginLoss" then MarginLoss else CrossEntropy
  }

  /** Adam when asked for by name; otherwise SGD with Nesterov momentum. */
  function ChooseOptimizer(cfg: Config): (k: OptimizerKind)
    ensures k.Adam? <==> cfg.optimizer == Some("Adam")
    ensures k.lr == cfg.lr && k.weightDecay == cfg.wd
    ensures k.Sgd? ==> k.momentum == cfg.momentum && k.nesterov
  {
    if cfg.optimizer == Some("Adam") then Adam(cfg.lr, cfg.wd)
    else Sgd(cfg.lr, cfg.wd, cfg.momentum, true)
  }

  predicate Plateau(cfg: Config)
  {
    cfg.lrScheduler == Some("ReduceLROnPlateau")
  }

  /**
   * The learning-rate schedule. Only the plateau test looks for the key first; every other branch
   * reads it directly, so a configuration without `lr_scheduler` fails with a missing key.
   */
  function ChooseScheduler(cfg: Config): (r: Result<Scheduler, TrainError>)
    ensures r.Err? <==> cfg.lrScheduler.None?
    ensures r.Err? ==> r.error == MissingKey("lr_scheduler")
    ensures r.Ok? ==> (r.value.ReduceOnPlateau? <==> Plateau(cfg))
  {
    if Plateau(cfg) then Ok(ReduceOnPlateau(20))
    else if cfg.lrScheduler.None? then Err(MissingKey("lr_scheduler"))
    else if cfg.lrScheduler.value == "MultiStepLR_150_225_300" then Ok(MultiStep([150.0, 225.0, 300.0], 0.1))
    else if cfg.lrScheduler.value == "MultiStepLR_60_120_160_200" then Ok(MultiStep([60.0, 120.0, 160.0, 200.0], 0.2))
    else Ok(MultiStep([0.5 * cfg.nEpochs as real, 0.75 * cfg.nEpochs as real], 0.1))
  }

  /** The choices made before training: they fail exactly when the scheduler choice does. */
  function ChooseSetup(cfg: Config): (r: Result<Setup, TrainError>)
    ensures r.Err? <==> cfg.lrScheduler.None?
    ensures r.Err? ==> r.error == MissingKey("lr_scheduler")
    ensures r.Ok? ==> r.value == Setup(ChooseInit(cfg.weightInit), ChooseLoss(cfg.lossFn), ChooseOptimizer(cfg),
                                       ChooseScheduler(cfg).value)
  {
    match ChooseScheduler(cfg)
    case Err(e) => Err(e)
    case Ok(s) => Ok(Setup(ChooseInit(cfg.weightInit), ChooseLoss(cfg.lossFn), ChooseOptimizer(cfg), s))
  }

  /** The warmup optimizer: SGD with Nesterov momentum at a tenth of the learning rate and no weight decay. */
  function WarmupOptimizer(cfg: Config): (k: OptimizerKind)
    ensures k.Sgd? && k.lr == cfg.lr / 10.0 && k.weightDecay == 0.0 && k.momentum == cfg.momentum && k.nesterov
  {
    Sgd(cfg.lr / 10.0, 0.0, cfg.momentum, true)
  }

  /** The argument a main epoch passes to scheduler.step: the validation error for the plateau scheduler, none otherwise. */
  function StepArgument(cfg: Config, validError: real): (a: Option<real>)
    ensures a.Some? <==> Plateau(cfg)
    ensures a.Some? ==> a.value == validError
  {
    if Plateau(cfg) then Some(validError) else None
  }

  /** Each scheduler name selects its fixed milestones and decay; a missing name is an error. */
  lemma SchedulerChoice(cfg: Config)
    ensures ChooseScheduler(cfg).Err? <==> cfg.lrScheduler.None?
    ensures ChooseScheduler(cfg).Err? ==> ChooseScheduler(cfg).error == MissingKey("lr_scheduler")
    ensures ChooseScheduler(cfg) == Ok(ReduceOnPlateau(20)) <==> Plateau(cfg)
    ensures cfg.lrScheduler == Some("MultiStepLR_150_225_300") ==>
              ChooseScheduler(cfg) == Ok(MultiStep([150.0, 225.0, 300.0], 0.1))
    ensures cfg.lrScheduler == Some("MultiStepLR_60_120_160_200") ==>
              ChooseScheduler(cfg) == Ok(MultiStep([60.0, 120.0, 160.0, 200.0], 0.2))
    ensures cfg.lrScheduler.Some? && cfg.lrScheduler.value !in {"ReduceLROnPlateau", "MultiStepLR_150_225_300", "MultiStepLR_60_120_160_200"} ==>
              ChooseScheduler(cfg) == Ok(MultiStep([0.5 * cfg.nEpochs as real, 0.75 * cfg.nEpochs as real], 0.1))
  {
  }

  /**
   * The second test of the scheduler name, made when stepping, agrees with the first: the scheduler
   * receives the validation error exactly when it is the plateau scheduler.
   */
  lemma StepArgumentMatchesScheduler(cfg: Config, validError: real)
    requires ChooseScheduler(cfg).Ok?
    ensures StepArgument(cfg, validError) ==
              if ChooseScheduler(cfg).value.ReduceOnPlateau? then Some(validError) else None
  {
  }

  // ---------------------------------------------------------------------------------------------
  // The event log

  datatype Phase = Warmup | Main

  datatype Event =
    | CreateSaveDir
    | TrainPass(phase: Phase, epoch: int, total: int, optimizer: OptimizerKind)
    | EvalPass(epoch: int, total: int)
    | SaveBest(file: string, epoch: int)
    | AuditLine(epoch: int, error: real)
    | SchedulerStep(arg: Option<real>)
    | SaveLast(file: string)

  /** The audit file in the save directory that receives one line per new best error. */
  const AuditFile: string := "model_ckpt_detail.txt"

  function LastFile(file: string): string
  {
    "last_" + file
  }

  function Picked<U>(o: Option<U>): seq<U>
  {
    match o
    case Some(u) => [u]
    case None => []
  }

  /** The values `pick` extracts from a log, in log order. */
  function Collect<U>(log: seq<Event>, pick: Event -> Option<U>): seq<U>
    decreases |log|
  {
    if log == [] then [] else Picked(pick(log[0])) + Collect(log[1..], pick)
  }

  lemma {:induction false} CollectConcat<U>(a: seq<Event>, b: seq<Event>, pick: Event -> Option<U>)
    ensures Collect(a + b, pick) == Collect(a, pick) + Collect(b, pick)
    decreases |a|
  {
    if a == [] {
      assert a + b == b;
    } else {
      assert (a + b)[1..] == a[1..] + b;
      CollectConcat(a[1..], b, pick);
    }
  }

  lemma {:induction false} CollectNothing<U>(log: seq<Event>, pick: Event -> Option<U>)
    requires forall i :: 0 <= i < |log| ==> pick(log[i]).None?
    ensures Collect(log, pick) == []
    decreases |log|
  {
    if log != [] {
      assert forall i :: 0 <= i < |log[1..]| ==> log[1..][i] == log[i + 1];
      CollectNothing(log[1..], pick);
    }
  }

  datatype AuditRecord = AuditRecord(epoch: int, error: real)

  function AuditOf(e: Event): Option<AuditRecord>
  {
    if e.AuditLine? then Some(AuditRecord(e.epoch, e.error)) else None
  }

  function BestSaveOf(e: Event): Option<int>
  {
    if e.SaveBest? then Some(e.epoch) else None
  }

  function LastSaveOf(e: Event): Option<string>
  {
    if e.SaveLast? then Some(e.file) else None
  }

  function StepOf(e: Event): Option<Option<real>>
  {
    if e.SchedulerStep? then Some(e.arg) else None
  }

  function WarmupPassOf(e: Event): Option<int>
  {
    if e.TrainPass? && e.phase == Warmup then Some(e.epoch) else None
  }

  function MainPassOf(e: Event): Option<int>
  {
    if e.TrainPass? && e.phase == Main then Some(e.epoch) else None
  }

  function EvalOf(e: Event): Option<int>
  {
    if e.EvalPass? then Some(e.epoch) else None
  }

  /** The file of the save directory an event writes, if any. */
  function FileOf(e: Event): Option<string>
  {
    match e
    case SaveBest(f, _) => Some(f)
    case SaveLast(f) => Some(f)
    case AuditLine(_, _) => Some(AuditFile)
    case _ => None
  }

  // ---------------------------------------------------------------------------------------------
  // The specification of a run

  /** best_error after the main epochs with the given validation errors: it starts at 1 and takes an error only when it is strictly smaller. */
  function BestAfter(errs: seq<real>): (b: real)
    ensures b <= 1.0
    ensures errs != [] ==> b <= errs[|errs| - 1]
    decreases |errs|
  {
    if errs == [] then 1.0
    else
      var best := BestAfter(errs[..|errs| - 1]);
      if errs[|errs| - 1] < best then errs[|errs| - 1] else best
  }

  /** Whether main epoch j + 1 (0-based j) reaches a new best error. */
  predicate Improves(errs: seq<real>, j: nat)
    requires j < |errs|
  {
    errs[j] < BestAfter(errs[..j])
  }

  /** The events of one main epoch. */
  function EpochEvents(cfg: Config, file: string, epoch: int, validError: real, improves: bool): seq<Event>
  {
    [TrainPass(Main, epoch, cfg.nEpochs, ChooseOptimizer(cfg)), EvalPass(epoch, cfg.nEpochs)]
    + (if improves then [SaveBest(file, epoch), AuditLine(epoch, validError)] else [])
    + [SchedulerStep(StepArgument(cfg, validError))]
  }

  /** The events of the main epochs with the given validation errors. */
  function MainEvents(cfg: Config, file: string, errs: seq<real>): seq<Event>
    decreases |errs|
  {
    if errs == [] then []
    else
      var n := |errs| - 1;
      MainEvents(cfg, file, errs[..n]) + EpochEvents(cfg, file, n + 1, errs[n], Improves(errs, n))
  }

  /** The events of the first k warmup epochs. */
  function WarmupEvents(cfg: Config, k: nat): seq<Event>
    decreases k
  {
    if k == 0 then [] else WarmupEvents(cfg, k - 1) + [TrainPass(Warmup, k, cfg.warmup, WarmupOptimizer(cfg))]
  }

  function DirEvents(dir: DirState): seq<Event>
  {
    if dir == Missing then [CreateSaveDir] else []
  }

  function ExpectedOutcome(cfg: Config, dir: DirState): Outcome
  {
    if dir == NotADirectory then Failed(SaveDirNotADirectory)
    else if cfg.lrScheduler.None? then Failed(MissingKey("lr_scheduler"))
    else if cfg.nEpochs >= 1 && cfg.runEpoch.None? then Failed(MissingKey("run_epoch"))
    else Completed
  }

  /** Whether a run gets as far as the warmup phase. */
  predicate WarmupReached(cfg: Config, dir: DirState)
  {
    dir != NotADirectory && cfg.lrScheduler.Some?
  }

  /** The log of a run: up to the failure, or the whole run followed by the final save. */
  function ExpectedLog(cfg: Config, file: string, dir: DirState, errs: seq<real>): seq<Event>
  {
    if dir == NotADirectory then []
    else if cfg.lrScheduler.None? then DirEvents(dir)
    else if cfg.nEpochs >= 1 && cfg.runEpoch.None? then DirEvents(dir) + WarmupEvents(cfg, Max0(cfg.warmup))
    else DirEvents(dir) + WarmupEvents(cfg, Max0(cfg.warmup)) + MainEvents(cfg, file, errs) + [SaveLast(LastFile(file))]
  }

  predicate WellFormedEpochs(epochs: seq<seq<BatchResult>>)
  {
    forall e, b :: 0 <= e < |epochs| && 0 <= b < |epochs[e]| ==> WellFormedBatch(epochs[e][b].output)
  }

  /** The number of training batches over several epochs. */
  function TotalBatches(epochs: seq<seq<BatchResult>>): nat
    decreases |epochs|
  {
    if epochs == [] then 0 else TotalBatches(epochs[..|epochs| - 1]) + |epochs[|epochs| - 1]|
  }

  /** The number of optimizer steps over several epochs. */
  function TotalSteps(epochs: seq<seq<BatchResult>>, skipNonPositive: bool): nat
    decreases |epochs|
  {
    if epochs == [] then 0
    else TotalSteps(epochs[..|epochs| - 1], skipNonPositive) + StepCount(epochs[|epochs| - 1], skipNonPositive)
  }

  datatype TrainReport = TrainReport(
    outcome: Outcome,
    log: seq<Event>,
    bestError: real,
    mainIters: Option<nat>,
    mainSteps: nat,
    warmupIters: Option<nat>,
    warmupSteps: nat,
    setup: Option<Setup>)

  // ---------------------------------------------------------------------------------------------
  // The driver

  /** The warmup phase: `warmup` passes of run_epoch over the training data with the warmup optimizer. */
  method RunWarmup(cfg: Config, warmupEpochs: seq<seq<BatchResult>>)
    returns (events: seq<Event>, iters: Option<nat>, steps: nat)
    requires |warmupEpochs| == Max0(cfg.warmup) && WellFormedEpochs(warmupEpochs)
    ensures events == WarmupEvents(cfg, Max0(cfg.warmup))
    ensures iters == IterationsAfter(None, TotalBatches(warmupEpochs))
    ensures steps == TotalSteps(warmupEpochs, false)
  {
    events, iters, steps := [], None, 0;
    if cfg.warmup > 0 {
      var warmupOpt := new Optimizer(WarmupOptimizer(cfg));
      for e := 0 to cfg.warmup
        invariant events == WarmupEvents(cfg, e)
        invariant warmupOpt.nIters == IterationsAfter(None, TotalBatches(warmupEpochs[..e]))
        invariant warmupOpt.steps == TotalSteps(warmupEpochs[..e], false)
      {
        TotalsSnoc(warmupEpochs, e, false);
        RunWarmupEpoch(warmupOpt, warmupEpochs[e]);
        IterationsAdd(None, TotalBatches(warmupEpochs[..e]), |warmupEpochs[e]|);
        events := events + [TrainPass(Warmup, e + 1, cfg.warmup, warmupOpt.kind)];
      }
      assert warmupEpochs[..cfg.warmup] == warmupEpochs;
      iters, steps := warmupOpt.nIters, warmupOpt.steps;
    }
  }

  /** One warmup epoch: a standard training pass of the warmup optimizer, whose losses and errors are discarded. */
  method RunWarmupEpoch(opt: Optimizer, batches: seq<BatchResult>)
    requires forall i :: 0 <= i < |batches| ==> WellFormedBatch(batches[i].output)
    modifies opt
    ensures opt.nIters == IterationsAfter(old(opt.nIters), |batches|)
    ensures opt.steps == old(opt.steps) + StepCount(batches, false)
  {
    var _, _ := RunEpoch(opt, batches, true, false);
  }

  /** The specification functions after one more epoch. */
  lemma MainEventsSnoc(cfg: Config, file: string, errs: seq<real>, i: nat)
    requires i < |errs|
    ensures MainEvents(cfg, file, errs[..i + 1])
            == MainEvents(cfg, file, errs[..i]) + EpochEvents(cfg, file, i + 1, errs[i], errs[i] < BestAfter(errs[..i]))
    ensures BestAfter(errs[..i + 1]) == if errs[i] < BestAfter(errs[..i]) then errs[i] else BestAfter(errs[..i])
  {
    assert errs[..i + 1][..i] == errs[..i];
  }

  /** The batch and step totals after one more epoch. */
  lemma TotalsSnoc(epochs: seq<seq<BatchResult>>, i: nat, skipNonPositive: bool)
    requires i < |epochs|
    ensures TotalBatches(epochs[..i + 1]) == TotalBatches(epochs[..i]) + |epochs[i]|
    ensures TotalSteps(epochs[..i + 1], skipNonPositive) == TotalSteps(epochs[..i], skipNonPositive) + StepCount(epochs[i], skipNonPositive)
  {
    assert epochs[..i + 1][..i] == epochs[..i];
  }

  /**
   * One main epoch: a training pass (fast or standard), a validation pass, the best-error rule with
   * its checkpoint and audit line, and one scheduler step.
   */
  method RunMainEpoch(cfg: Config, file: string, optimizer: Optimizer, batches: seq<BatchResult>, fast: bool,
                      epoch: int, validError: real, best: real)
    returns (events: seq<Event>, newBest: real)
    requires forall b :: 0 <= b < |batches| ==> WellFormedBatch(batches[b].output)
    requires optimizer.kind == ChooseOptimizer(cfg)
    modifies optimizer
    ensures events == EpochEvents(cfg, file, epoch, validError, validError < best)
    ensures newBest == if validError < best then validError else best
    ensures optimizer.nIters == IterationsAfter(old(optimizer.nIters), |batches|)
    ensures optimizer.steps == old(optimizer.steps) + StepCount(batches, fast)
  {
    var _, _ := RunEpoch(optimizer, batches, true, fast);
    events := [TrainPass(Main, epoch, cfg.nEpochs, optimizer.kind), EvalPass(epoch, cfg.nEpochs)];
    newBest := best;
    if validError < best {
      newBest := validError;
      events := events + [SaveBest(file, epoch), AuditLine(epoch, newBest)];
    }
    events := events + [SchedulerStep(StepArgument(cfg, validError))];
  }

  /**
   * The main loop over the epochs. `ok` is false when the run_epoch key is missing at the first epoch.
   */
  method RunMainEpochs(cfg: Config, file: string, optimizer: Optimizer,
                       mainEpochs: seq<seq<BatchResult>>, validErrors: seq<real>)
    returns (ok: bool, events: seq<Event>, best: real)
    requires |mainEpochs| == Max0(cfg.nEpochs) && |validErrors| == Max0(cfg.nEpochs)
    requires WellFormedEpochs(mainEpochs)
    requires optimizer.kind == ChooseOptimizer(cfg)
    modifies optimizer
    ensures ok <==> !(cfg.nEpochs >= 1 && cfg.runEpoch.None?)
    ensures !ok ==> events == [] && optimizer.nIters == old(optimizer.nIters) && optimizer.steps == old(optimizer.steps)
    ensures ok ==> events == MainEvents(cfg, file, validErrors) && best == BestAfter(validErrors)
    ensures ok ==> optimizer.nIters == IterationsAfter(old(optimizer.nIters), TotalBatches(mainEpochs))
    ensures ok ==> optimizer.steps == old(optimizer.steps) + TotalSteps(mainEpochs, cfg.runEpoch == Some("fast"))
  {
    events, best := [], 1.0;
    for i := 0 to Max0(cfg.nEpochs)
      invariant events == MainEvents(cfg, file, validErrors[..i])
      invariant best == BestAfter(validErrors[..i])
      invariant optimizer.nIters == IterationsAfter(old(optimizer.nIters), TotalBatches(mainEpochs[..i]))
      invariant optimizer.steps == old(optimizer.steps) + TotalSteps(mainEpochs[..i], cfg.runEpoch == Some("fast"))
      invariant i > 0 ==> cfg.runEpoch.Some?
    {
      if cfg.runEpoch.None? {
        return false, [], best;
      }
      var fast := cfg.runEpoch.value == "fast";
      MainEventsSnoc(cfg, file, validErrors, i);
      TotalsSnoc(mainEpochs, i, fast);
      IterationsAdd(old(optimizer.nIters), TotalBatches(mainEpochs[..i]), |mainEpochs[i]|);
      var epochEvents;
      epochEvents, best := RunMainEpoch(cfg, file, optimizer, mainEpochs[i], fast, i + 1, validErrors[i], best);
      events := events + epochEvents;
    }
    assert mainEpochs[..Max0(cfg.nEpochs)] == mainEpochs;
    assert validErrors[..Max0(cfg.nEpochs)] == validErrors;
    ok := true;
  }

  /**
   * train: `warmupEpochs` and `mainEpochs` are what the model and criterion produce on each training
   * batch of each warmup and main epoch, and `validErrors` the validation error of each main epoch.
   */
  method Train(cfg: Config, file: string, dir: DirState,
               warmupEpochs: seq<seq<BatchResult>>, mainEpochs: seq<seq<BatchResult>>, validErrors: seq<real>)
    returns (r: TrainReport)
    requires |warmupEpochs| == Max0(cfg.warmup)
    requires |mainEpochs| == Max0(cfg.nEpochs) && |validErrors| == Max0(cfg.nEpochs)
    requires WellFormedEpochs(warmupEpochs) && WellFormedEpochs(mainEpochs)
    ensures r.outcome == ExpectedOutcome(cfg, dir)
    ensures r.log == ExpectedLog(cfg, file, dir, validErrors)
    ensures r.outcome == Completed ==> r.bestError == BestAfter(validErrors)
    ensures r.outcome == Completed ==> r.mainIters == IterationsAfter(None, TotalBatches(mainEpochs))
    ensures r.outcome == Completed ==> r.mainSteps == TotalSteps(mainEpochs, cfg.runEpoch == Some("fast"))
    ensures WarmupReached(cfg, dir) ==> r.warmupIters == IterationsAfter(None, TotalBatches(warmupEpochs))
    ensures WarmupReached(cfg, dir) ==> r.warmupSteps == TotalSteps(warmupEpochs, false)
    ensures r.setup == if WarmupReached(cfg, dir) then Some(ChooseSetup(cfg).value) else None
  {
    if dir == NotADirectory {
      return TrainReport(Failed(SaveDirNotADirectory), [], 1.0, None, 0, None, 0, None);
    }
    var log := DirEvents(dir);
    var chosen := ChooseSetup(cfg);
    if chosen.Err? {
      return TrainReport(Failed(chosen.error), log, 1.0, None, 0, None, 0, None);
    }
    var optimizer := new Optimizer(chosen.value.optimizer);
    var warmupLog, warmupIters, warmupSteps := RunWarmup(cfg, warmupEpochs);
    log := log + warmupLog;
    var ok, mainLog, best := RunMainEpochs(cfg, file, optimizer, mainEpochs, validErrors);
    if !ok {
      return TrainReport(Failed(MissingKey("run_epoch")), log, best, optimizer.nIters, optimizer.steps,
                         warmupIters, warmupSteps, Some(chosen.value));
    }
    log := log + mainLog + [SaveLast(LastFile(file))];
    r := TrainReport(Completed, log, best, optimizer.nIters, optimizer.steps, warmupIters, warmupSteps, Some(chosen.value));
  }

  // ---------------------------------------------------------------------------------------------
  // Properties of the best-error rule

  /** best_error is the minimum of 1 and every validation error seen. */
  lemma {:induction false} BestIsMinimum(errs: seq<real>)
    ensures BestAfter(errs) <= 1.0
    ensures forall i :: 0 <= i < |errs| ==> BestAfter(errs) <= errs[i]
    ensures BestAfter(errs) == 1.0 || exists i :: 0 <= i < |errs| && BestAfter(errs) == errs[i]
    decreases |errs|
  {
    if errs != [] {
      var n := |errs| - 1;
      var init := errs[..n];
      BestIsMinimum(init);
      assert forall i :: 0 <= i < n ==> init[i] == errs[i];
      if errs[n] >= BestAfter(init) && BestAfter(init) != 1.0 {
        var i :| 0 <= i < n && BestAfter(init) == init[i];
        assert BestAfter(errs) == errs[i];
      }
    }
  }

  /** An epoch reaches a new best exactly when its error is below 1 and strictly below every earlier epoch's. */
  lemma ImprovesIff(errs: seq<real>, j: nat)
    requires j < |errs|
    ensures Improves(errs, j) <==> errs[j] < 1.0 && forall i :: 0 <= i < j ==> errs[j] < errs[i]
  {
    var init := errs[..j];
    BestIsMinimum(init);
    assert forall i :: 0 <= i < j ==> init[i] == errs[i];
  }

  /** An epoch that only ties (or trails) an earlier epoch does not replace it. */
  lemma TiesKeepEarlier(errs: seq<real>, i: nat, j: nat)
    requires i < j < |errs| && errs[i] <= errs[j]
    ensures !Improves(errs, j)
  {
    ImprovesIff(errs, j);
  }

  /** The records of the audit file, one per epoch that reaches a new best. */
  function Improvements(errs: seq<real>): seq<AuditRecord>
    decreases |errs|
  {
    if errs == [] then []
    else
      var n := |errs| - 1;
      Improvements(errs[..n]) + (if Improves(errs, n) then [AuditRecord(n + 1, errs[n])] else [])
  }

  /** A record names an epoch of the run, holds that epoch's error, and that epoch reached a new best. */
  predicate NamesImprovement(errs: seq<real>, rec: AuditRecord)
  {
    1 <= rec.epoch <= |errs| && rec.error == errs[rec.epoch - 1] && Improves(errs, rec.epoch - 1)
  }

  /** Every audit record names a real epoch with its own error, and that epoch reached a new best. */
  lemma {:induction false} ImprovementsNamed(errs: seq<real>)
    ensures forall k :: 0 <= k < |Improvements(errs)| ==> NamesImprovement(errs, Improvements(errs)[k])
    decreases |errs|
  {
    if errs != [] {
      var n := |errs| - 1;
      var init := errs[..n];
      var a := Improvements(init);
      ImprovementsNamed(init);
      assert Improvements(errs) == a + (if Improves(errs, n) then [AuditRecord(n + 1, errs[n])] else []);
      forall k | 0 <= k < |Improvements(errs)|
        ensures NamesImprovement(errs, Improvements(errs)[k])
      {
        if k < |a| {
          var rec := a[k];
          assert NamesImprovement(init, rec);
          var e := rec.epoch - 1;
          assert init[..e] == errs[..e];
          assert init[e] == errs[e];
        }
      }
    }
  }

  /**
   * Along the audit file epoch numbers strictly increase and errors strictly decrease; the last
   * record holds the final best error, and the file stays empty exactly when the best error stays 1.
   */
  lemma {:induction false} ImprovementsDecrease(errs: seq<real>)
    ensures forall k, l :: 0 <= k < l < |Improvements(errs)| ==>
              Improvements(errs)[k].epoch < Improvements(errs)[l].epoch &&
              Improvements(errs)[l].error < Improvements(errs)[k].error
    ensures Improvements(errs) == [] <==> BestAfter(errs) == 1.0
    ensures Improvements(errs) != [] ==> Improvements(errs)[|Improvements(errs)| - 1].error == BestAfter(errs)
    decreases |errs|
  {
    if errs != [] {
      var n := |errs| - 1;
      var init := errs[..n];
      var a := Improvements(init);
      ImprovementsDecrease(init);
      ImprovementsNamed(init);
      BestIsMinimum(init);
      if Improves(errs, n) {
        var b := a + [AuditRecord(n + 1, errs[n])];
        assert Improvements(errs) == b;
        forall k | 0 <= k < |a|
          ensures a[k].epoch < n + 1 && errs[n] < a[k].error
        {
          assert NamesImprovement(init, a[k]);
          assert a[k].error >= a[|a| - 1].error;
        }
      } else {
        assert Improvements(errs) == a;
      }
    }
  }

  /** A run writes some audit line exactly when some validation error falls below 1. */
  lemma SomeImprovementIff(errs: seq<real>)
    ensures Improvements(errs) != [] <==> exists i :: 0 <= i < |errs| && errs[i] < 1.0
  {
    ImprovementsDecrease(errs);
    BestIsMinimum(errs);
  }

  /** An epoch's record is in the audit file exactly when that epoch reaches a new best. */
  lemma {:induction false} ImprovementRecorded(errs: seq<real>, j: nat)
    requires j < |errs|
    ensures AuditRecord(j + 1, errs[j]) in Improvements(errs) <==> Improves(errs, j)
    decreases |errs|
  {
    var n := |errs| - 1;
    var init := errs[..n];
    var a := Improvements(init);
    ImprovementsNamed(init);
    var tail := if Improves(errs, n) then [AuditRecord(n + 1, errs[n])] else [];
    assert Improvements(errs) == a + tail;
    assert AuditRecord(n + 1, errs[n]) !in a by {
      forall k | 0 <= k < |a| ensures a[k].epoch <= n {
        assert NamesImprovement(init, a[k]);
      }
    }
    if j < n {
      ImprovementRecorded(init, j);
      assert init[..j] == errs[..j];
      assert init[j] == errs[j];
    }
  }

  // ---------------------------------------------------------------------------------------------
  // What the log of a run holds

  lemma CollectOne<U>(e: Event, pick: Event -> Option<U>)
    ensures Collect([e], pick) == Picked(pick(e))
  {
    assert [e][1..] == [];
  }

  lemma CollectEpoch<U>(cfg: Config, file: string, epoch: int, validError: real, improves: bool, pick: Event -> Option<U>)
    ensures Collect(EpochEvents(cfg, file, epoch, validError, improves), pick) ==
              Picked(pick(TrainPass(Main, epoch, cfg.nEpochs, ChooseOptimizer(cfg))))
              + Picked(pick(EvalPass(epoch, cfg.nEpochs)))
              + (if improves then Picked(pick(SaveBest(file, epoch))) + Picked(pick(AuditLine(epoch, validError))) else [])
              + Picked(pick(SchedulerStep(StepArgument(cfg, validError))))
  {
    var tp, ev := TrainPass(Main, epoch, cfg.nEpochs, ChooseOptimizer(cfg)), EvalPass(epoch, cfg.nEpochs);
    var sb, al := SaveBest(file, epoch), AuditLine(epoch, validError);
    var st := SchedulerStep(StepArgument(cfg, validError));
    var b := if improves then [sb, al] else [];
    assert EpochEvents(cfg, file, epoch, validError, improves) == [tp] + [ev] + b + [st];
    CollectConcat([tp] + [ev] + b, [st], pick);
    CollectConcat([tp] + [ev], b, pick);
    CollectConcat([tp], [ev], pick);
    CollectOne(tp, pick);
    CollectOne(ev, pick);
    CollectOne(st, pick);
    if improves {
      assert b == [sb] + [al];
      CollectConcat([sb], [al], pick);
      CollectOne(sb, pick);
      CollectOne(al, pick);
    }
  }

  /** The step that extends the main log by one epoch, seen through `pick`. */
  lemma MainStep<U>(cfg: Config, file: string, errs: seq<real>, pick: Event -> Option<U>)
    requires errs != []
    ensures var n := |errs| - 1;
      Collect(MainEvents(cfg, file, errs), pick) ==
        Collect(MainEvents(cfg, file, errs[..n]), pick) + Collect(EpochEvents(cfg, file, n + 1, errs[n], Improves(errs, n)), pick)
  {
    var n := |errs| - 1;
    CollectConcat(MainEvents(cfg, file, errs[..n]), EpochEvents(cfg, file, n + 1, errs[n], Improves(errs, n)), pick);
  }

  /** The audit lines of the main loop are exactly the improvements. */
  lemma {:induction false} MainAudit(cfg: Config, file: string, errs: seq<real>)
    ensures Collect(MainEvents(cfg, file, errs), AuditOf) == Improvements(errs)
    decreases |errs|
  {
    if errs != [] {
      var n := |errs| - 1;
      MainAudit(cfg, file, errs[..n]);
      MainStep(cfg, file, errs, AuditOf);
      CollectEpoch(cfg, file, n + 1, errs[n], Improves(errs, n), AuditOf);
    }
  }

  /** The best-model saves of the main loop happen at exactly the epochs of the audit lines, in the same order. */
  lemma {:induction false} MainBestSaves(cfg: Config, file: string, errs: seq<real>)
    ensures |Collect(MainEvents(cfg, file, errs), BestSaveOf)| == |Improvements(errs)|
    ensures forall k :: 0 <= k < |Improvements(errs)| ==>
              Collect(MainEvents(cfg, file, errs), BestSaveOf)[k] == Improvements(errs)[k].epoch
    decreases |errs|
  {
    if errs != [] {
      var n := |errs| - 1;
      MainBestSaves(cfg, file, errs[..n]);
      MainStep(cfg, file, errs, BestSaveOf);
      CollectEpoch(cfg, file, n + 1, errs[n], Improves(errs, n), BestSaveOf);
    }
  }

  /** Epoch numbers 1 to n, in order. */
  function Numbered(n: nat): seq<int>
    decreases n
  {
    if n == 0 then [] else Numbered(n - 1) + [n]
  }

  lemma {:induction false} NumberedAt(n: nat)
    ensures |Numbered(n)| == n
    ensures forall i :: 0 <= i < n ==> Numbered(n)[i] == i + 1
    decreases n
  {
    if n > 0 {
      NumberedAt(n - 1);
    }
  }

  /** The arguments the main epochs with these validation errors pass to scheduler.step, in order. */
  function StepArguments(cfg: Config, errs: seq<real>): seq<Option<real>>
    decreases |errs|
  {
    if errs == [] then [] else StepArguments(cfg, errs[..|errs| - 1]) + [StepArgument(cfg, errs[|errs| - 1])]
  }

  lemma {:induction false} StepArgumentsAt(cfg: Config, errs: seq<real>)
    ensures |StepArguments(cfg, errs)| == |errs|
    ensures forall i :: 0 <= i < |errs| ==> StepArguments(cfg, errs)[i] == StepArgument(cfg, errs[i])
    decreases |errs|
  {
    if errs != [] {
      var n := |errs| - 1;
      var init := errs[..n];
      StepArgumentsAt(cfg, init);
      var s0 := StepArguments(cfg, init);
      assert StepArguments(cfg, errs) == s0 + [StepArgument(cfg, errs[n])];
      forall i | 0 <= i < n ensures StepArguments(cfg, errs)[i] == StepArgument(cfg, errs[i]) {
        assert StepArguments(cfg, errs)[i] == s0[i];
        assert init[i] == errs[i];
      }
    }
  }

  lemma EpochStep(cfg: Config, file: string, epoch: int, validError: real, improves: bool)
    ensures Collect(EpochEvents(cfg, file, epoch, validError, improves), StepOf) == [StepArgument(cfg, validError)]
  {
    CollectEpoch(cfg, file, epoch, validError, improves, StepOf);
  }

  lemma EpochTrainPass(cfg: Config, file: string, epoch: int, validError: real, improves: bool)
    ensures Collect(EpochEvents(cfg, file, epoch, validError, improves), MainPassOf) == [epoch]
  {
    CollectEpoch(cfg, file, epoch, validError, improves, MainPassOf);
  }

  lemma EpochEvalPass(cfg: Config, file: string, epoch: int, validError: real, improves: bool)
    ensures Collect(EpochEvents(cfg, file, epoch, validError, improves), EvalOf) == [epoch]
  {
    CollectEpoch(cfg, file, epoch, validError, improves, EvalOf);
  }

  lemma EpochQuiet(cfg: Config, file: string, epoch: int, validError: real, improves: bool)
    ensures Collect(EpochEvents(cfg, file, epoch, validError, improves), WarmupPassOf) == []
    ensures Collect(EpochEvents(cfg, file, epoch, validError, improves), LastSaveOf) == []
  {
    CollectEpoch(cfg, file, epoch, validError, improves, WarmupPassOf);
    CollectEpoch(cfg, file, epoch, validError, improves, LastSaveOf);
  }

  /** One main epoch writes the checkpoint and then the audit file when it improves, and no file otherwise. */
  lemma EpochFiles(cfg: Config, file: string, epoch: int, validError: real, improves: bool)
    ensures Collect(EpochEvents(cfg, file, epoch, validError, improves), FileOf) == if improves then [file, AuditFile] else []
  {
    CollectEpoch(cfg, file, epoch, validError, improves, FileOf);
  }

  /** One main epoch steps the scheduler once, trains once and validates once, all numbered with that epoch. */
  lemma EpochPasses(cfg: Config, file: string, epoch: int, validError: real, improves: bool)
    ensures Collect(EpochEvents(cfg, file, epoch, validError, improves), StepOf) == [StepArgument(cfg, validError)]
    ensures Collect(EpochEvents(cfg, file, epoch, validError, improves), MainPassOf) == [epoch]
    ensures Collect(EpochEvents(cfg, file, epoch, validError, improves), EvalOf) == [epoch]
    ensures Collect(EpochEvents(cfg, file, epoch, validError, improves), WarmupPassOf) == []
    ensures Collect(EpochEvents(cfg, file, epoch, validError, improves), LastSaveOf) == []
  {
    EpochStep(cfg, file, epoch, validError, improves);
    EpochTrainPass(cfg, file, epoch, validError, improves);
    EpochEvalPass(cfg, file, epoch, validError, improves);
    EpochQuiet(cfg, file, epoch, validError, improves);
  }

  lemma {:induction false} MainStepArguments(cfg: Config, file: string, errs: seq<real>)
    ensures Collect(MainEvents(cfg, file, errs), StepOf) == StepArguments(cfg, errs)
    decreases |errs|
  {
    if errs != [] {
      var n := |errs| - 1;
      MainStepArguments(cfg, file, errs[..n]);
      MainStep(cfg, file, errs, StepOf);
      EpochStep(cfg, file, n + 1, errs[n], Improves(errs, n));
    }
  }

  /** The main loop steps the scheduler once per epoch, with the argument that epoch's error calls for. */
  lemma MainSchedulerSteps(cfg: Config, file: string, errs: seq<real>)
    ensures |Collect(MainEvents(cfg, file, errs), StepOf)| == |errs|
    ensures forall i :: 0 <= i < |errs| ==> Collect(MainEvents(cfg, file, errs), StepOf)[i] == StepArgument(cfg, errs[i])
  {
    MainStepArguments(cfg, file, errs);
    StepArgumentsAt(cfg, errs);
  }

  lemma {:induction false} MainPassNumbers(cfg: Config, file: string, errs: seq<real>)
    ensures Collect(MainEvents(cfg, file, errs), MainPassOf) == Numbered(|errs|)
    ensures Collect(MainEvents(cfg, file, errs), EvalOf) == Numbered(|errs|)
    decreases |errs|
  {
    if errs != [] {
      var n := |errs| - 1;
      MainPassNumbers(cfg, file, errs[..n]);
      MainStep(cfg, file, errs, MainPassOf);
      MainStep(cfg, file, errs, EvalOf);
      EpochTrainPass(cfg, file, n + 1, errs[n], Improves(errs, n));
      EpochEvalPass(cfg, file, n + 1, errs[n], Improves(errs, n));
    }
  }

  /** Main epoch e has one training pass and one validation pass, numbered 1 to n in order. */
  lemma MainPasses(cfg: Config, file: string, errs: seq<real>)
    ensures |Collect(MainEvents(cfg, file, errs), MainPassOf)| == |errs|
    ensures forall i :: 0 <= i < |errs| ==> Collect(MainEvents(cfg, file, errs), MainPassOf)[i] == i + 1
    ensures Collect(MainEvents(cfg, file, errs), EvalOf) == Collect(MainEvents(cfg, file, errs), MainPassOf)
  {
    MainPassNumbers(cfg, file, errs);
    NumberedAt(|errs|);
  }

  /** The main loop makes no warmup pass and does not save last_<file>. */
  lemma {:induction false} MainQuiet(cfg: Config, file: string, errs: seq<real>)
    ensures Collect(MainEvents(cfg, file, errs), WarmupPassOf) == []
    ensures Collect(MainEvents(cfg, file, errs), LastSaveOf) == []
    decreases |errs|
  {
    if errs != [] {
      var n := |errs| - 1;
      MainQuiet(cfg, file, errs[..n]);
      MainStep(cfg, file, errs, WarmupPassOf);
      MainStep(cfg, file, errs, LastSaveOf);
      EpochQuiet(cfg, file, n + 1, errs[n], Improves(errs, n));
    }
  }

  /** The main loop writes the model file and the audit file when some epoch reaches a new best, and nothing else. */
  lemma {:induction false} MainFiles(cfg: Config, file: string, errs: seq<real>)
    ensures forall f :: f in Collect(MainEvents(cfg, file, errs), FileOf) <==>
              Improvements(errs) != [] && (f == file || f == AuditFile)
    decreases |errs|
  {
    if errs != [] {
      var n := |errs| - 1;
      var init := errs[..n];
      MainFiles(cfg, file, init);
      MainStep(cfg, file, errs, FileOf);
      EpochFiles(cfg, file, n + 1, errs[n], Improves(errs, n));
      var tail := if Improves(errs, n) then [AuditRecord(n + 1, errs[n])] else [];
      assert Improvements(errs) == Improvements(init) + tail;
      assert Collect(MainEvents(cfg, file, errs), FileOf)
             == Collect(MainEvents(cfg, file, init), FileOf) + (if Improves(errs, n) then [file, AuditFile] else []);
    }
  }

  /** Warmup epoch i is a training pass numbered i of `warmup`, with the warmup optimizer at a tenth of the learning rate. */
  lemma {:induction false} WarmupShape(cfg: Config, k: nat)
    ensures |WarmupEvents(cfg, k)| == k
    ensures forall i :: 0 <= i < k ==> WarmupEvents(cfg, k)[i] == TrainPass(Warmup, i + 1, cfg.warmup, WarmupOptimizer(cfg))
    ensures WarmupOptimizer(cfg).lr == cfg.lr / 10.0
    decreases k
  {
    if k > 0 {
      WarmupShape(cfg, k - 1);
    }
  }

  lemma {:induction false} WarmupNumbers(cfg: Config, k: nat)
    ensures Collect(WarmupEvents(cfg, k), WarmupPassOf) == Numbered(k)
    decreases k
  {
    if k > 0 {
      WarmupNumbers(cfg, k - 1);
      CollectConcat(WarmupEvents(cfg, k - 1), [TrainPass(Warmup, k, cfg.warmup, WarmupOptimizer(cfg))], WarmupPassOf);
      CollectOne(TrainPass(Warmup, k, cfg.warmup, WarmupOptimizer(cfg)), WarmupPassOf);
    }
  }

  /** The warmup trains on epochs 1 to k, in order. */
  lemma WarmupPasses(cfg: Config, k: nat)
    ensures |Collect(WarmupEvents(cfg, k), WarmupPassOf)| == k
    ensures forall i :: 0 <= i < k ==> Collect(WarmupEvents(cfg, k), WarmupPassOf)[i] == i + 1
  {
    WarmupNumbers(cfg, k);
    NumberedAt(k);
  }

  /** The events before the main loop: creating the save directory, then the warmup passes. */
  function PreEvents(cfg: Config, dir: DirState): (pre: seq<Event>)
    ensures forall i :: 0 <= i < |pre| ==> pre[i] == CreateSaveDir || (pre[i].TrainPass? && pre[i].phase == Warmup)
  {
    WarmupShape(cfg, Max0(cfg.warmup));
    DirEvents(dir) + WarmupEvents(cfg, Max0(cfg.warmup))
  }

  /** Whatever ignores directory creation and warmup passes sees nothing before the main loop. */
  lemma PreNothing<U>(cfg: Config, dir: DirState, pick: Event -> Option<U>)
    requires pick(CreateSaveDir).None?
    requires forall e, t, o :: pick(TrainPass(Warmup, e, t, o)).None?
    ensures Collect(PreEvents(cfg, dir), pick) == []
  {
    var pre := PreEvents(cfg, dir);
    forall i | 0 <= i < |pre| ensures pick(pre[i]).None? {
      if pre[i] != CreateSaveDir {
        assert pre[i] == TrainPass(Warmup, pre[i].epoch, pre[i].total, pre[i].optimizer);
      }
    }
    CollectNothing(pre, pick);
  }

  lemma PreWarmupNumbers(cfg: Config, dir: DirState)
    ensures Collect(PreEvents(cfg, dir), WarmupPassOf) == Numbered(Max0(cfg.warmup))
  {
    WarmupNumbers(cfg, Max0(cfg.warmup));
    CollectConcat(DirEvents(dir), WarmupEvents(cfg, Max0(cfg.warmup)), WarmupPassOf);
    CollectNothing(DirEvents(dir), WarmupPassOf);
  }

  /** Before the main loop there are Max0(warmup) warmup passes, numbered 1, 2, ... in order. */
  lemma PreWarmupPasses(cfg: Config, dir: DirState)
    ensures |Collect(PreEvents(cfg, dir), WarmupPassOf)| == Max0(cfg.warmup)
    ensures forall i :: 0 <= i < Max0(cfg.warmup) ==> Collect(PreEvents(cfg, dir), WarmupPassOf)[i] == i + 1
  {
    PreWarmupNumbers(cfg, dir);
    NumberedAt(Max0(cfg.warmup));
  }

  /** The warmup phase validates nothing, saves nothing, writes no audit line and does not step the scheduler. */
  lemma WarmupQuiet(cfg: Config, dir: DirState)
    ensures Collect(PreEvents(cfg, dir), EvalOf) == []
    ensures Collect(PreEvents(cfg, dir), BestSaveOf) == []
    ensures Collect(PreEvents(cfg, dir), AuditOf) == []
    ensures Collect(PreEvents(cfg, dir), StepOf) == []
    ensures Collect(PreEvents(cfg, dir), FileOf) == []
  {
    PreNothing(cfg, dir, EvalOf);
    PreNothing(cfg, dir, BestSaveOf);
    PreNothing(cfg, dir, AuditOf);
    PreNothing(cfg, dir, StepOf);
    PreNothing(cfg, dir, FileOf);
  }

  // ---------------------------------------------------------------------------------------------
  // Properties of a whole run

  /** The log of a completed run. */
  lemma CompletedLog(cfg: Config, file: string, dir: DirState, errs: seq<real>)
    requires ExpectedOutcome(cfg, dir) == Completed
    ensures ExpectedLog(cfg, file, dir, errs) == PreEvents(cfg, dir) + MainEvents(cfg, file, errs) + [SaveLast(LastFile(file))]
  {
  }

  /** The part of a completed run's log before the main loop, the main loop's part, and the final save. */
  lemma CompletedSplit<U>(cfg: Config, file: string, dir: DirState, errs: seq<real>, pick: Event -> Option<U>)
    requires ExpectedOutcome(cfg, dir) == Completed
    ensures Collect(ExpectedLog(cfg, file, dir, errs), pick) ==
              Collect(PreEvents(cfg, dir), pick) + Collect(MainEvents(cfg, file, errs), pick)
              + Picked(pick(SaveLast(LastFile(file))))
  {
    var pre := PreEvents(cfg, dir);
    var main := MainEvents(cfg, file, errs);
    CompletedLog(cfg, file, dir, errs);
    CollectConcat(pre + main, [SaveLast(LastFile(file))], pick);
    CollectConcat(pre, main, pick);
    CollectOne(SaveLast(LastFile(file)), pick);
  }
  /** A projection of a completed run's log that leaves out the final save is its projections of the two parts. */
  lemma RunPick<U>(cfg: Config, file: string, dir: DirState, errs: seq<real>, pick: Event -> Option<U>, pre: seq<U>, main: seq<U>)
    requires ExpectedOutcome(cfg, dir) == Completed
    requires Collect(PreEvents(cfg, dir), pick) == pre && Collect(MainEvents(cfg, file, errs), pick) == main
    requires pick(SaveLast(LastFile(file))).None?
    ensures Collect(ExpectedLog(cfg, file, dir, errs), pick) == pre + main
  {
    CompletedSplit(cfg, file, dir, errs, pick);
  }


  /** A completed run ends with the save of last_<file>, and saves it exactly once, whatever the validation errors. */
  lemma FinalSaveOnce(cfg: Config, file: string, dir: DirState, errs: seq<real>)
    requires ExpectedOutcome(cfg, dir) == Completed
    ensures Collect(ExpectedLog(cfg, file, dir, errs), LastSaveOf) == [LastFile(file)]
    ensures ExpectedLog(cfg, file, dir, errs)[|ExpectedLog(cfg, file, dir, errs)| - 1] == SaveLast(LastFile(file))
  {
    CompletedLog(cfg, file, dir, errs);
    CompletedSplit(cfg, file, dir, errs, LastSaveOf);
    PreNothing(cfg, dir, LastSaveOf);
    MainQuiet(cfg, file, errs);
    assert Picked(LastSaveOf(SaveLast(LastFile(file)))) == [LastFile(file)];
  }

  /** With no main epochs a completed run saves no best model and writes no audit line, yet still saves last_<file> once. */
  lemma NoEpochsNoCheckpoint(cfg: Config, file: string, dir: DirState, errs: seq<real>)
    requires ExpectedOutcome(cfg, dir) == Completed
    requires cfg.nEpochs <= 0 && |errs| == Max0(cfg.nEpochs)
    ensures Collect(ExpectedLog(cfg, file, dir, errs), BestSaveOf) == []
    ensures Collect(ExpectedLog(cfg, file, dir, errs), AuditOf) == []
    ensures Collect(ExpectedLog(cfg, file, dir, errs), EvalOf) == []
    ensures Collect(ExpectedLog(cfg, file, dir, errs), LastSaveOf) == [LastFile(file)]
  {
    CompletedSplit(cfg, file, dir, errs, BestSaveOf);
    CompletedSplit(cfg, file, dir, errs, AuditOf);
    CompletedSplit(cfg, file, dir, errs, EvalOf);
    FinalSaveOnce(cfg, file, dir, errs);
    WarmupQuiet(cfg, dir);
    assert errs == [];
  }

  /**
   * The audit file of a completed run holds the improvements, and the best model is saved at exactly
   * the epochs of its lines: strictly decreasing errors at strictly increasing epochs, each a new minimum.
   */
  lemma AuditTrailOfRun(cfg: Config, file: string, dir: DirState, errs: seq<real>)
    requires ExpectedOutcome(cfg, dir) == Completed
    ensures Collect(ExpectedLog(cfg, file, dir, errs), AuditOf) == Improvements(errs)
    ensures |Collect(ExpectedLog(cfg, file, dir, errs), BestSaveOf)| == |Improvements(errs)|
    ensures forall k :: 0 <= k < |Improvements(errs)| ==>
              Collect(ExpectedLog(cfg, file, dir, errs), BestSaveOf)[k] == Improvements(errs)[k].epoch
  {
    CompletedSplit(cfg, file, dir, errs, AuditOf);
    CompletedSplit(cfg, file, dir, errs, BestSaveOf);
    WarmupQuiet(cfg, dir);
    MainAudit(cfg, file, errs);
    MainBestSaves(cfg, file, errs);
  }

  lemma RunStepArguments(cfg: Config, file: string, dir: DirState, errs: seq<real>)
    requires ExpectedOutcome(cfg, dir) == Completed
    ensures Collect(ExpectedLog(cfg, file, dir, errs), StepOf) == StepArguments(cfg, errs)
  {
    PreNothing(cfg, dir, StepOf);
    MainStepArguments(cfg, file, errs);
    RunPick(cfg, file, dir, errs, StepOf, [], StepArguments(cfg, errs));
  }


  /** A completed run steps the scheduler once per main epoch, passing the validation error exactly for ReduceLROnPlateau. */
  lemma SchedulerStepsOfRun(cfg: Config, file: string, dir: DirState, errs: seq<real>)
    requires ExpectedOutcome(cfg, dir) == Completed
    ensures ChooseScheduler(cfg).Ok?
    ensures |Collect(ExpectedLog(cfg, file, dir, errs), StepOf)| == |errs|
    ensures forall i :: 0 <= i < |errs| ==>
              Collect(ExpectedLog(cfg, file, dir, errs), StepOf)[i] ==
                if ChooseScheduler(cfg).value.ReduceOnPlateau? then Some(errs[i]) else None
  {
    RunStepArguments(cfg, file, dir, errs);
    StepArgumentsAt(cfg, errs);
    forall i | 0 <= i < |errs|
      ensures StepArgument(cfg, errs[i]) == if ChooseScheduler(cfg).value.ReduceOnPlateau? then Some(errs[i]) else None
    {
      StepArgumentMatchesScheduler(cfg, errs[i]);
    }
  }

  lemma RunWarmupNumbers(cfg: Config, file: string, dir: DirState, errs: seq<real>)
    requires ExpectedOutcome(cfg, dir) == Completed
    ensures Collect(ExpectedLog(cfg, file, dir, errs), WarmupPassOf) == Numbered(Max0(cfg.warmup))
  {
    PreWarmupNumbers(cfg, dir);
    MainQuiet(cfg, file, errs);
    RunPick(cfg, file, dir, errs, WarmupPassOf, Numbered(Max0(cfg.warmup)), []);
  }


  lemma RunTrainNumbers(cfg: Config, file: string, dir: DirState, errs: seq<real>)
    requires ExpectedOutcome(cfg, dir) == Completed
    ensures Collect(ExpectedLog(cfg, file, dir, errs), MainPassOf) == Numbered(|errs|)
  {
    PreNothing(cfg, dir, MainPassOf);
    MainPassNumbers(cfg, file, errs);
    RunPick(cfg, file, dir, errs, MainPassOf, [], Numbered(|errs|));
  }


  lemma RunEvalNumbers(cfg: Config, file: string, dir: DirState, errs: seq<real>)
    requires ExpectedOutcome(cfg, dir) == Completed
    ensures Collect(ExpectedLog(cfg, file, dir, errs), EvalOf) == Numbered(|errs|)
  {
    PreNothing(cfg, dir, EvalOf);
    MainPassNumbers(cfg, file, errs);
    RunPick(cfg, file, dir, errs, EvalOf, [], Numbered(|errs|));
  }


  /**
   * A completed run makes Max0(warmup) warmup passes numbered 1..warmup before any main event, then
   * one training and one validation pass for each main epoch, numbered 1..n_epochs.
   */
  lemma PassesOfRun(cfg: Config, file: string, dir: DirState, errs: seq<real>)
    requires ExpectedOutcome(cfg, dir) == Completed
    ensures |Collect(ExpectedLog(cfg, file, dir, errs), WarmupPassOf)| == Max0(cfg.warmup)
    ensures forall i :: 0 <= i < Max0(cfg.warmup) ==> Collect(ExpectedLog(cfg, file, dir, errs), WarmupPassOf)[i] == i + 1
    ensures |Collect(ExpectedLog(cfg, file, dir, errs), MainPassOf)| == |errs|
    ensures forall i :: 0 <= i < |errs| ==> Collect(ExpectedLog(cfg, file, dir, errs), MainPassOf)[i] == i + 1
    ensures Collect(ExpectedLog(cfg, file, dir, errs), EvalOf) == Collect(ExpectedLog(cfg, file, dir, errs), MainPassOf)
  {
    RunWarmupNumbers(cfg, file, dir, errs);
    RunTrainNumbers(cfg, file, dir, errs);
    RunEvalNumbers(cfg, file, dir, errs);
    NumberedAt(Max0(cfg.warmup));
    NumberedAt(|errs|);
  }

  /** Three main epochs after one warmup epoch: one warmup pass, then three training and three validation passes. */
  lemma ThreeEpochsAfterOneWarmup(cfg: Config, file: string, dir: DirState, errs: seq<real>)
    requires ExpectedOutcome(cfg, dir) == Completed
    requires cfg.nEpochs == 3 && cfg.warmup == 1 && |errs| == 3
    ensures Collect(ExpectedLog(cfg, file, dir, errs), WarmupPassOf) == [1]
    ensures Collect(ExpectedLog(cfg, file, dir, errs), MainPassOf) == [1, 2, 3]
    ensures Collect(ExpectedLog(cfg, file, dir, errs), EvalOf) == [1, 2, 3]
  {
    RunWarmupNumbers(cfg, file, dir, errs);
    RunTrainNumbers(cfg, file, dir, errs);
    RunEvalNumbers(cfg, file, dir, errs);
    assert Numbered(3) == [1, 2, 3];
  }

  // ---------------------------------------------------------------------------------------------
  // Calibration

  datatype CalibrationEvent = LoadState(file: string) | FitTemperature | SaveCalibrated(file: string)

  /**
   * calibrate: load the checkpoint `modelFile` of the save directory, whose files are `files`, fit the
   * temperature on the validation data and save the calibrated model. A missing checkpoint is fatal.
   */
  function Calibrate(files: set<string>, modelFile: string, calibratedFile: string): (r: Result<seq<CalibrationEvent>, TrainError>)
    ensures r.Err? <==> modelFile !in files
    ensures r.Err? ==> r.error == MissingCheckpoint(modelFile)
    ensures r.Ok? ==> r.value == [LoadState(modelFile), FitTemperature, SaveCalibrated(calibratedFile)]
  {
    if modelFile !in files then Err(MissingCheckpoint(modelFile))
    else Ok([LoadState(modelFile), FitTemperature, SaveCalibrated(calibratedFile)])
  }

  /** The files of the save directory after a log's writes. */
  function FilesAfter(files: set<string>, log: seq<Event>): set<string>
  {
    files + set f | f in Collect(log, FileOf)
  }

  /** A completed run writes (or overwrites) the checkpoint <file> exactly when some validation error falls below 1. */
  lemma CheckpointWritten(cfg: Config, file: string, dir: DirState, errs: seq<real>)
    requires ExpectedOutcome(cfg, dir) == Completed
    ensures file in Collect(ExpectedLog(cfg, file, dir, errs), FileOf) <==> exists i :: 0 <= i < |errs| && errs[i] < 1.0
  {
    var written := Collect(ExpectedLog(cfg, file, dir, errs), FileOf);
    var main := Collect(MainEvents(cfg, file, errs), FileOf);
    CompletedSplit(cfg, file, dir, errs, FileOf);
    PreNothing(cfg, dir, FileOf);
    assert written == main + [LastFile(file)];
    assert LastFile(file) != file by {
      assert |LastFile(file)| == |file| + 5;
    }
    assert file in written <==> file in main;
    MainFiles(cfg, file, errs);
    SomeImprovementIff(errs);
  }

  /**
   * Training followed by calibration on the same directory and file name: calibration finds its
   * checkpoint exactly when the file was already there or some validation error fell below 1.
   */
  lemma CalibrateAfterTrain(cfg: Config, file: string, calibratedFile: string, dir: DirState, errs: seq<real>, files: set<string>)
    requires ExpectedOutcome(cfg, dir) == Completed
    ensures Calibrate(FilesAfter(files, ExpectedLog(cfg, file, dir, errs)), file, calibratedFile).Ok? <==>
              file in files || exists i :: 0 <= i < |errs| && errs[i] < 1.0
  {
    CheckpointWritten(cfg, file, dir, errs);
  }
}
