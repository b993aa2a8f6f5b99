# MLLib training driver and network builders, modelled in Dafny

This project models the core of MLLib, a PyTorch library for training image classifiers. The model covers three parts.

**The training driver** (`run/step_train_network.py`). `train` takes these steps:
- It creates the save directory, or fails when the path is not a directory.
- It chooses the weight initialisation, the loss, the optimizer and the learning-rate scheduler from the training parameters.
- It runs `warmup` warmup epochs with a separate SGD optimizer, at a tenth of the learning rate and with no weight decay.
- It runs `n_epochs` main epochs. Each one has a training pass (`run_epoch` or `run_epoch_fast`), a validation pass, the best-error rule and one scheduler step.
- It saves `last_<file>` at the end.

Under the best-error rule, `best_error` starts at 1. An epoch is a new best only when its validation error is strictly smaller. Each new best saves the checkpoint and appends a line to `model_ckpt_detail.txt`.

A run is modelled as a log of events in order:
- the directory creation;
- the training and evaluation passes;
- the checkpoint saves;
- the audit lines;
- the scheduler steps (with their argument);
- the final save.

`Trainer.Train` is an imperative method. It is proved to produce exactly `Trainer.ExpectedLog`, and the lemmas prove what that log contains.

The epoch runners are modelled in `EpochRunner.RunEpoch`:
- the per-batch loss and top-1 error;
- the fast runner's guard that steps only on a positive loss;
- the optimizer's `n_iters` attribute, which is created at 1 and then incremented.

`calibrate` is modelled as a function of the files present. It fails exactly when the checkpoint file is missing.

**DenseNet-BC** (`models/densenet_2.py`). The model covers:
- the choice of stem;
- the loop that adds dense blocks and transitions while folding the feature width;
- `norm5` and the classifier over the final width;
- the initialisation loop over the modules;
- the four presets;
- `obtain_densenet`.

**Wide ResNet** (`models/wide_resnet.py`). The model covers:
- the `6n + 4` depth check;
- the stage widths `16, 16k, 32k, 64k` and strides `1, 2, 2`;
- `_wide_layer`, which threads `in_planes` through the blocks of a stage;
- the WideBasic rule for a projection shortcut;
- `conv_init` / `conv_leak_init`, which dispatch on the class name;
- the presets;
- `obtain_wide_resnet`.

A network's modules are `LayerInit.Layer` values: a class name plus the state of the weight and the bias. `LayerInit.ApplyInit` applies an initialisation rule in place over an array of modules. A rule that meets a missing parameter fails, as `torch.nn.init.constant_(None, 0)` would. The writes it made before failing stay in place.

When the scheduler is chosen, only the plateau test checks that `lr_scheduler` is present, and the later branches read the key directly. So a configuration without `lr_scheduler` ends in a missing-key error (`Trainer.ChooseScheduler`); it does not fall through to the default schedule. Likewise, `run_epoch` is read only inside the main loop, so its absence is an error only when there is at least one main epoch.

Modules: `Outcomes` (Option, Result), `TopOne`, `EpochRunner`, `Trainer`, `LayerInit`, `DenseNet`, `WideResNet`.

## Model

| member | source | states |
|---|---|---|
| TopOne.ArgMax | run/step_train_network.py:72 | the top-1 prediction is a position of a largest logit, and no earlier position holds an equal logit |
| TopOne.CorrectCount | run/step_train_network.py:73 | the number of correct rows is at most the batch size; it equals the size iff every row is correct, and 0 iff none is |
| TopOne.BatchError | run/step_train_network.py:72-73 | the batch top-1 error lies in [0, 1]; it is 0 iff every row is predicted correctly and 1 iff none is |
| TopOne.CorrectCountIsSize | run/step_train_network.py:73 | the running count of correct rows equals the number of row positions whose prediction is correct |
| TopOne.BatchErrorCounts | run/step_train_network.py:72-73 | the batch top-1 error is one minus the fraction of rows whose prediction is correct |
| TopOne.StrictMaximumIsCorrect | run/step_train_network.py:144-145 | a row whose target logit is strictly above every other logit counts as correct, whatever the tie-breaking |
| TopOne.BeatenTargetIsWrong | run/step_train_network.py:144-145 | a row with some logit strictly above the target's counts as wrong |
| EpochRunner.Optimizer.constructor | run/step_train_network.py:212-217 | a new optimizer has no n_iters attribute and no steps taken |
| EpochRunner.IterationsCount | run/step_train_network.py:61 | after k > 0 training batches n_iters is its old value plus k, a missing attribute counting as 0; after none it is unchanged |
| EpochRunner.FreshIterations | run/step_train_network.py:133 | on a fresh optimizer n_iters equals the number of training batches once there was one, and stays absent otherwise |
| EpochRunner.IterationsAdd | run/step_train_network.py:61 | updating n_iters over a batches and then b batches is the same as over a + b batches |
| EpochRunner.StepCountBounds | run/step_train_network.py:58-60 | the fast runner never takes more steps than there are batches, takes none when no loss is positive and one per batch when every loss is; the standard runner steps on every batch |
| EpochRunner.RunBatch | run/step_train_network.py:46-152 | one batch of either runner returns its loss and its top-1 error; in training mode n_iters advances by one and a step is taken unless the fast runner meets a non-positive loss; in evaluation mode the optimizer is unchanged |
| EpochRunner.RunEpoch | run/step_train_network.py:33-176 | one pass returns each batch's loss and top-1 error in order; in training mode n_iters advances once per batch and the step count by the guarded steps; in evaluation mode the optimizer is unchanged |
| Trainer.ChooseInit | run/step_train_network.py:200-203 | weight_init selects Xavier exactly for "xavier", Kaiming exactly for "kaiming", and the model's own initialisation for every other name |
| Trainer.ChooseLoss | run/step_train_network.py:207-210 | loss_fn selects the margin loss exactly for "MarginLoss", and cross-entropy otherwise |
| Trainer.ChooseOptimizer | run/step_train_network.py:212-217 | the optimizer is Adam exactly when the optimizer key is present and "Adam"; it takes lr and wd from the configuration; otherwise it is SGD with the configured momentum and Nesterov |
| Trainer.ChooseScheduler | run/step_train_network.py:218-225 | choosing the scheduler fails exactly when lr_scheduler is missing, with the missing-key error; otherwise the plateau scheduler is chosen exactly for "ReduceLROnPlateau" |
| Trainer.ChooseSetup | run/step_train_network.py:200-225 | the choices made before training fail exactly when the scheduler key is missing; otherwise they are the initialisation, loss, optimizer and scheduler each key selects |
| Trainer.WarmupOptimizer | run/step_train_network.py:233 | the warmup optimizer is SGD with Nesterov momentum at the configured momentum, a tenth of the learning rate and no weight decay |
| Trainer.StepArgument | run/step_train_network.py:291-294 | a main epoch passes an argument to the scheduler step exactly for the plateau scheduler, and that argument is the validation error |
| Trainer.BestAfter | run/step_train_network.py:247-284 | the best error after some epochs is at most 1 and at most the error of the last one |
| Trainer.SchedulerChoice | run/step_train_network.py:218-225 | a missing lr_scheduler key is a missing-key error; ReduceLROnPlateau gives patience 20; the two named multi-step schedules have fixed milestones and decay; any other name gives milestones at half and three quarters of n_epochs with decay 0.1 |
| Trainer.StepArgumentMatchesScheduler | run/step_train_network.py:291-294 | the scheduler step receives the validation error exactly when the chosen scheduler is the plateau scheduler |
| Trainer.RunWarmup | run/step_train_network.py:232-244 | the warmup produces one training pass per warmup epoch with the warmup optimizer; its optimizer's n_iters and steps count every warmup batch |
| Trainer.RunWarmupEpoch | run/step_train_network.py:235-244 | one warmup epoch is a standard training pass: n_iters advances by the number of batches and every batch takes a step |
| Trainer.RunMainEpochs | run/step_train_network.py:247-294 | the main loop fails exactly when there is an epoch and no run_epoch key; otherwise it produces the main-epoch events and the best error of the specification, and advances the optimizer by every batch and every guarded step |
| Trainer.RunMainEpoch | run/step_train_network.py:248-294 | one main epoch yields the specified events for its number and error, lowers the best error exactly when its error is below it, and advances the optimizer by its batches and guarded steps |
| Trainer.Train | run/step_train_network.py:179-297 | a run's outcome is a directory error, a missing-key error or completion as the configuration and the save path dictate; its log is exactly the specified log; on completion the best error and the optimizer counters are those of the specification; a run that gets past the directory check and the scheduler choice reports the initialisation, loss, optimizer and scheduler it chose, and any other run reports none |
| Trainer.BestIsMinimum | run/step_train_network.py:247-284 | best_error is at most 1 and at most every validation error, and it is 1 or one of the errors |
| Trainer.ImprovesIff | run/step_train_network.py:283 | epoch j is a new best iff its error is below 1 and strictly below every earlier error |
| Trainer.TiesKeepEarlier | run/step_train_network.py:283 | an epoch whose error is not below an earlier epoch's is never a new best, so ties keep the earlier checkpoint |
| Trainer.ImprovementsNamed | run/step_train_network.py:283-289 | every audit record names an epoch that is a new best, with that epoch's error |
| Trainer.ImprovementsDecrease | run/step_train_network.py:283-289 | audit records have strictly increasing epochs and strictly decreasing errors; there are none iff the best stays 1; the last one holds the final best error |
| Trainer.SomeImprovementIff | run/step_train_network.py:283-289 | some audit line is written iff some validation error is below 1 |
| Trainer.ImprovementRecorded | run/step_train_network.py:283-289 | the record (j + 1, errors[j]) is in the audit trail iff epoch j is a new best |
| Trainer.MainAudit | run/step_train_network.py:288-289 | the audit lines of the main epochs are exactly the improvement records |
| Trainer.MainBestSaves | run/step_train_network.py:285-287 | the main epochs save the best checkpoint once per improvement, at the epoch it names |
| Trainer.EpochPasses | run/step_train_network.py:248-294 | one main epoch has one training pass and one evaluation pass at its number and exactly one scheduler step, and no warmup pass or final save |
| Trainer.EpochFiles | run/step_train_network.py:285-289 | one main epoch writes the checkpoint and then the audit file when it improves, and no file otherwise |
| Trainer.MainSchedulerSteps | run/step_train_network.py:291-294 | the main epochs step the scheduler once each, in order, with the argument the scheduler name selects |
| Trainer.MainStepArguments | run/step_train_network.py:291-294 | the scheduler arguments of the main epochs are, in order, the argument each epoch's error calls for |
| Trainer.StepArgumentsAt | run/step_train_network.py:291-294 | the list of scheduler arguments has one entry per epoch, the one that epoch's error calls for |
| Trainer.MainPasses | run/step_train_network.py:248-280 | the main epochs train on epochs 1..n in order, and evaluate after each one |
| Trainer.MainPassNumbers | run/step_train_network.py:248-280 | the training passes and the evaluation passes of the main epochs are both exactly 1, 2, ..., n |
| Trainer.MainQuiet | run/step_train_network.py:248-294 | the main epochs contain no warmup pass and no final save |
| Trainer.MainFiles | run/step_train_network.py:285-289 | the main epochs write the checkpoint file and the audit file exactly when some error is below 1, and no other file |
| Trainer.WarmupShape | run/step_train_network.py:232-244 | warmup epoch i is a training pass numbered i of `warmup`, with SGD at a tenth of the learning rate |
| Trainer.WarmupPasses | run/step_train_network.py:234 | the warmup trains on epochs 1..warmup in order |
| Trainer.WarmupNumbers | run/step_train_network.py:234-244 | the warmup passes are exactly 1, 2, ..., warmup |
| Trainer.PreEvents | run/step_train_network.py:194-244 | everything before the main loop is the directory creation or a warmup training pass |
| Trainer.PreWarmupPasses | run/step_train_network.py:232-244 | before the main loop there are max(0, warmup) warmup passes numbered 1, 2, ... |
| Trainer.WarmupQuiet | run/step_train_network.py:232-244 | nothing before the main loop evaluates, saves, audits or steps the scheduler |
| Trainer.CompletedLog | run/step_train_network.py:179-297 | a completed run's log is the part before the main loop, then the main epochs, then the final save |
| Trainer.FinalSaveOnce | run/step_train_network.py:296 | a completed run saves `last_<file>` exactly once, as its last event |
| Trainer.NoEpochsNoCheckpoint | run/step_train_network.py:247-296 | with no main epoch a completed run saves no best checkpoint, writes no audit line, evaluates nothing and still saves the last model |
| Trainer.AuditTrailOfRun | run/step_train_network.py:283-289 | a completed run's audit lines are exactly the improvement records, each with one best-checkpoint save at its epoch |
| Trainer.SchedulerStepsOfRun | run/step_train_network.py:218-294 | a completed run has a valid scheduler; it steps it once per main epoch, with the validation error exactly when it is the plateau scheduler |
| Trainer.PassesOfRun | run/step_train_network.py:232-280 | a completed run trains on warmup epochs 1..warmup and then main epochs 1..n, and evaluates after each main epoch |
| Trainer.ThreeEpochsAfterOneWarmup | run/step_train_network.py:232-280 | with one warmup epoch and three main epochs, the passes are warmup [1], training [1, 2, 3] and evaluation [1, 2, 3] |
| Trainer.Calibrate | run/step_train_network.py:299-336 | calibration fails with a missing-checkpoint error iff the model file is absent; otherwise it loads it, fits the temperature and saves the calibrated model |
| Trainer.CheckpointWritten | run/step_train_network.py:283-289 | a completed run writes the model file iff some validation error is below 1 |
| Trainer.CalibrateAfterTrain | run/step_train_network.py:381-383 | calibration after a completed run succeeds iff the model file existed before or some validation error was below 1 |
| LayerInit.Fill | models/densenet_2.py:70-73 | filling a parameter with a constant fails iff the parameter is missing, and otherwise gives that constant |
| LayerInit.Kaiming | models/wide_resnet.py:24 | Kaiming initialisation fails iff the parameter is missing, and otherwise records the slope |
| LayerInit.Contains | models/wide_resnet.py:23 | a substring test that holds only for a pattern no longer than the name, and always for the empty pattern |
| LayerInit.ContainsIff | models/wide_resnet.py:23 | the substring test `find(sub) != -1` holds iff sub occurs at some position |
| LayerInit.SetBoth | models/wide_resnet.py:24-28 | setting a module's weight and then its bias fails iff either is missing; success sets both; a missing weight leaves the module as it was; a missing bias leaves the new weight written |
| LayerInit.DenseNetInit | models/densenet_2.py:65-73 | Conv2d gets Kaiming weights with slope 0; BatchNorm2d gets weight 1 and bias 0; Linear gets bias 0; each fails iff a parameter it sets is missing; a BatchNorm2d without a bias keeps its weight of 1; every other module is unchanged |
| LayerInit.NameInit | models/wide_resnet.py:21-37 | a class name containing "Conv" gets Kaiming weights and bias 0; otherwise one containing "BatchNorm" gets weight 1 and bias 0; each fails iff weight or bias is missing; a missing bias leaves the weight already written; every other module is unchanged |
| LayerInit.LeakDiffersOnlyInSlope | models/wide_resnet.py:21-37 | conv_leak_init succeeds iff conv_init does, and differs from it only in the slope 0.2 on convolution weights |
| LayerInit.InitIdempotent | models/densenet_2.py:65-73 | a second application of either rule records the same rule tags (the model's abstraction of a Kaiming draw) |
| LayerInit.RulesCompared | models/densenet_2.py:65-73 | on Conv2d the class-name rule also zeroes the bias; on BatchNorm2d the two rules agree; on Linear only the DenseNet rule acts |
| LayerInit.ConvWithoutBiasKeepsWeight | models/wide_resnet.py:22-25 | conv_init on a convolution without a bias fails after writing its Kaiming weights, which stay |
| LayerInit.NeitherRuleName | models/wide_resnet.py:21-28 | a class name with no C where "Conv" would fit and no B where "BatchNorm" would fit matches neither branch of conv_init |
| LayerInit.ApplyInit | models/densenet_2.py:66 | applying a rule in place over the modules succeeds iff the rule succeeds on every module, which is then initialised; on failure the modules before the first failing one are initialised, the failing one keeps the writes its rule made before raising, and the rest are unchanged |
| DenseNet.Stem | models/densenet_2.py:29-43 | small inputs give exactly conv0 (3 to num_init_features, 3x3, stride 1, padding 1); otherwise exactly conv0 (7x7, stride 2, padding 3), norm0 over num_init_features, relu0 and pool0 (3, stride 2, padding 1) |
| DenseNet.StemChannels | models/densenet_2.py:29-43 | either stem takes the 3 input channels to num_init_features, each module fitting the channels it receives |
| DenseNet.FoldWidth | models/densenet_2.py:45-57 | with non-negative widths, growth and layer counts the folded width is non-negative |
| DenseNet.Layout | models/densenet_2.py:45-57 | the loop adds only dense blocks and transitions |
| DenseNet.LayoutChannels | models/densenet_2.py:45-57 | every dense block and transition is built for the width it receives, and the chain ends with the folded width |
| DenseNet.ChannelsConcat | models/densenet_2.py:29-60 | the channels through two chains of modules in a row are those through the second, entered with what the first delivers |
| DenseNet.FeaturesChannels | models/densenet_2.py:29-63 | the whole feature stack, stem, blocks, transitions and norm5, fits together from 3 channels and ends with the width the classifier takes |
| DenseNet.WidthBeforeStep | models/densenet_2.py:52-57 | each block is entered with half (rounded down) the width the previous block ends with |
| DenseNet.FoldWidthLast | models/densenet_2.py:45-57 | the final width is the last block's entry width plus its layers times the growth rate |
| DenseNet.FourBlockWidth | models/densenet_2.py:45-57 | with four blocks the width grows and halves three times, then grows once more |
| DenseNet.LayoutAt | models/densenet_2.py:45-57 | blocks and transitions alternate: block j + 1 at position 2j with its layer count and entry width, transition j + 1 after it halving that block's output width, and no transition after the last block |
| DenseNet.WidthsThread | models/densenet_2.py:45-63 | the first block sees num_init_features; each block after a transition sees that transition's output width; the last block ends with the width norm5 and the classifier take |
| DenseNet.DenseNet.constructor | models/densenet_2.py:23-63 | the features are the stem, the block layout and norm5 over the folded width; the classifier maps the folded width to num_classes |
| DenseNet.OwnModulesInitialise | models/densenet_2.py:65-73 | the initialisation loop succeeds on every module the constructor creates, gives conv0 Kaiming weights without a bias and the classifier a zero bias |
| DenseNet.PresetArgs | models/densenet_2.py:108-160 | exactly the four preset names give arguments, each with bn_size 4, small inputs, four blocks and the caller's classes and dropout |
| DenseNet.PresetWidths | models/densenet_2.py:115-148 | the presets end with widths 1024 (121), 1664 (169), 2208 (161) and 1920 (201) |
| DenseNet.ObtainDenseNet | models/densenet_2.py:152-160 | obtain_densenet builds the named preset's network, and no network for any other name |
| WideResNet.NewWideBasic | models/wide_resnet.py:39-53 | a block has a projection shortcut (from in_planes to planes at the block's stride) exactly when the stride is not 1 or the width changes |
| WideResNet.ShortcutMatchesMainPath | models/wide_resnet.py:47-53 | the shortcut always delivers planes channels at the block's stride, like the main path, and is the identity whenever that suffices |
| WideResNet.BlocksPerStage | models/wide_resnet.py:73-74 | the depth check succeeds iff depth is 6n + 4, and then gives n |
| WideResNet.StageStrides | models/wide_resnet.py:87 | a stage's strides are its stride followed by ones, max(0, n - 1) of them, so it has n blocks for n >= 1 and always at least one |
| WideResNet.StageBlocks | models/wide_resnet.py:86-94 | a stage has one block per stride, each with the stage's planes |
| WideResNet.StageBlocksAt | models/wide_resnet.py:86-94 | block i of a stage has the i-th stride and is entered with in_planes for the first block and planes for the rest |
| WideResNet.StageShape | models/wide_resnet.py:86-94 | every block of a stage outputs planes; only the first carries the stage stride and may project; later blocks keep the identity |
| WideResNet.WideResNet.WideLayer | models/wide_resnet.py:86-94 | `_wide_layer` builds the stage's blocks from the current in_planes and leaves in_planes equal to planes |
| WideResNet.WideResNet.constructor | models/wide_resnet.py:67-84 | after the depth check the network has conv1 (3 to 16), three stages of widths 16k, 32k, 64k and strides 1, 2, 2, bn1 over 64k with momentum 0.9, a linear layer from 64k, and in_planes 64k |
| WideResNet.StagesThread | models/wide_resnet.py:77-84 | the stages thread their widths from 16 to 64k; stage 1's first block projects iff k is not 1; stages 2 and 3 always project first; all later blocks keep the identity |
| WideResNet.ShallowDepthsKeepOneBlock | models/wide_resnet.py:74-87 | an admissible depth of at most 10 still builds one block per stage |
| WideResNet.NewWideResNet | models/wide_resnet.py:67-84 | construction fails with the depth error iff depth is not 6n + 4, and otherwise builds the network with n blocks per stage |
| WideResNet.NetModulesInitialise | models/wide_resnet.py:21-37 | the class-name rule, with any slope, succeeds on every module of a Wide ResNet |
| WideResNet.ObtainArgs | models/wide_resnet.py:159-165 | exactly the three names give a preset, never the leaky one, always with conv_init and the caller's classes and dropout |
| WideResNet.PresetsBuild | models/wide_resnet.py:111-157 | every preset passes the depth check (4 blocks per stage at depth 28, 6 at depth 40), with final widths 640, 640, 768 and 128 |
| WideResNet.BuildPreset | models/wide_resnet.py:111-157 | a preset builds its network and applies its rule to all of its modules without failure |
| WideResNet.ObtainWideResNet | models/wide_resnet.py:159-165 | obtain_wide_resnet builds the named preset's non-leaky network, and no network for any other name |

## Left out

- Tensor numerics are not modelled: convolutions, batch norm, forward passes, losses, backpropagation and the optimizer updates. A batch is given by its output rows and its scalar loss.
- The random values Kaiming initialisation draws are not modelled. So are the Xavier and Kaiming helpers `train` calls for `weight_init`, whose code is not part of this model; only the choice among them is modelled.
- `get_model`, the data loaders, `move_to_device`, `Meter`, `MarginLoss` and `ModelWithTemperature` are not part of this model. Their effects are inputs (batch results, validation errors) or abstract events (`FitTemperature`).
- Trainer.Train: the keys weight_init, loss_fn, n_epochs, lr, wd, warmup and momentum (read for SGD and for the warmup optimizer) are taken to be present. Without one the source raises KeyError (run/step_train_network.py:200-236); `Config` cannot represent that case, so the model has no such error path.
- Train: the validation error of each main epoch is an input. It is not the mean the error meter would compute over the validation pass, because `Meter` is not part of this model.
- Floating point is modelled by reals. Learning rates, losses and errors carry no rounding.
- File contents, printing, timing, the command-line parser, the `CMDs` command log and the device choice are left out. Saves and audit lines are log events; the initial contents of the save directory are a parameter of `Calibrate`.
- TopOne.ArgMax: torch.topk does not fix how ties are broken; the model takes the first largest logit. `StrictMaximumIsCorrect` and `BeatenTargetIsWrong` hold whatever the tie-breaking.
- TopOne.BatchError: it requires a non-empty batch whose rows have at least one class. The source would produce NaN or a tensor error there.
- Module class tests use the exact class name, because no subclass of `Conv2d`, `BatchNorm2d` or `Linear` appears in these networks.
- The inner modules of torchvision's `_DenseBlock` and `_Transition` are not listed in `DenseNet.OwnModules`; they come from a library that is not part of this model.
- DenseNet.DenseNet.constructor: the class does not hold parameter states, so its contract does not state the initialisation. `OwnModulesInitialise` states it for the modules the constructor creates.
- WideResNet.ObtainWideResNet: its contract does not state the initialised parameters, because the WideResNet class does not hold parameter states. `BuildPreset` states them on an array of modules.
- The module lists `OwnModules` and `NetModules` are written out by hand; they hold every module of the network, the network first. `self.modules()` visits a parent before its children, while `net.apply` visits the children first. The order only matters for which module fails first, and no module of these networks fails.
- The `pretrained` message in `_densenet` (printing only) and the unused `pretrained`, `progress` and `small_inputs` arguments of the Wide ResNet presets are left out.
- `n = (depth - 4) / 6` is a Python float, but after the depth check it is an exact whole number, so an integer models it.
- Widths and layer counts are unbounded integers. PyTorch's checks on non-positive sizes are not modelled.
