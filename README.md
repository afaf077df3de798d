# IndoNLI fine-tuning loop and image-header sniffing, modelled in Dafny

This project models two pieces of the `logging_experiment` repository.

The first is `imghdr.what`, the image-format sniffer of `imghdr.py`. Thirteen byte-pattern tests
(JPEG, PNG, GIF, TIFF, SGI RGB, PBM, PGM, PPM, Sun raster, XBM, BMP, WebP, OpenEXR) are tried in
a fixed order on the first bytes of a header. The name of the first test that fires is
returned, or `None` if none fires. The module `ImageHeader` (`image_header.dfy`) covers this.
- Headers are byte sequences.
- Python's clamping slices and `startswith` are written out.
- `What` is the search loop. It is proved equal to a recursive first-match function.
- The lemmas state what each test accepts, and how test order decides overlapping headers.

The second is the custom training loop of `finetune_indonli.py`, modelled in `Training`
(`training.dfy`). It covers:
- the gradient-accumulation counter;
- the loss totals;
- the history lists;
- the best-metric and patience policy;
- the checkpoint trigger of `train_model`;
- the averaging and prediction/label bookkeeping of `eval_model`;
- the total-step arithmetic given to the scheduler.

The model, optimizer, scheduler and data loaders are replaced by a scripted stub:
- The loss of every training batch is an input. The loss and per-sample predictions and labels of every evaluation batch are inputs too. They are exact rationals (`real`).
- Every call made on the collaborators is recorded as an event in a trace: gradient clipping, optimizer step, scheduler step, `zero_grad` and checkpoint save.
- The gradient buffer is modelled as the list of batches back-propagated since the last `zero_grad`. Each optimizer step records exactly which batches' gradients it applies.

`train_model`, its inner batch loop and `eval_model` are methods with loops. Each is
proved equal to a recursive specification (`RunEpochs`, `AfterBatches`, `Evaluate`). The lemmas
about those specifications give the loop's guarantees:
- one history entry per epoch;
- `best_metric` is the running maximum;
- a checkpoint after exactly the improving epochs;
- early stopping exactly when the streak of non-improving epochs reaches the patience;
- `N / k` optimizer steps per epoch;
- gradients of a short trailing group carried into the next epoch.

Every `ZeroDivisionError` that `train_model`, `eval_model` and the total-step computation
can raise is modelled as an outcome, tagged with its line:
- accumulation factor 0 at line 171;
- an empty training loader at line 180;
- an empty evaluation loader at line 240;
- factor 0 at line 346, in `main`.

`random_swap`, the word-swap augmentation, is modelled in `Augment` (`augment.dfy`). It is an
in-place method on an array. The random draws are an input.

The model follows the code, not the intended design, where the two differ, with one
exception: the save of the tokenizer at line 203 raises NameError as written. The run
(`EpochStep`, `RunEpochs`, `TrainAndEvaluate`, `TrainModel`) uses the corrected policy
`ApplyPolicy`, and the code as written is modelled beside it (see "## Findings").
- `train_model` called directly does not reject configuration errors before training. An accumulation factor of 0 raises only at the first batch, after that batch's loss has been back-propagated. A negative factor or a patience below 1 is accepted. Patience of 1 or less stops after the first epoch that does not improve. When the script's `main` runs, a factor of 0 already raises at line 346, before `train_model` is called at line 358.
- An empty training loader raises only after the epoch's (empty) batch loop has run.

## Model

| member | source | states |
|---|---|---|
| ImageHeader.Name | imghdr.py:31-122 | the string each test returns, `'jpeg'` to `'exr'`; the thirteen are distinct (`NameIsInjective`) |
| ImageHeader.Slice | imghdr.py:33 | Python's `h[lo:hi]` clamps to the header: the slice has the full width exactly when the header is long enough, and is the ordinary subsequence then |
| ImageHeader.StartsWith | imghdr.py:40 | Python's `h.startswith(p)`: `p` is a prefix of the header; the prefix tests' exact byte conditions are stated in `PngIsSignaturePrefix` and `PrefixTestsAreMagicNumbers` |
| ImageHeader.TestJpeg | imghdr.py:31-35 | `test_jpeg`: bytes 6..9 of the clamped slice are `JFIF` or `Exif`; `JpegNeedsTenBytes` states it on the raw header |
| ImageHeader.TestPng | imghdr.py:38-42 | `test_png`: the header starts with the eight-byte PNG signature (`PngIsSignaturePrefix`) |
| ImageHeader.TestGif | imghdr.py:45-49 | `test_gif`: the first six bytes are `GIF87a` or `GIF89a` (`PrefixTestsAreMagicNumbers`) |
| ImageHeader.TestTiff | imghdr.py:52-56 | `test_tiff`: the first two bytes are `MM` or `II` (`PrefixTestsAreMagicNumbers`, `TiffUnlessJpeg`) |
| ImageHeader.TestRgb | imghdr.py:59-63 | `test_rgb`: the header starts with bytes 1, 218 (`PrefixTestsAreMagicNumbers`) |
| ImageHeader.TestPbm | imghdr.py:66-71 | `test_pbm`: `P`, then `1` or `4`, then a whitespace byte (`PnmShape`, `PnmTestsAreExclusive`) |
| ImageHeader.TestPgm | imghdr.py:74-79 | `test_pgm`: `P`, then `2` or `5`, then a whitespace byte (`PnmShape`, `PnmTestsAreExclusive`) |
| ImageHeader.TestPpm | imghdr.py:82-87 | `test_ppm`: `P`, then `3` or `6`, then a whitespace byte (`PnmShape`, `PnmTestsAreExclusive`) |
| ImageHeader.TestRast | imghdr.py:90-94 | `test_rast`: the header starts with the Sun raster magic number (`PrefixTestsAreMagicNumbers`) |
| ImageHeader.TestXbm | imghdr.py:97-101 | `test_xbm`: the header starts with `#define ` (`PrefixTestsAreMagicNumbers`) |
| ImageHeader.TestBmp | imghdr.py:104-108 | `test_bmp`: the header starts with `BM` (`PrefixTestsAreMagicNumbers`, `JpegShadowsBmp`) |
| ImageHeader.TestWebp | imghdr.py:111-115 | `test_webp`: `RIFF` at the start and `WEBP` at bytes 8..11 (`WebpNeedsRiffAndWebp`) |
| ImageHeader.TestExr | imghdr.py:118-122 | `test_exr`: the header starts with the OpenEXR magic number (`PrefixTestsAreMagicNumbers`) |
| ImageHeader.Matches | imghdr.py:20-21 | a test's result is truthy: each format is dispatched to its own test; `EmptyHeaderIsUnknown` shows none accepts the empty header |
| ImageHeader.FirstMatch | imghdr.py:19-22 | the search returns nothing exactly when no test in the list fires, and otherwise a test of the list that fires |
| ImageHeader.Classify | imghdr.py:19-26 | the first of the thirteen formats, in the order they are appended to `tests`, whose test fires (`FirstMatchIsEarliest`, `FirstMatchHasEarliestIndex`); `What` is proved equal to it |
| ImageHeader.NameOf | imghdr.py:19-26 | the name of the format found, or `None` when no test fired; `What` is proved to return it |
| ImageHeader.What | imghdr.py:7-26 | `what(None, h)` returns `None` exactly when no test fires; otherwise it returns the known format name of a matching test that every earlier test declined |
| ImageHeader.FirstMatchIsEarliest | imghdr.py:19-22 | the earliest test that fires is the one reported |
| ImageHeader.FirstMatchHasEarliestIndex | imghdr.py:19-22 | whatever is reported fires and sits after tests that all declined |
| ImageHeader.NameIsInjective | imghdr.py:31-122 | the thirteen tests return thirteen distinct names, so the name identifies the format |
| ImageHeader.EmptyHeaderIsUnknown | imghdr.py:19-26 | an empty header matches no test and yields `None` |
| ImageHeader.JpegNeedsTenBytes | imghdr.py:31-35 | JPEG is recognised exactly when bytes 6..9 are `JFIF` or `Exif`, which needs ten bytes |
| ImageHeader.PngIsSignaturePrefix | imghdr.py:38-42 | PNG is recognised exactly by its eight-byte signature at the start |
| ImageHeader.PrefixTestsAreMagicNumbers | imghdr.py:45-122 | GIF, TIFF, RGB, Sun raster, XBM, BMP and EXR are each recognised exactly by their magic number at the start of the header |
| ImageHeader.WebpNeedsRiffAndWebp | imghdr.py:111-115 | WebP needs both `RIFF` at the start and `WEBP` at bytes 8..11 |
| ImageHeader.PnmShape | imghdr.py:66-88 | PBM, PGM and PPM need three bytes: `P`, one of the format's two digits, then space, tab, newline or carriage return |
| ImageHeader.PnmTestsAreExclusive | imghdr.py:66-88 | at most one of PBM, PGM and PPM fires on any header |
| ImageHeader.JpegShadowsBmp | imghdr.py:104-108 | a `BM` header carrying `JFIF` at offset 6 passes the BMP test but is reported as JPEG, because JPEG is tried first |
| ImageHeader.TiffUnlessJpeg | imghdr.py:52-56 | a header starting `MM` or `II` is reported as TIFF unless the JPEG test fires, and then as JPEG |
| Training.BackpropLoss | finetune_indonli.py:164-167 | the loss back-propagated: divided by `k` only when `k > 1`; for `k >= 1` it is undone by the product at line 177 (`ContributionIsLoss`) |
| Training.Contribution | finetune_indonli.py:177 | `loss.item() * k`, the amount a batch adds to `total_loss`; it is the raw loss for `k >= 1` (`ContributionIsLoss`) |
| Training.SumContributions | finetune_indonli.py:148-177 | `total_loss` after the epoch's batches; for `k >= 1` the sum of the raw losses (`ContributionsAreRawLosses`) |
| Training.StepEvents | finetune_indonli.py:172-175 | clip, optimizer step over the buffered batches, scheduler step and `zero_grad`, in that order (`StepEventsCounts`) |
| Training.AfterBatch | finetune_indonli.py:166-175 | one batch is back-propagated into the buffer, and when its 1-based index is a multiple of `k` clip, step, scheduler step and `zero_grad` follow (`StepEventsCounts`) |
| Training.AfterBatches | finetune_indonli.py:151-175 | the accumulation schedule over the first `i` batches of an epoch: its buffer, call counts and trace shape are stated in `BufferAfterBatches`, `CountsAfterBatches`, `EpochTraceShape` and `CarryOverIntoNextEpoch` |
| Training.TrainEpoch | finetune_indonli.py:146-180 | one epoch's batch loop: with no batches, division by zero at line 180 and no effect; with factor 0, division by zero at line 171 after the first batch's gradient is accumulated; otherwise the effects of the accumulation schedule and the mean of the per-batch contributions |
| Training.SampleCount | finetune_indonli.py:237-238 | a non-empty list of well-formed batches holds at least one sample per batch |
| Training.AllPreds | finetune_indonli.py:237 | `all_preds` holds one prediction per sample |
| Training.AllLabels | finetune_indonli.py:238 | `all_labels` holds one label per sample |
| Training.Agreements | finetune_indonli.py:241 | the number of agreeing positions is at most the number of samples |
| Training.TotalLoss | finetune_indonli.py:216-233 | the evaluator's `total_loss`, the sum of the batch losses; `EvalModel` accumulates exactly it |
| Training.AccuracyScore | finetune_indonli.py:241 | `accuracy_score`: the fraction of agreeing positions, in [0, 1] and 1 exactly when the lists are equal (`AccuracyBounds`, `AllAgreeIffEqual`) |
| Training.Evaluate | finetune_indonli.py:213-241 | the mean batch loss and accuracy, or division by zero at line 240 on no batches; `EvalModel` is proved equal to it, and `AccuracyBounds` and `PredsAndLabelsInLockstep` state its properties |
| Training.EvalModel | finetune_indonli.py:213-241 | division by zero at line 240 exactly when there are no batches; otherwise the mean batch loss and the accuracy of the collected labels against the collected predictions, which lies in [0, 1] |
| Training.ApplyPolicy | finetune_indonli.py:195-209 | the checkpoint and patience policy with the save at line 203 corrected (`ImprovementSavesAndContinues`, `PolicyAppend`, `RunBest`, `RunSaves`, `RunStopping`) |
| Training.ApplyPolicyAsWritten | finetune_indonli.py:195-209 | the policy as written, raising NameError at line 203 after the model is saved (`ImprovementRaisesAsWritten`) |
| Training.Trained | finetune_indonli.py:146-181 | the batch loop has run and the mean training loss is appended to `history['train_loss']` (`EpochStepCompletes`, `RunHistory`) |
| Training.Evaluated | finetune_indonli.py:186-209 | the evaluation's loss and accuracy are appended and the policy applied, or the evaluator's error raised (`EpochStepCompletes`, `EpochStepRaises`) |
| Training.EpochStep | finetune_indonli.py:146-209 | one epoch: train, record, evaluate, record, apply the corrected policy, or raise (`EpochStepCompletes`, `EpochStepRaises`) |
| Training.RunEpochs | finetune_indonli.py:146-209 | the driver after the first `j` iterations of the epoch loop, standing still once stopped or raised (`HaltedRunStays`, `RunHistory`, `RunBest`, `RunSaves`, `RunStopping`, `RunSteps`) |
| Training.Epochs | finetune_indonli.py:146 | the number of iterations `range(num_epochs)` offers, 0 for a non-positive count; `TrainModel` runs that many unless it stops or raises |
| Training.Result | finetune_indonli.py:211 | `return history` when the loop finished or broke, the error when an epoch raised; `TrainModel` returns it |
| Training.TrainAndEvaluate | finetune_indonli.py:146-209 | one iteration of the epoch loop on the driver's locals ends as the epoch-by-epoch specification `EpochStep` says: the locals it leaves and whether it falls through, breaks or raises; with the save at line 203 corrected |
| Training.TrainModel | finetune_indonli.py:133-211 | `train_model` returns the history, or raises the error, of the epoch-by-epoch specification `RunEpochs`, and issues exactly its trace of calls; with the save at line 203 corrected |
| Training.HaltedRunStays | finetune_indonli.py:207-209 | after `break` or an exception no later epoch changes anything |
| Training.TotalSteps | finetune_indonli.py:346 | `len(train_dataloader) * num_epochs // k`, or division by zero for `k = 0` (`ScheduledStepsCoverRun`) |
| Training.FloorDiv | finetune_indonli.py:346 | Python's `//` (`FloorDivRoundsDown`) |
| Training.FloorDivRoundsDown | finetune_indonli.py:346 | `//` is floor division for either sign of the divisor |
| Training.ContributionsAreRawLosses | finetune_indonli.py:166-177 | with `k >= 1` the division by `k` before `backward` is undone when `total_loss` is accumulated, so it is the sum of the raw batch losses |
| Training.ContributionIsLoss | finetune_indonli.py:166-177 | for `k >= 1` a batch adds exactly its raw loss to `total_loss` |
| Training.AccuracyBounds | finetune_indonli.py:241 | accuracy lies in [0, 1], and is 1 exactly when every prediction equals its label |
| Training.AllAgreeIffEqual | finetune_indonli.py:241 | every position agrees exactly when the two lists are equal |
| Training.PredsAndLabelsInLockstep | finetune_indonli.py:237-238 | the prediction and label lists have the same length, one entry per sample, and are non-empty when there is a batch |
| Training.StepEventsCounts | finetune_indonli.py:171-175 | a completed group makes one clip, one optimizer step, one scheduler step and one `zero_grad`, and no save |
| Training.BufferAfterBatches | finetune_indonli.py:169-175 | after `i` batches the gradient buffer holds the batches since the last multiple of `k`; before the epoch's first step it also still holds what earlier epochs left behind, and no call has been made |
| Training.CountsAfterBatches | finetune_indonli.py:151-175 | `i` batches make exactly `i / k` optimizer steps, scheduler steps, clips and `zero_grad`s, and no save |
| Training.EpochTraceShape | finetune_indonli.py:171-175 | an epoch only appends to the trace, and in what it appends every `zero_grad` comes right after clip, optimizer step and scheduler step |
| Training.CarryOverIntoNextEpoch | finetune_indonli.py:146-175 | when `k` does not divide the number of batches, the last `N % k` gradients are not applied in their epoch; the next epoch's first optimizer step applies them together with its first `k` batches |
| Training.BestOf | finetune_indonli.py:195-197 | `best_metric` after the accuracies seen, replaced only on strict increase: the running maximum (`BestOfIsRunningMax`, `RunBest`) |
| Training.ImprovesAt | finetune_indonli.py:195 | the test `eval_accuracy > best_metric` for one epoch; it holds exactly on a new positive record (`ImprovesIffNewRecord`) |
| Training.BestEpoch | finetune_indonli.py:198 | `history['best_epoch']`: the first epoch that reached the final best, 0 if none (`BestIsAttained`, `LastSaveIsBestEpoch`, `RunBest`) |
| Training.Streak | finetune_indonli.py:199-206 | `epochs_no_improve`: epochs since the last improvement (`StreakBoundedByPatience`, `RunBest`) |
| Training.ImprovingEpochs | finetune_indonli.py:195-202 | the epochs after which a checkpoint is saved: exactly the improving ones, increasing (`ImprovingEpochsAreImprovements`, `ImprovingEpochsIncrease`, `RunSaves`) |
| Training.StopsAfter | finetune_indonli.py:205-209 | the `break` fires after the last epoch: it did not improve and the streak reached the patience (`RunStopping`) |
| Training.BestOfIsRunningMax | finetune_indonli.py:195-197 | `best_metric` is non-negative, at least every accuracy seen, and never decreases |
| Training.ImprovesIffNewRecord | finetune_indonli.py:195 | an epoch improves exactly when its accuracy is positive and strictly above every earlier one; ties never count |
| Training.BestIsAttained | finetune_indonli.py:195-198 | `best_epoch` is the first epoch that reached the final `best_metric`, with every earlier epoch strictly worse; it is 0 exactly when no accuracy was positive |
| Training.ImprovingEpochsAreImprovements | finetune_indonli.py:195-202 | the epochs listed as improving are exactly the epochs that beat the best before them |
| Training.ImprovingEpochsIncrease | finetune_indonli.py:195-202 | improving epochs are listed in strictly increasing order |
| Training.LastSaveIsBestEpoch | finetune_indonli.py:195-202 | the last improving epoch is `best_epoch`; there is none exactly when `best_epoch` is 0 |
| Training.StreakBoundedByPatience | finetune_indonli.py:205-209 | if no earlier epoch stopped the loop, the non-improving streak is at most the patience (or 1) |
| Training.EpochStepCompletes | finetune_indonli.py:146-209 | an epoch that neither raises nor is skipped appends one train loss, one eval loss and one accuracy; on improvement it saves and resets the counter, otherwise it counts and stops at the patience |
| Training.EpochStepRaises | finetune_indonli.py:171-190 | an epoch that raises records no evaluation, keeps the earlier history as a prefix and leaves the policy state untouched |
| Training.RunHistory | finetune_indonli.py:146-190 | the history holds one entry per completed epoch, in order, with the values the trainer and evaluator computed; all epochs run unless the loop stopped or raised, and only a raise leaves an unmatched train loss |
| Training.RunLength | finetune_indonli.py:146-190 | while the loop is still running, one accuracy has been recorded per epoch |
| Training.PolicyAppend | finetune_indonli.py:195-207 | one more accuracy moves the best, the best epoch, the streak and the improving epochs on as lines 195-207 say |
| Training.RunBest | finetune_indonli.py:195-206 | the driver's `best_metric`, `history['best_metric']`, `history['best_epoch']` and `epochs_no_improve` are the running maximum, its first epoch and the trailing non-improving streak of the recorded accuracies |
| Training.RunSaves | finetune_indonli.py:195-202 | the checkpoints saved are exactly the improving epochs, in order |
| Training.RunStopping | finetune_indonli.py:205-209 | the loop stops early exactly after the first epoch at which the non-improving streak reaches the patience, no earlier prefix would have stopped it, and the streak never exceeds the patience |
| Training.RunSteps | finetune_indonli.py:146-175 | with `N` batches per epoch and `k >= 1`, a run that did not raise made exactly `N / k` optimizer steps, scheduler steps, clips and `zero_grad`s per completed epoch |
| Training.RunZeroGradFollowsStep | finetune_indonli.py:171-175 | over the whole run every `zero_grad` comes right after clip, optimizer step and scheduler step |
| Training.ScheduledStepsCoverRun | finetune_indonli.py:346 | the scheduler is told `N * epochs // k` steps, never fewer than any run takes, and exactly as many when `k` divides `N` |
| Training.FourBatchesTwoSteps | finetune_indonli.py:171-175 | four batches with factor 2 make two optimizer steps |
| Training.PatienceScenario | finetune_indonli.py:195-209 | accuracies 0.70, 0.72, 0.71, 0.70, 0.69 with patience 3: best 0.72 at epoch 2, stop after epoch 5 and not before |
| Training.ImprovementRaisesAsWritten | finetune_indonli.py:195-204 | as written, an epoch that beats `best_metric` saves the model and then raises NameError at line 203 |
| Training.ImprovementSavesAndContinues | finetune_indonli.py:195-202 | with the save at line 203 corrected, an epoch that beats `best_metric` records it as the best with its epoch, resets the counter, saves one checkpoint and keeps running |
| Augment.Rounds | finetune_indonli.py:61 | the number of iterations `range(n)` offers, 0 for `n <= 0` (`NoRoundsNoChange`) |
| Augment.Swap | finetune_indonli.py:63 | the two positions exchange their words and every other position keeps its word |
| Augment.ApplySwaps | finetune_indonli.py:61-63 | a sequence of swaps keeps the list's length |
| Augment.SwapResult | finetune_indonli.py:57-64 | the list `random_swap` leaves: untouched when shorter than two, otherwise after the first `n` drawn swaps (`RandomSwapPermutes`, `NoRoundsNoChange`) |
| Augment.RandomSwap | finetune_indonli.py:57-64 | `random_swap` returns the same list object, changed in place to the result of the drawn swaps, and untouched when shorter than two |
| Augment.SwapPermutes | finetune_indonli.py:63 | one swap is a permutation of the list |
| Augment.SwapIsInvolution | finetune_indonli.py:63 | swapping the same pair twice restores the list |
| Augment.SwapsPermute | finetune_indonli.py:61-63 | any sequence of swaps is a permutation of the list |
| Augment.RandomSwapPermutes | finetune_indonli.py:57-64 | a list shorter than two is returned untouched; any other keeps its length and its multiset of words |
| Augment.NoRoundsNoChange | finetune_indonli.py:61 | with `n <= 0` no swap is made |

## Left out

- Training.TrainModel: follows the corrected save at line 203. As written, the first epoch whose accuracy beats `best_metric` saves the model and then raises NameError; the model instead saves a checkpoint and keeps training. The code as written is `ApplyPolicyAsWritten` (see "## Findings").
- Training.TrainAndEvaluate: follows the corrected save at line 203, as `TrainModel` does.
- `what` on a file name or an open stream (imghdr.py:11-18), which reads 32 bytes and closes or rewinds the file: file I/O is not modelled, only the path where the header `h` is supplied.
- The test functions' unused file argument `f`: it plays no part when `h` is given.
- Tensor numerics: the forward pass, `backward`, the optimizer's update rule, gradient-norm clipping and the learning-rate schedule are opaque. Their calls are events, and the optimizer step records which batches' gradients it applies.
- Floating point: losses and accuracies are exact rationals, so rounding in `total_loss` and in the means is not modelled.
- Training.ContributionsAreRawLosses: stated for `k >= 1` only. For a negative factor the model keeps the code's behaviour, which adds `loss * k` to `total_loss`; the lemma says nothing about it.
- Training.RunSteps: stated for `k >= 1` only. A negative factor also steps on multiples of `|k|`, which `AfterBatch` models, but no lemma counts those steps.
- Training.ScheduledStepsCoverRun: stated for `k >= 1` only. The division by zero at line 346 is modelled in `TotalSteps`, and floor division for negative factors in `FloorDivRoundsDown`.
- `int(total_steps * warmup_ratio)` (line 347) and the scheduler's construction: floating-point configuration of an opaque collaborator.
- The loss function choice and class weights (lines 140-144): the computed `loss_fn` is never used by the loop, which takes `outputs.loss`.
- `FocalLoss`, the dataset class and tokenization, `back_translate` (a placeholder that returns its input), argument parsing, dataset loading, logging and progress bars: outside the training and evaluation control logic.
- Precision, recall, F1 and the confusion matrix that `eval_model` also returns (lines 242-254): library numerics, not used by the driver. Only the loss and accuracy are modelled.
- Evaluation batches are assumed well formed: every batch is non-empty and has one prediction per label. A data loader and an arg-max over logits guarantee this. `accuracy_score` on no samples is therefore never reached.
- `model.save_pretrained` is one checkpoint event. What is written to disk, and write failures, are not modelled.
- Randomness: the pairs `random.sample` draws are an input to `RandomSwap`, required to be distinct in-range positions, as `random.sample` guarantees.
- Python lists are modelled as Dafny arrays in `RandomSwap`. Aliasing beyond "the same list is returned" is not modelled.

## Findings

| source | as written | input that shows it | evidently intended | confidence | as-written member | corrected member |
|---|---|---|---|---|---|---|
| finetune_indonli.py:203 | `train_model` calls `tokenizer.save_pretrained`, but `tokenizer` is a local of `main` (line 294) and is not visible in `train_model` | any run whose first epoch reaches an accuracy above 0: the model is saved, then NameError is raised | save the tokenizer along with the model and continue; the corrected policy `ApplyPolicy` does so, and over a run saves a checkpoint after exactly the improving epochs (`RunSaves`) | high, not executed | Training.ImprovementRaisesAsWritten | Training.ImprovementSavesAndContinues |
