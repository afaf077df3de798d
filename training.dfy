/**
 * The custom fine-tuning loop: `train_model` (the epoch driver with its checkpoint and
 * early-stopping policy), its inner batch loop with gradient accumulation, and `eval_model`.
 *
 * The model, optimizer, scheduler and data loaders are opaque collaborators.  They are
 * replaced by a scripted stub: the loss of every training batch and the outcome of every
 * evaluation batch are given as input sequences of exact rationals, and every call the loop
 * makes on the optimizer, the scheduler and the checkpoint store is recorded as an `Event`.
 * The gradient buffers are modelled by the list of batches whose loss has been
 * back-propagated since the last `zero_grad`, so an optimizer step records exactly which
 * batches it applies.
 */
module Training {

  // ---------------------------------------------------------------------------
  // Outcomes, events and effects
  // ---------------------------------------------------------------------------

  /**
   * The Python exceptions the loop can raise, tagged with the source line that raises them:
   * a `/`, `%` or `//` by zero, or a name that is not in scope.
   */
  datatype Error = ZeroDivisionError(line: nat) | NameError(line: nat)

  /** What a Python call does: return a value or raise. */
  datatype Outcome<T> = Returned(value: T) | Raised(error: Error)

  /** Training batch `index` (0-based) of epoch `epoch` (0-based). */
  datatype BatchRef = BatchRef(epoch: nat, index: nat)

  /** The calls the loop makes on its collaborators, in the order it makes them. */
  datatype Event =
    | ClipGradNorm
    | OptimizerStep(grads: seq<BatchRef>)  // applies the gradients accumulated from these batches
    | SchedulerStep
    | ZeroGrad
    | SaveCheckpoint(epoch: nat)           // checkpoint after this 1-based epoch; see ApplyPolicy

  datatype EventKind = Clip | Step | Schedule | Zero | Save

  function KindOf(ev: Event): EventKind
  {
    match ev
    case ClipGradNorm => Clip
    case OptimizerStep(_) => Step
    case SchedulerStep => Schedule
    case ZeroGrad => Zero
    case SaveCheckpoint(_) => Save
  }

  /** The events issued so far and the batches whose gradients sit in the parameter buffers. */
  datatype Effects = Effects(trace: seq<Event>, grads: seq<BatchRef>)

  /** Batches `lo .. hi-1` of epoch `epoch`, in order. */
  function Refs(epoch: nat, lo: nat, hi: nat): seq<BatchRef>
    requires lo <= hi
  {
    seq(hi - lo, i requires 0 <= i < hi - lo => BatchRef(epoch, lo + i))
  }

  /** How many events of a kind a trace holds. */
  function Occurrences(t: seq<Event>, kind: EventKind): nat
  {
    if t == [] then 0
    else Occurrences(t[..|t| - 1], kind) + (if KindOf(t[|t| - 1]) == kind then 1 else 0)
  }

  /** The 1-based epochs of the checkpoint saves in a trace, in order. */
  function Saves(t: seq<Event>): seq<nat>
  {
    if t == [] then []
    else Saves(t[..|t| - 1]) + (match t[|t| - 1] case SaveCheckpoint(e) => [e] case _ => [])
  }

  /** Every `zero_grad` directly follows a clip, an optimizer step and a scheduler step. */
  predicate ZeroGradFollowsStep(t: seq<Event>)
  {
    forall j | 0 <= j < |t| && t[j] == ZeroGrad ::
      j >= 3 && t[j - 3] == ClipGradNorm && t[j - 2].OptimizerStep? && t[j - 1] == SchedulerStep
  }

  // ---------------------------------------------------------------------------
  // Loss arithmetic (exact rationals in place of floats)
  // ---------------------------------------------------------------------------

  function Sum(xs: seq<real>): real
  {
    if xs == [] then 0.0 else Sum(xs[..|xs| - 1]) + xs[|xs| - 1]
  }

  /** The loss that is back-propagated: divided by `k` only when `k > 1`. */
  function BackpropLoss(loss: real, k: int): real
  {
    if k > 1 then loss / (k as real) else loss
  }

  /** The amount one batch adds to `total_loss`: the back-propagated loss times `k`. */
  function Contribution(loss: real, k: int): real
  {
    BackpropLoss(loss, k) * (k as real)
  }

  function SumContributions(losses: seq<real>, k: int): real
  {
    if losses == [] then 0.0
    else SumContributions(losses[..|losses| - 1], k) + Contribution(losses[|losses| - 1], k)
  }

  /** `total_loss` after one more batch. */
  lemma SumContributionsStep(losses: seq<real>, i: nat, k: int)
    requires i < |losses|
    ensures SumContributions(losses[..i + 1], k) == SumContributions(losses[..i], k) + Contribution(losses[i], k)
  {
    assert losses[..i + 1][..i] == losses[..i];
  }

  // ---------------------------------------------------------------------------
  // The batch trainer (inner loop of train_model)
  // ---------------------------------------------------------------------------

  /** The four calls made when an accumulation group is complete. */
  function StepEvents(grads: seq<BatchRef>): seq<Event>
  {
    [ClipGradNorm, OptimizerStep(grads), SchedulerStep, ZeroGrad]
  }

  /**
   * Back-propagate batch `b`, then step when its 1-based index is a multiple of `k`.
   * For `k != 0`, Python's `(i + 1) % k == 0` holds exactly when `k` divides `i + 1`,
   * whatever the sign of `k`, and so does Dafny's.
   */
  function AfterBatch(fx: Effects, b: BatchRef, k: int): Effects
    requires k != 0
  {
    var grads := fx.grads + [b];
    if (b.index + 1) % k == 0 then Effects(fx.trace + StepEvents(grads), [])
    else Effects(fx.trace, grads)
  }

  /** The effects of the first `i` batches of epoch `epoch`, starting from `fx`. */
  function AfterBatches(fx: Effects, epoch: nat, i: nat, k: int): Effects
    requires k != 0
  {
    if i == 0 then fx else AfterBatch(AfterBatches(fx, epoch, i - 1, k), BatchRef(epoch, i - 1), k)
  }

  /**
   * One pass of the inner loop over the epoch's batches (their losses given in `losses`),
   * followed by the average at line 180.  `fx` are the effects carried in from earlier
   * epochs: the gradient buffer is not cleared when an epoch starts.
   */
  method TrainEpoch(epoch: nat, losses: seq<real>, k: int, fx: Effects) returns (fx': Effects, r: Outcome<real>)
    ensures |losses| == 0 ==> fx' == fx && r == Raised(ZeroDivisionError(180))
    ensures |losses| > 0 && k == 0 ==>
      r == Raised(ZeroDivisionError(171)) && fx' == Effects(fx.trace, fx.grads + [BatchRef(epoch, 0)])
    ensures |losses| > 0 && k != 0 ==>
      fx' == AfterBatches(fx, epoch, |losses|, k) &&
      r == Returned(SumContributions(losses, k) / (|losses| as real))
  {
    var totalLoss := 0.0;
    fx' := fx;
    var i := 0;
    while i < |losses|
      invariant 0 <= i <= |losses|
      invariant k == 0 ==> i == 0 && fx' == fx
      invariant k != 0 ==> fx' == AfterBatches(fx, epoch, i, k)
      invariant totalLoss == SumContributions(losses[..i], k)
    {
      var loss := BackpropLoss(losses[i], k);
      assert totalLoss + loss * (k as real) == SumContributions(losses[..i + 1], k) by {
        SumContributionsStep(losses, i, k);
      }
      fx' := fx'.(grads := fx'.grads + [BatchRef(epoch, i)]);
      if k == 0 {
        return fx', Raised(ZeroDivisionError(171));
      }
      ghost var backpropagated := fx';
      if (i + 1) % k == 0 {
        fx' := fx'.(trace := fx'.trace + [ClipGradNorm]);
        fx' := fx'.(trace := fx'.trace + [OptimizerStep(fx'.grads)]);
        fx' := fx'.(trace := fx'.trace + [SchedulerStep]);
        fx' := Effects(fx'.trace + [ZeroGrad], []);
        assert fx'.trace == backpropagated.trace + StepEvents(backpropagated.grads);
      }
      assert fx' == AfterBatch(AfterBatches(fx, epoch, i, k), BatchRef(epoch, i), k);
      totalLoss := totalLoss + loss * (k as real);
      i := i + 1;
    }
    assert losses[..i] == losses;
    if |losses| == 0 {
      return fx', Raised(ZeroDivisionError(180));
    }
    r := Returned(totalLoss / (|losses| as real));
  }

  // ---------------------------------------------------------------------------
  // The evaluator (eval_model)
  // ---------------------------------------------------------------------------

  /** What the model yields on one evaluation batch: its loss and the per-sample arg-max and labels. */
  datatype EvalBatch = EvalBatch(loss: real, preds: seq<int>, labels: seq<int>)

  /** The part of eval_model's result that the epoch driver uses. */
  datatype EvalResult = EvalResult(loss: real, accuracy: real)

  /** A data loader never yields an empty batch, and the model emits one logit row per sample. */
  predicate WellFormedBatch(b: EvalBatch)
  {
    |b.preds| == |b.labels| && |b.labels| > 0
  }

  predicate WellFormedBatches(bs: seq<EvalBatch>)
  {
    forall i | 0 <= i < |bs| :: WellFormedBatch(bs[i])
  }

  function TotalLoss(bs: seq<EvalBatch>): real
  {
    if bs == [] then 0.0 else TotalLoss(bs[..|bs| - 1]) + bs[|bs| - 1].loss
  }

  function SampleCount(bs: seq<EvalBatch>): (n: nat)
    ensures WellFormedBatches(bs) && |bs| > 0 ==> n >= |bs|
  {
    if bs == [] then 0 else SampleCount(bs[..|bs| - 1]) + |bs[|bs| - 1].labels|
  }

  /** `all_preds` after extending it with every batch's predictions. */
  function AllPreds(bs: seq<EvalBatch>): (r: seq<int>)
    requires WellFormedBatches(bs)
    ensures |r| == SampleCount(bs)
  {
    if bs == [] then [] else AllPreds(bs[..|bs| - 1]) + bs[|bs| - 1].preds
  }

  /** `all_labels` after extending it with every batch's labels. */
  function AllLabels(bs: seq<EvalBatch>): (r: seq<int>)
    ensures |r| == SampleCount(bs)
  {
    if bs == [] then [] else AllLabels(bs[..|bs| - 1]) + bs[|bs| - 1].labels
  }

  /** The number of positions where prediction and label agree. */
  function Agreements(labels: seq<int>, preds: seq<int>): (c: nat)
    requires |labels| == |preds|
    ensures c <= |labels|
  {
    if labels == [] then 0
    else Agreements(labels[1..], preds[1..]) + (if labels[0] == preds[0] then 1 else 0)
  }

  /** `accuracy_score`: the fraction of samples whose prediction equals the label. */
  function AccuracyScore(labels: seq<int>, preds: seq<int>): real
    requires |labels| == |preds| > 0
  {
    (Agreements(labels, preds) as real) / (|labels| as real)
  }

  /** Specification of `EvalModel`: mean batch loss and accuracy, or the division error on no batches. */
  function Evaluate(bs: seq<EvalBatch>): Outcome<EvalResult>
    requires WellFormedBatches(bs)
  {
    if |bs| == 0 then Raised(ZeroDivisionError(240))
    else Returned(EvalResult(TotalLoss(bs) / (|bs| as real), AccuracyScore(AllLabels(bs), AllPreds(bs))))
  }

  /** eval_model: accumulate the loss and extend the prediction and label lists batch by batch. */
  method EvalModel(bs: seq<EvalBatch>) returns (r: Outcome<EvalResult>)
    requires WellFormedBatches(bs)
    ensures |bs| == 0 <==> r == Raised(ZeroDivisionError(240))
    ensures r.Returned? ==>
      r.value.loss == TotalLoss(bs) / (|bs| as real) &&
      r.value.accuracy == AccuracyScore(AllLabels(bs), AllPreds(bs)) &&
      0.0 <= r.value.accuracy <= 1.0
    ensures r == Evaluate(bs)
  {
    var totalLoss := 0.0;
    var allPreds: seq<int> := [];
    var allLabels: seq<int> := [];
    for i := 0 to |bs|
      invariant totalLoss == TotalLoss(bs[..i])
      invariant allPreds == AllPreds(bs[..i])
      invariant allLabels == AllLabels(bs[..i])
      invariant |allPreds| == |allLabels|
    {
      assert bs[..i + 1][..i] == bs[..i];
      totalLoss := totalLoss + bs[i].loss;
      allPreds := allPreds + bs[i].preds;
      allLabels := allLabels + bs[i].labels;
    }
    assert bs[..|bs|] == bs;
    if |bs| == 0 {
      return Raised(ZeroDivisionError(240));
    }
    AccuracyBounds(allLabels, allPreds);
    r := Returned(EvalResult(totalLoss / (|bs| as real), AccuracyScore(allLabels, allPreds)));
  }

  // ---------------------------------------------------------------------------
  // The epoch driver (train_model) and its checkpoint / early-stopping policy
  // ---------------------------------------------------------------------------

  /** The dictionary `history` that train_model returns. */
  datatype History = History(
    trainLoss: seq<real>, evalLoss: seq<real>, evalAccuracy: seq<real>, bestMetric: real, bestEpoch: nat)

  datatype Status = Running | EarlyStopped | Failed(error: Error)

  /** The driver's locals and the effects issued so far. */
  datatype Driver = Driver(effects: Effects, history: History, bestMetric: real, epochsNoImprove: int, status: Status)

  const InitialHistory: History := History([], [], [], 0.0, 0)

  const InitialDriver: Driver := Driver(Effects([], []), InitialHistory, 0.0, 0, Running)

  /**
   * Lines 195-209, after epoch `epoch` (0-based) reached `accuracy`, with the save at line
   * 203 corrected: the `SaveCheckpoint` event stands for saving the model (line 202) and the
   * tokenizer (line 203).  `ApplyPolicyAsWritten` is the code as written.
   */
  function ApplyPolicy(d: Driver, epoch: nat, accuracy: real, patience: int): Driver
  {
    if accuracy > d.bestMetric then
      d.(bestMetric := accuracy,
         history := d.history.(bestMetric := accuracy, bestEpoch := epoch + 1),
         epochsNoImprove := 0,
         effects := d.effects.(trace := d.effects.trace + [SaveCheckpoint(epoch + 1)]))
    else
      var c := d.epochsNoImprove + 1;
      d.(epochsNoImprove := c, status := if c >= patience then EarlyStopped else Running)
  }

  /**
   * Lines 195-209 exactly as written: `tokenizer` is a local of `main`, so the save at line
   * 203 raises NameError once the model itself has been saved.  Its `SaveCheckpoint` event
   * stands for the model's save (line 202) alone.
   */
  function ApplyPolicyAsWritten(d: Driver, epoch: nat, accuracy: real, patience: int): Driver
  {
    var next := ApplyPolicy(d, epoch, accuracy, patience);
    if accuracy > d.bestMetric then next.(status := Failed(NameError(203))) else next
  }

  /**
   * As written, the first epoch that beats `best_metric` (any epoch whose accuracy is
   * positive, on a fresh run) saves the model and then raises; the policy the rest of the
   * model uses records the checkpoint and keeps running.
   */
  lemma ImprovementRaisesAsWritten(d: Driver, epoch: nat, accuracy: real, patience: int)
    requires d.status.Running? && accuracy > d.bestMetric
    ensures var written := ApplyPolicyAsWritten(d, epoch, accuracy, patience);
      written.status == Failed(NameError(203)) &&
      Saves(written.effects.trace) == Saves(d.effects.trace) + [epoch + 1]
  {
    SavesAppend(d.effects.trace, [SaveCheckpoint(epoch + 1)]);
    assert [SaveCheckpoint(epoch + 1)][..0] == [];
  }

  /**
   * The corrected policy: an improving epoch records the new best, resets the counter,
   * saves the checkpoint and keeps running.
   */
  lemma ImprovementSavesAndContinues(d: Driver, epoch: nat, accuracy: real, patience: int)
    requires d.status.Running? && accuracy > d.bestMetric
    ensures var next := ApplyPolicy(d, epoch, accuracy, patience);
      next.status == Running && next.bestMetric == accuracy && next.epochsNoImprove == 0 &&
      next.history.bestEpoch == epoch + 1 &&
      Saves(next.effects.trace) == Saves(d.effects.trace) + [epoch + 1]
  {
    SavesAppend(d.effects.trace, [SaveCheckpoint(epoch + 1)]);
    assert [SaveCheckpoint(epoch + 1)][..0] == [];
  }

  /** One iteration of the epoch loop: train, record, evaluate, record, apply the policy. */
  function EpochStep(d: Driver, epoch: nat, losses: seq<real>, evalBatches: seq<EvalBatch>, k: int, patience: int): Driver
    requires WellFormedBatches(evalBatches)
  {
    if |losses| == 0 then d.(status := Failed(ZeroDivisionError(180)))
    else if k == 0 then
      d.(effects := Effects(d.effects.trace, d.effects.grads + [BatchRef(epoch, 0)]),
         status := Failed(ZeroDivisionError(171)))
    else Evaluated(Trained(d, epoch, losses, k), epoch, Evaluate(evalBatches), patience)
  }

  /** Lines 146-181: the batch loop has run and the mean training loss is recorded. */
  function Trained(d: Driver, epoch: nat, losses: seq<real>, k: int): Driver
    requires |losses| > 0 && k != 0
  {
    d.(effects := AfterBatches(d.effects, epoch, |losses|, k),
       history := d.history.(trainLoss := d.history.trainLoss + [SumContributions(losses, k) / (|losses| as real)]))
  }

  /** Lines 186-209: the evaluation is recorded and the policy applied, or its error raised. */
  function Evaluated(d: Driver, epoch: nat, evaluation: Outcome<EvalResult>, patience: int): Driver
  {
    match evaluation
    case Raised(e) => d.(status := Failed(e))
    case Returned(res) =>
      var recorded := d.(history := d.history.(evalLoss := d.history.evalLoss + [res.loss],
                                               evalAccuracy := d.history.evalAccuracy + [res.accuracy]));
      ApplyPolicy(recorded, epoch, res.accuracy, patience)
  }

  /** The scripted stub: per epoch, the loss of every training batch and every evaluation batch. */
  datatype Script = Script(trainLosses: seq<seq<real>>, evalBatches: seq<seq<EvalBatch>>)

  /** The script covers `epochs` epochs and its evaluation batches are well formed. */
  predicate Covers(s: Script, epochs: int)
  {
    epochs <= |s.trainLosses| && epochs <= |s.evalBatches| &&
    forall e | 0 <= e < |s.evalBatches| :: WellFormedBatches(s.evalBatches[e])
  }

  /** The driver after the first `j` iterations of `for epoch in range(...)`; once halted it stays put. */
  function RunEpochs(s: Script, j: nat, k: int, patience: int): Driver
    requires Covers(s, j)
  {
    if j == 0 then InitialDriver else Next(s, j, k, patience, RunEpochs(s, j - 1, k, patience))
  }

  /** Iteration `j - 1` of the epoch loop, which a halted driver skips. */
  function Next(s: Script, j: nat, k: int, patience: int, d: Driver): Driver
    requires Covers(s, j) && j > 0
  {
    if d.status.Running? then EpochStep(d, j - 1, s.trainLosses[j - 1], s.evalBatches[j - 1], k, patience)
    else d
  }

  /** The number of iterations `range(numEpochs)` offers. */
  function Epochs(numEpochs: int): nat
  {
    if numEpochs > 0 then numEpochs else 0
  }

  /** What the call of train_model does: the history it returns, or the error it raises. */
  function Result(d: Driver): Outcome<History>
  {
    if d.status.Failed? then Raised(d.status.error) else Returned(d.history)
  }

  /**
   * One iteration of the epoch loop (lines 146-209) on the driver's locals.  `status` says
   * how the iteration ends: it falls through, breaks out of the loop, or raises.
   */
  method TrainAndEvaluate(epoch: nat, losses: seq<real>, evalBatches: seq<EvalBatch>, k: int, patience: int,
                          fx: Effects, history: History, bestMetric: real, epochsNoImprove: int)
    returns (fx': Effects, history': History, bestMetric': real, epochsNoImprove': int, status: Status)
    requires WellFormedBatches(evalBatches)
    ensures Driver(fx', history', bestMetric', epochsNoImprove', status) ==
            EpochStep(Driver(fx, history, bestMetric, epochsNoImprove, Running), epoch, losses, evalBatches, k, patience)
  {
    history', bestMetric', epochsNoImprove' := history, bestMetric, epochsNoImprove;
    var trained;
    fx', trained := TrainEpoch(epoch, losses, k, fx);
    if trained.Raised? {
      return fx', history', bestMetric', epochsNoImprove', Failed(trained.error);
    }
    var avgTrainLoss := trained.value;
    history' := history'.(trainLoss := history'.trainLoss + [avgTrainLoss]);

    var evalResults := EvalModel(evalBatches);
    if evalResults.Raised? {
      return fx', history', bestMetric', epochsNoImprove', Failed(evalResults.error);
    }
    var evalLoss := evalResults.value.loss;
    var evalAccuracy := evalResults.value.accuracy;
    history' := history'.(evalLoss := history'.evalLoss + [evalLoss],
                          evalAccuracy := history'.evalAccuracy + [evalAccuracy]);

    status := Running;
    if evalAccuracy > bestMetric' {
      bestMetric' := evalAccuracy;
      history' := history'.(bestMetric := bestMetric', bestEpoch := epoch + 1);
      epochsNoImprove' := 0;
      fx' := fx'.(trace := fx'.trace + [SaveCheckpoint(epoch + 1)]);
    } else {
      epochsNoImprove' := epochsNoImprove' + 1;
      if epochsNoImprove' >= patience {
        status := EarlyStopped;
      }
    }
  }

  /**
   * train_model.  `trace` is every call made on the optimizer, the scheduler and the
   * checkpoint store before the function returns or raises.
   */
  method TrainModel(s: Script, numEpochs: int, k: int := 1, patience: int := 3) returns (r: Outcome<History>, trace: seq<Event>)
    requires Covers(s, numEpochs)
    ensures r == Result(RunEpochs(s, Epochs(numEpochs), k, patience))
    ensures trace == RunEpochs(s, Epochs(numEpochs), k, patience).effects.trace
  {
    var bestMetric := 0.0;
    var epochsNoImprove := 0;
    var history := InitialHistory;
    var fx := Effects([], []);
    var status := Running;
    var epoch := 0;
    while epoch < numEpochs
      invariant 0 <= epoch <= Epochs(numEpochs)
      invariant RunEpochs(s, epoch, k, patience) == Driver(fx, history, bestMetric, epochsNoImprove, Running)
    {
      ghost var d := Driver(fx, history, bestMetric, epochsNoImprove, Running);
      assert RunEpochs(s, epoch + 1, k, patience) == Next(s, epoch + 1, k, patience, d);
      fx, history, bestMetric, epochsNoImprove, status :=
        TrainAndEvaluate(epoch, s.trainLosses[epoch], s.evalBatches[epoch], k, patience,
                         fx, history, bestMetric, epochsNoImprove);
      if !status.Running? {
        HaltedRunStays(s, epoch + 1, Epochs(numEpochs), k, patience);
        ghost var final := Driver(fx, history, bestMetric, epochsNoImprove, status);
        assert RunEpochs(s, Epochs(numEpochs), k, patience) == final;
        if status.Failed? {
          assert Result(final) == Raised(status.error);
          return Raised(status.error), fx.trace;
        }
        // early stop: the `break` at line 209 leads straight to `return history`
        assert Result(final) == Returned(history);
        return Returned(history), fx.trace;
      }
      epoch := epoch + 1;
    }
    assert Result(Driver(fx, history, bestMetric, epochsNoImprove, Running)) == Returned(history);
    return Returned(history), fx.trace;
  }

  /** Once the driver has stopped or raised, later iterations change nothing. */
  lemma {:induction false} HaltedRunStays(s: Script, j: nat, j': nat, k: int, patience: int)
    requires j <= j' && Covers(s, j')
    requires !RunEpochs(s, j, k, patience).status.Running?
    ensures RunEpochs(s, j', k, patience) == RunEpochs(s, j, k, patience)
  {
    if j < j' {
      HaltedRunStays(s, j, j' - 1, k, patience);
    }
  }

  /** The step count announced to the scheduler at line 346: Python's floor division. */
  function TotalSteps(batchesPerEpoch: nat, numEpochs: int, k: int): Outcome<int>
  {
    if k == 0 then Raised(ZeroDivisionError(346))
    else Returned(FloorDiv(batchesPerEpoch * numEpochs, k))
  }

  /** Python's `a // b`: rounds toward negative infinity. */
  function FloorDiv(a: int, b: int): int
    requires b != 0
  {
    if b > 0 then a / b else (-a) / (-b)
  }

  /** `FloorDiv(a, b)` is the floor of `a / b`, for either sign of `b`. */
  lemma FloorDivRoundsDown(a: int, b: int)
    requires b != 0
    ensures var q := FloorDiv(a, b);
      (b > 0 ==> q * b <= a < q * b + b) && (b < 0 ==> q * b + b < a <= q * b)
  {
    if b > 0 {
      assert a == (a / b) * b + a % b;
    } else {
      var q, r := (-a) / (-b), (-a) % (-b);
      assert -a == q * (-b) + r;
      assert q * (-b) == -(q * b);
    }
  }

  // ---------------------------------------------------------------------------
  // The early-stopping policy as a function of the accuracies seen so far
  // ---------------------------------------------------------------------------

  /** `best_metric` after these accuracies, starting from 0 and replaced only on strict increase. */
  function BestOf(accs: seq<real>): real
  {
    if accs == [] then 0.0
    else
      var b := BestOf(accs[..|accs| - 1]);
      if accs[|accs| - 1] > b then accs[|accs| - 1] else b
  }

  /** Epoch `i` (0-based) beats the best accuracy before it. */
  predicate ImprovesAt(accs: seq<real>, i: nat)
    requires i < |accs|
  {
    accs[i] > BestOf(accs[..i])
  }

  /** `history['best_epoch']`: the 1-based epoch of the last improvement, 0 if none. */
  function BestEpoch(accs: seq<real>): nat
  {
    if accs == [] then 0
    else if ImprovesAt(accs, |accs| - 1) then |accs|
    else BestEpoch(accs[..|accs| - 1])
  }

  /** `epochs_no_improve`: the number of epochs since the last improvement. */
  function Streak(accs: seq<real>): nat
  {
    if accs == [] then 0
    else if ImprovesAt(accs, |accs| - 1) then 0
    else Streak(accs[..|accs| - 1]) + 1
  }

  /** The 1-based epochs that improved, in order. */
  function ImprovingEpochs(accs: seq<real>): seq<nat>
  {
    if accs == [] then []
    else ImprovingEpochs(accs[..|accs| - 1]) + (if ImprovesAt(accs, |accs| - 1) then [|accs|] else [])
  }

  /** The loop breaks after the last of these epochs. */
  predicate StopsAfter(accs: seq<real>, patience: int)
  {
    |accs| > 0 && !ImprovesAt(accs, |accs| - 1) && Streak(accs) >= patience
  }

  function Max(a: int, b: int): int { if a >= b then a else b }

  // ---------------------------------------------------------------------------
  // Lemmas: loss bookkeeping
  // ---------------------------------------------------------------------------

  /** With `k >= 1` the rescaling is undone exactly, so `total_loss` is the sum of the raw losses. */
  lemma {:induction false} ContributionsAreRawLosses(losses: seq<real>, k: int)
    requires k >= 1
    ensures SumContributions(losses, k) == Sum(losses)
  {
    if losses != [] {
      ContributionsAreRawLosses(losses[..|losses| - 1], k);
      ContributionIsLoss(losses[|losses| - 1], k);
    }
  }

  /** One batch: dividing by `k` and multiplying back gives the raw loss. */
  lemma ContributionIsLoss(l: real, k: int)
    requires k >= 1
    ensures Contribution(l, k) == l
  {
    var kr := k as real;
    assert kr >= 1.0;
    if k > 1 {
      assert (l / kr) * kr == l;
    }
  }

  // ---------------------------------------------------------------------------
  // Lemmas: evaluation
  // ---------------------------------------------------------------------------

  /** Accuracy is a fraction, and it is 1 exactly when every prediction equals its label. */
  lemma AccuracyBounds(labels: seq<int>, preds: seq<int>)
    requires |labels| == |preds| > 0
    ensures 0.0 <= AccuracyScore(labels, preds) <= 1.0
    ensures AccuracyScore(labels, preds) == 1.0 <==> labels == preds
  {
    AllAgreeIffEqual(labels, preds);
    RatioBounds(Agreements(labels, preds) as real, |labels| as real);
  }

  lemma RatioBounds(a: real, n: real)
    requires 0.0 <= a <= n && n > 0.0
    ensures 0.0 <= a / n <= 1.0
    ensures a / n == 1.0 <==> a == n
  {
    assert a / n * n == a;
  }

  lemma {:induction false} AllAgreeIffEqual(labels: seq<int>, preds: seq<int>)
    requires |labels| == |preds|
    ensures Agreements(labels, preds) == |labels| <==> labels == preds
  {
    if labels != [] {
      AllAgreeIffEqual(labels[1..], preds[1..]);
      if labels[0] == preds[0] && labels[1..] == preds[1..] {
        assert labels == [labels[0]] + labels[1..];
        assert preds == [preds[0]] + preds[1..];
      }
    }
  }

  /** The prediction and label lists grow in lockstep, one entry per sample. */
  lemma PredsAndLabelsInLockstep(bs: seq<EvalBatch>)
    requires WellFormedBatches(bs)
    ensures |AllPreds(bs)| == |AllLabels(bs)| == SampleCount(bs)
    ensures |bs| > 0 ==> |AllLabels(bs)| > 0
  {
  }

  // ---------------------------------------------------------------------------
  // Lemmas: gradient accumulation within and across epochs
  // ---------------------------------------------------------------------------

  /** The sign of a product with a positive factor: the building block of the division lemmas. */
  lemma {:induction false} MulSign(d: int, k: int)
    requires k > 0
    ensures d >= 1 ==> d * k >= k
    ensures d <= -1 ==> d * k <= -k
    ensures d == 0 ==> d * k == 0
    decreases if d >= 0 then d else -d
  {
    if d > 1 {
      MulSign(d - 1, k);
      assert d * k == (d - 1) * k + k;
    } else if d < -1 {
      MulSign(d + 1, k);
      assert d * k == (d + 1) * k - k;
    }
  }

  /** Quotient and remainder are determined by `n == q * k + r` with `0 <= r < k`. */
  lemma DivModUnique(n: int, k: int, q: int, r: int)
    requires k > 0 && n == q * k + r && 0 <= r < k
    ensures n / k == q && n % k == r
  {
    var q', r' := n / k, n % k;
    assert n == q' * k + r';
    MulSign(q - q', k);
    assert (q - q') * k == q * k - q' * k;
  }

  /** For a non-negative `p`: the quotient is non-negative, and it is 0 below `k`. */
  lemma DivNonneg(p: int, k: int)
    requires p >= 0 && k > 0
    ensures p / k >= 0 && p % k <= p
    ensures p < k ==> p / k == 0 && p % k == p
  {
    var q, r := p / k, p % k;
    assert p == q * k + r;
    MulSign(q, k);
    if p < k {
      DivModUnique(p, k, 0, p);
    }
  }

  /** Moving from `i` to `i + 1` batches adds one complete group exactly when `k` divides `i + 1`. */
  lemma DivSucc(i: nat, k: int)
    requires k >= 1
    ensures (i + 1) % k == 0 ==> (i + 1) / k == i / k + 1 && i % k == k - 1 && i + 1 >= k
    ensures (i + 1) % k != 0 ==> (i + 1) / k == i / k && (i + 1) % k == i % k + 1 && (i + 1 < k <==> i < k)
  {
    var q, r := i / k, i % k;
    DivNonneg(i, k);
    assert i == q * k + r;
    if r == k - 1 {
      assert i + 1 == (q + 1) * k + 0;
      DivModUnique(i + 1, k, q + 1, 0);
      MulSign(q + 1, k);
    } else {
      assert i + 1 == q * k + (r + 1);
      DivModUnique(i + 1, k, q, r + 1);
      if i < k {
        DivModUnique(i, k, 0, i);
      }
    }
  }

  lemma {:induction false} OccurrencesAppend(t: seq<Event>, u: seq<Event>, kind: EventKind)
    ensures Occurrences(t + u, kind) == Occurrences(t, kind) + Occurrences(u, kind)
  {
    if u != [] {
      assert (t + u)[..|t + u| - 1] == t + u[..|u| - 1];
      OccurrencesAppend(t, u[..|u| - 1], kind);
    } else {
      assert t + u == t;
    }
  }

  lemma {:induction false} SavesAppend(t: seq<Event>, u: seq<Event>)
    ensures Saves(t + u) == Saves(t) + Saves(u)
  {
    if u != [] {
      assert (t + u)[..|t + u| - 1] == t + u[..|u| - 1];
      SavesAppend(t, u[..|u| - 1]);
    } else {
      assert t + u == t;
    }
  }

  lemma StepEventsCounts(grads: seq<BatchRef>)
    ensures forall kind: EventKind :: Occurrences(StepEvents(grads), kind) == if kind == Save then 0 else 1
    ensures Saves(StepEvents(grads)) == []
  {
    var t1 := [ClipGradNorm];
    var t2 := t1 + [OptimizerStep(grads)];
    var t3 := t2 + [SchedulerStep];
    var t4 := t3 + [ZeroGrad];
    assert t1[..0] == [] && t2[..1] == t1 && t3[..2] == t2 && t4[..3] == t3;
    assert t4 == StepEvents(grads);
    forall kind: EventKind ensures Occurrences(t4, kind) == if kind == Save then 0 else 1 {
      assert Occurrences(t1, kind) == if kind == Clip then 1 else 0;
      assert Occurrences(t2, kind) == if kind == Clip || kind == Step then 1 else 0;
      assert Occurrences(t3, kind) == if kind == Save || kind == Zero then 0 else 1;
    }
    assert Saves(t1) == [] && Saves(t2) == [] && Saves(t3) == [];
  }

  /**
   * After `i` batches of an epoch the gradient buffer holds the batches since the last
   * complete group; before the first group of the epoch is complete it still holds the
   * batches carried in from earlier epochs.
   */
  lemma {:induction false} BufferAfterBatches(fx: Effects, epoch: nat, i: nat, k: int)
    requires k >= 1
    ensures AfterBatches(fx, epoch, i, k).grads == (if i < k then fx.grads else []) + Refs(epoch, i - i % k, i)
    ensures i < k ==> AfterBatches(fx, epoch, i, k).trace == fx.trace
  {
    if i == 0 {
      DivNonneg(0, k);
      assert Refs(epoch, 0, 0) == [];
    } else {
      var p := i - 1;
      BufferAfterBatches(fx, epoch, p, k);
      DivSucc(p, k);
      DivNonneg(i, k);
      var prev := AfterBatches(fx, epoch, p, k);
      var cur := AfterBatches(fx, epoch, i, k);
      assert cur == AfterBatch(prev, BatchRef(epoch, p), k);
      if i % k == 0 {
        assert cur.grads == [];
        assert Refs(epoch, i - i % k, i) == [];
      } else {
        assert cur.grads == prev.grads + [BatchRef(epoch, p)];
        assert i - i % k == p - p % k;
        assert Refs(epoch, i - i % k, i) == Refs(epoch, p - p % k, p) + [BatchRef(epoch, p)];
      }
    }
  }

  /** Each epoch issues exactly `i / k` optimizer steps, scheduler steps, clips and zero_grads, and no save. */
  lemma {:induction false} CountsAfterBatches(fx: Effects, epoch: nat, i: nat, k: int, kind: EventKind)
    requires k >= 1
    ensures Occurrences(AfterBatches(fx, epoch, i, k).trace, kind) ==
      Occurrences(fx.trace, kind) + (if kind == Save then 0 else i / k)
  {
    if i == 0 {
      DivNonneg(0, k);
    } else {
      CountsAfterBatches(fx, epoch, i - 1, k, kind);
      DivSucc(i - 1, k);
      var prev := AfterBatches(fx, epoch, i - 1, k);
      assert AfterBatches(fx, epoch, i, k) == AfterBatch(prev, BatchRef(epoch, i - 1), k);
      if i % k == 0 {
        var grads := prev.grads + [BatchRef(epoch, i - 1)];
        StepEventsCounts(grads);
        OccurrencesAppend(prev.trace, StepEvents(grads), kind);
      }
    }
  }

  /** The trace of an epoch extends the trace before it, and within the epoch's own events every zero_grad follows a step. */
  lemma {:induction false} EpochTraceShape(fx: Effects, epoch: nat, i: nat, k: int)
    requires k != 0
    ensures fx.trace <= AfterBatches(fx, epoch, i, k).trace
    ensures ZeroGradFollowsStep(AfterBatches(fx, epoch, i, k).trace[|fx.trace|..])
  {
    var n := |fx.trace|;
    if i == 0 {
      assert fx.trace[n..] == [];
    } else {
      EpochTraceShape(fx, epoch, i - 1, k);
      var prev := AfterBatches(fx, epoch, i - 1, k);
      var cur := AfterBatches(fx, epoch, i, k);
      var grads := prev.grads + [BatchRef(epoch, i - 1)];
      if i % k == 0 {
        assert cur.trace == prev.trace + StepEvents(grads);
        assert cur.trace[n..] == prev.trace[n..] + StepEvents(grads);
        StepEventsZeroGrad(grads);
        ZeroGradFollowsStepAppend(prev.trace[n..], StepEvents(grads));
      } else {
        assert cur.trace == prev.trace;
      }
    }
  }

  lemma StepEventsZeroGrad(grads: seq<BatchRef>)
    ensures ZeroGradFollowsStep(StepEvents(grads))
  {
  }

  /** Appending complete step groups or a save keeps every zero_grad right after a step. */
  lemma ZeroGradFollowsStepAppend(t: seq<Event>, u: seq<Event>)
    requires ZeroGradFollowsStep(t) && ZeroGradFollowsStep(u)
    ensures ZeroGradFollowsStep(t + u)
  {
    forall j | 0 <= j < |t + u| && (t + u)[j] == ZeroGrad
      ensures j >= 3 && (t + u)[j - 3] == ClipGradNorm && (t + u)[j - 2].OptimizerStep? && (t + u)[j - 1] == SchedulerStep
    {
      if j >= |t| {
        assert u[j - |t|] == ZeroGrad;
      }
    }
  }

  /**
   * The boundary behaviour: when `k` does not divide the number of batches, the gradients
   * of the trailing `n % k` batches are not applied in their epoch; the first optimizer
   * step of the next epoch applies them together with that epoch's first `k` batches.
   */
  lemma CarryOverIntoNextEpoch(fx: Effects, epoch: nat, n: nat, k: int)
    requires 1 <= k <= n && n % k != 0
    ensures AfterBatches(fx, epoch, n, k).grads == Refs(epoch, n - n % k, n)
    ensures |AfterBatches(fx, epoch, n, k).grads| == n % k > 0
    ensures var fx1 := AfterBatches(fx, epoch, n, k);
      var t := AfterBatches(fx1, epoch + 1, n, k).trace;
      |t| > |fx1.trace| + 1 &&
      t[|fx1.trace| + 1] == OptimizerStep(Refs(epoch, n - n % k, n) + Refs(epoch + 1, 0, k))
  {
    DivNonneg(n, k);
    BufferAfterBatches(fx, epoch, n, k);
    var fx1 := AfterBatches(fx, epoch, n, k);
    assert fx1.grads == Refs(epoch, n - n % k, n);
    DivNonneg(k - 1, k);
    BufferAfterBatches(fx1, epoch + 1, k - 1, k);
    var before := AfterBatches(fx1, epoch + 1, k - 1, k);
    assert before.trace == fx1.trace;
    assert before.grads == fx1.grads + Refs(epoch + 1, 0, k - 1);
    DivModUnique(k, k, 1, 0);
    var grads := before.grads + [BatchRef(epoch + 1, k - 1)];
    assert grads == fx1.grads + Refs(epoch + 1, 0, k);
    var fx2 := AfterBatches(fx1, epoch + 1, k, k);
    assert fx2 == AfterBatch(before, BatchRef(epoch + 1, k - 1), k);
    assert fx2.trace == fx1.trace + StepEvents(grads);
    EpochTracePrefix(fx1, epoch + 1, k, n, k);
    var t := AfterBatches(fx1, epoch + 1, n, k).trace;
    assert t[|fx1.trace| + 1] == fx2.trace[|fx1.trace| + 1];
  }

  /** Later batches only append to the trace. */
  lemma {:induction false} EpochTracePrefix(fx: Effects, epoch: nat, i: nat, i': nat, k: int)
    requires k != 0 && i <= i'
    ensures AfterBatches(fx, epoch, i, k).trace <= AfterBatches(fx, epoch, i', k).trace
  {
    if i < i' {
      EpochTracePrefix(fx, epoch, i, i' - 1, k);
    }
  }

  // ---------------------------------------------------------------------------
  // Lemmas: the early-stopping policy on accuracy sequences
  // ---------------------------------------------------------------------------

  /** `best_metric` is the maximum of 0 and every accuracy seen, and it is never lowered. */
  lemma {:induction false} BestOfIsRunningMax(accs: seq<real>)
    ensures BestOf(accs) >= 0.0
    ensures forall i | 0 <= i < |accs| :: accs[i] <= BestOf(accs)
    ensures forall i | 0 <= i <= |accs| :: BestOf(accs[..i]) <= BestOf(accs)
  {
    if accs != [] {
      var p := accs[..|accs| - 1];
      BestOfIsRunningMax(p);
      forall i | 0 <= i <= |accs| ensures BestOf(accs[..i]) <= BestOf(accs) {
        if i < |accs| { assert accs[..i] == p[..i]; } else { assert accs[..i] == accs; }
      }
      forall i | 0 <= i < |accs| ensures accs[i] <= BestOf(accs) {
        if i < |accs| - 1 { assert accs[i] == p[i]; }
      }
    }
  }

  /** An epoch improves exactly when its accuracy is positive and beats every earlier accuracy: ties never count. */
  lemma ImprovesIffNewRecord(accs: seq<real>, i: nat)
    requires i < |accs|
    ensures ImprovesAt(accs, i) <==> accs[i] > 0.0 && forall j | 0 <= j < i :: accs[j] < accs[i]
  {
    var p := accs[..i];
    BestOfIsRunningMax(p);
    BestIsAttained(p);
    if p != [] && BestEpoch(p) > 0 {
      assert p[BestEpoch(p) - 1] == accs[BestEpoch(p) - 1];
    }
  }

  /**
   * `best_epoch` is the first epoch that reached the final `best_metric`: every earlier epoch
   * is strictly worse, none later is better; it is 0 exactly when no accuracy was positive.
   */
  lemma {:induction false} BestIsAttained(accs: seq<real>)
    ensures BestEpoch(accs) <= |accs|
    ensures BestEpoch(accs) == 0 <==> BestOf(accs) == 0.0
    ensures BestEpoch(accs) == 0 ==> forall i | 0 <= i < |accs| :: accs[i] <= 0.0
    ensures BestEpoch(accs) > 0 ==>
      accs[BestEpoch(accs) - 1] == BestOf(accs) &&
      forall i | 0 <= i < BestEpoch(accs) - 1 :: accs[i] < BestOf(accs)
  {
    BestOfIsRunningMax(accs);
    if accs != [] {
      var p := accs[..|accs| - 1];
      BestIsAttained(p);
      BestOfIsRunningMax(p);
      if ImprovesAt(accs, |accs| - 1) {
        forall i | 0 <= i < |accs| - 1 ensures accs[i] < BestOf(accs) {
          assert accs[i] == p[i];
        }
      } else {
        if BestEpoch(p) > 0 {
          assert accs[BestEpoch(p) - 1] == p[BestEpoch(p) - 1];
          forall i | 0 <= i < BestEpoch(accs) - 1 ensures accs[i] < BestOf(accs) {
            assert accs[i] == p[i];
          }
        }
      }
    }
  }

  /** Whether an epoch improves depends only on the epochs up to it. */
  lemma ImprovesAtPrefix(accs: seq<real>, n: nat, i: nat)
    requires i < n <= |accs|
    ensures ImprovesAt(accs[..n], i) == ImprovesAt(accs, i)
  {
    assert accs[..n][..i] == accs[..i];
  }

  /** The listed epochs are exactly the improving ones. */
  lemma {:induction false} ImprovingEpochsAreImprovements(accs: seq<real>)
    ensures forall x :: x in ImprovingEpochs(accs) <==> 1 <= x <= |accs| && ImprovesAt(accs, x - 1)
  {
    if accs != [] {
      var p := accs[..|accs| - 1];
      ImprovingEpochsAreImprovements(p);
      forall i | 0 <= i < |p| ensures ImprovesAt(p, i) == ImprovesAt(accs, i) {
        ImprovesAtPrefix(accs, |p|, i);
      }
    }
  }

  /** The improving epochs are listed in increasing order. */
  lemma {:induction false} ImprovingEpochsIncrease(accs: seq<real>)
    ensures forall a, b | 0 <= a < b < |ImprovingEpochs(accs)| :: ImprovingEpochs(accs)[a] < ImprovingEpochs(accs)[b]
  {
    if accs != [] {
      var p := accs[..|accs| - 1];
      ImprovingEpochsIncrease(p);
      ImprovingEpochsAreImprovements(p);
      var ps := ImprovingEpochs(p);
      assert forall a | 0 <= a < |ps| :: ps[a] in ps;
    }
  }

  /** The last checkpoint saved is the one of `best_epoch`; none is saved exactly when `best_epoch` stays 0. */
  lemma {:induction false} LastSaveIsBestEpoch(accs: seq<real>)
    ensures ImprovingEpochs(accs) == [] <==> BestEpoch(accs) == 0
    ensures ImprovingEpochs(accs) != [] ==> ImprovingEpochs(accs)[|ImprovingEpochs(accs)| - 1] == BestEpoch(accs)
  {
    if accs != [] {
      LastSaveIsBestEpoch(accs[..|accs| - 1]);
    }
  }

  /** Without an earlier stop, the run of non-improving epochs never exceeds the patience (or 1). */
  lemma StreakBoundedByPatience(accs: seq<real>, patience: int)
    requires forall i | 0 < i < |accs| :: !StopsAfter(accs[..i], patience)
    ensures Streak(accs) <= Max(patience, 1)
  {
    if |accs| > 1 {
      var p := accs[..|accs| - 1];
      assert !StopsAfter(p, patience);
    }
  }

  // ---------------------------------------------------------------------------
  // Lemmas: the whole run
  // ---------------------------------------------------------------------------

  /** One iteration that trains and evaluates without raising, field by field. */
  lemma EpochStepCompletes(d: Driver, epoch: nat, losses: seq<real>, evalBatches: seq<EvalBatch>, k: int, patience: int)
    requires d.status.Running? && WellFormedBatches(evalBatches)
    requires |losses| > 0 && k != 0 && Evaluate(evalBatches).Returned?
    ensures var d' := EpochStep(d, epoch, losses, evalBatches, k, patience);
      var fx := AfterBatches(d.effects, epoch, |losses|, k);
      var res := Evaluate(evalBatches).value;
      var improved := res.accuracy > d.bestMetric;
      d'.history.trainLoss == d.history.trainLoss + [SumContributions(losses, k) / (|losses| as real)] &&
      d'.history.evalLoss == d.history.evalLoss + [res.loss] &&
      d'.history.evalAccuracy == d.history.evalAccuracy + [res.accuracy] &&
      d'.effects.trace == fx.trace + (if improved then [SaveCheckpoint(epoch + 1)] else []) &&
      d'.bestMetric == (if improved then res.accuracy else d.bestMetric) &&
      d'.history.bestMetric == (if improved then res.accuracy else d.history.bestMetric) &&
      d'.history.bestEpoch == (if improved then epoch + 1 else d.history.bestEpoch) &&
      d'.epochsNoImprove == (if improved then 0 else d.epochsNoImprove + 1) &&
      d'.status == (if !improved && d.epochsNoImprove + 1 >= patience then EarlyStopped else Running)
  {
  }

  /** One iteration that raises: no evaluation is recorded and the policy state is untouched. */
  lemma EpochStepRaises(d: Driver, epoch: nat, losses: seq<real>, evalBatches: seq<EvalBatch>, k: int, patience: int)
    requires d.status.Running? && WellFormedBatches(evalBatches)
    requires !(|losses| > 0 && k != 0 && Evaluate(evalBatches).Returned?)
    ensures var d' := EpochStep(d, epoch, losses, evalBatches, k, patience);
      d'.status.Failed? &&
      d'.history.evalLoss == d.history.evalLoss &&
      d'.history.evalAccuracy == d.history.evalAccuracy &&
      |d.history.trainLoss| <= |d'.history.trainLoss| <= |d.history.trainLoss| + 1 &&
      d'.history.trainLoss[..|d.history.trainLoss|] == d.history.trainLoss &&
      d'.effects.trace == (if |losses| > 0 && k != 0 then AfterBatches(d.effects, epoch, |losses|, k).trace else d.effects.trace) &&
      d'.bestMetric == d.bestMetric && d'.history.bestMetric == d.history.bestMetric &&
      d'.history.bestEpoch == d.history.bestEpoch && d'.epochsNoImprove == d.epochsNoImprove
  {
  }

  /** One entry per completed epoch in each list, holding what the trainer and evaluator computed. */
  ghost predicate HistoryShape(s: Script, j: nat, k: int, d: Driver)
    requires Covers(s, j)
  {
    var m := |d.history.evalAccuracy|;
    m <= j && |d.history.evalLoss| == m &&
    (d.status.Running? ==> m == j) &&
    m <= |d.history.trainLoss| <= m + 1 &&
    (!d.status.Failed? ==> |d.history.trainLoss| == m) &&
    forall e | 0 <= e < m ::
      |s.trainLosses[e]| > 0 && k != 0 &&
      d.history.trainLoss[e] == SumContributions(s.trainLosses[e], k) / (|s.trainLosses[e]| as real) &&
      Evaluate(s.evalBatches[e]) == Returned(EvalResult(d.history.evalLoss[e], d.history.evalAccuracy[e]))
  }

  lemma HistoryStep(s: Script, j: nat, k: int, patience: int, d: Driver)
    requires Covers(s, j) && j > 0 && HistoryShape(s, j - 1, k, d)
    ensures HistoryShape(s, j, k, Next(s, j, k, patience, d))
  {
    var losses, evalBatches := s.trainLosses[j - 1], s.evalBatches[j - 1];
    if d.status.Running? {
      assert Next(s, j, k, patience, d) == EpochStep(d, j - 1, losses, evalBatches, k, patience);
      if |losses| > 0 && k != 0 && Evaluate(evalBatches).Returned? {
        EpochStepCompletes(d, j - 1, losses, evalBatches, k, patience);
      } else {
        EpochStepRaises(d, j - 1, losses, evalBatches, k, patience);
      }
    }
  }

  /**
   * The history holds one entry per completed epoch in each list, in epoch order, with the
   * values the batch trainer and the evaluator computed; at most `j` epochs run, and fewer
   * only when the driver stopped or raised.
   */
  lemma {:induction false} RunHistory(s: Script, j: nat, k: int, patience: int)
    requires Covers(s, j)
    ensures HistoryShape(s, j, k, RunEpochs(s, j, k, patience))
  {
    if j > 0 {
      assert RunEpochs(s, j, k, patience) == Next(s, j, k, patience, RunEpochs(s, j - 1, k, patience));
      RunHistory(s, j - 1, k, patience);
      HistoryStep(s, j, k, patience, RunEpochs(s, j - 1, k, patience));
    }
  }

  /** A running driver has completed every epoch it was given. */
  lemma RunLength(s: Script, j: nat, k: int, patience: int)
    requires Covers(s, j)
    ensures var d := RunEpochs(s, j, k, patience);
      d.status.Running? ==> |d.history.evalAccuracy| == j
  {
    RunHistory(s, j, k, patience);
  }

  /** One more epoch: every policy function moves on by the accuracy it records. */
  lemma PolicyAppend(accs: seq<real>, a: real)
    ensures var t := accs + [a];
      var improved := a > BestOf(accs);
      (ImprovesAt(t, |accs|) <==> improved) &&
      BestOf(t) == (if improved then a else BestOf(accs)) &&
      BestEpoch(t) == (if improved then |accs| + 1 else BestEpoch(accs)) &&
      Streak(t) == (if improved then 0 else Streak(accs) + 1) &&
      ImprovingEpochs(t) == ImprovingEpochs(accs) + (if improved then [|accs| + 1] else [])
  {
    var t := accs + [a];
    assert t[..|t| - 1] == accs;
  }

  /** The policy state is the policy functions of the recorded accuracies. */
  ghost predicate BestShape(d: Driver)
  {
    var accs := d.history.evalAccuracy;
    d.bestMetric == d.history.bestMetric == BestOf(accs) &&
    d.history.bestEpoch == BestEpoch(accs) &&
    d.epochsNoImprove == Streak(accs)
  }

  lemma BestStep(s: Script, j: nat, k: int, patience: int, d: Driver)
    requires Covers(s, j) && j > 0 && BestShape(d)
    requires d.status.Running? ==> |d.history.evalAccuracy| == j - 1
    ensures BestShape(Next(s, j, k, patience, d))
  {
    var losses, evalBatches := s.trainLosses[j - 1], s.evalBatches[j - 1];
    if d.status.Running? {
      assert Next(s, j, k, patience, d) == EpochStep(d, j - 1, losses, evalBatches, k, patience);
      if |losses| > 0 && k != 0 && Evaluate(evalBatches).Returned? {
        EpochStepCompletes(d, j - 1, losses, evalBatches, k, patience);
        PolicyAppend(d.history.evalAccuracy, Evaluate(evalBatches).value.accuracy);
      } else {
        EpochStepRaises(d, j - 1, losses, evalBatches, k, patience);
      }
    }
  }

  /**
   * `best_metric`, `history['best_metric']`, `history['best_epoch']` and `epochs_no_improve`
   * are the running maximum of the recorded accuracies, the epoch that first attained it and
   * the length of the trailing run of epochs that did not beat it.
   */
  lemma {:induction false} RunBest(s: Script, j: nat, k: int, patience: int)
    requires Covers(s, j)
    ensures BestShape(RunEpochs(s, j, k, patience))
  {
    if j > 0 {
      assert RunEpochs(s, j, k, patience) == Next(s, j, k, patience, RunEpochs(s, j - 1, k, patience));
      RunBest(s, j - 1, k, patience);
      RunLength(s, j - 1, k, patience);
      BestStep(s, j, k, patience, RunEpochs(s, j - 1, k, patience));
    }
  }

  lemma SavesCompletes(s: Script, j: nat, k: int, patience: int, d: Driver)
    requires Covers(s, j) && j > 0 && d.status.Running? && |d.history.evalAccuracy| == j - 1
    requires |s.trainLosses[j - 1]| > 0 && k != 0 && Evaluate(s.evalBatches[j - 1]).Returned?
    requires BestShape(d) && Saves(d.effects.trace) == ImprovingEpochs(d.history.evalAccuracy)
    ensures var d' := Next(s, j, k, patience, d);
      Saves(d'.effects.trace) == ImprovingEpochs(d'.history.evalAccuracy)
  {
    var losses, evalBatches := s.trainLosses[j - 1], s.evalBatches[j - 1];
    assert Next(s, j, k, patience, d) == EpochStep(d, j - 1, losses, evalBatches, k, patience);
    EpochStepCompletes(d, j - 1, losses, evalBatches, k, patience);
    SavesUnchangedByBatches(d.effects, j - 1, |losses|, k);
    var fx := AfterBatches(d.effects, j - 1, |losses|, k);
    PolicyAppend(d.history.evalAccuracy, Evaluate(evalBatches).value.accuracy);
    SavesAppend(fx.trace, [SaveCheckpoint(j)]);
    assert [SaveCheckpoint(j)][..0] == [];
    assert fx.trace + [] == fx.trace;
  }

  lemma SavesStep(s: Script, j: nat, k: int, patience: int, d: Driver)
    requires Covers(s, j) && j > 0 && BestShape(d)
    requires d.status.Running? ==> |d.history.evalAccuracy| == j - 1
    requires Saves(d.effects.trace) == ImprovingEpochs(d.history.evalAccuracy)
    ensures var d' := Next(s, j, k, patience, d);
      Saves(d'.effects.trace) == ImprovingEpochs(d'.history.evalAccuracy)
  {
    var losses, evalBatches := s.trainLosses[j - 1], s.evalBatches[j - 1];
    if d.status.Running? {
      if |losses| > 0 && k != 0 && Evaluate(evalBatches).Returned? {
        SavesCompletes(s, j, k, patience, d);
      } else {
        assert Next(s, j, k, patience, d) == EpochStep(d, j - 1, losses, evalBatches, k, patience);
        EpochStepRaises(d, j - 1, losses, evalBatches, k, patience);
        if |losses| > 0 && k != 0 {
          SavesUnchangedByBatches(d.effects, j - 1, |losses|, k);
        }
      }
    }
  }

  /** A checkpoint is saved after exactly the improving epochs, in order, and never after a tie. */
  lemma {:induction false} RunSaves(s: Script, j: nat, k: int, patience: int)
    requires Covers(s, j)
    ensures var d := RunEpochs(s, j, k, patience);
      Saves(d.effects.trace) == ImprovingEpochs(d.history.evalAccuracy)
  {
    if j > 0 {
      assert RunEpochs(s, j, k, patience) == Next(s, j, k, patience, RunEpochs(s, j - 1, k, patience));
      RunSaves(s, j - 1, k, patience);
      RunBest(s, j - 1, k, patience);
      RunLength(s, j - 1, k, patience);
      SavesStep(s, j, k, patience, RunEpochs(s, j - 1, k, patience));
    }
  }

  /** Steps never add a save, whatever the sign of `k`. */
  lemma {:induction false} SavesUnchangedByBatches(fx: Effects, epoch: nat, i: nat, k: int)
    requires k != 0
    ensures Saves(AfterBatches(fx, epoch, i, k).trace) == Saves(fx.trace)
  {
    if i > 0 {
      SavesUnchangedByBatches(fx, epoch, i - 1, k);
      var prev := AfterBatches(fx, epoch, i - 1, k);
      var grads := prev.grads + [BatchRef(epoch, i - 1)];
      StepEventsCounts(grads);
      SavesAppend(prev.trace, StepEvents(grads));
    }
  }

  /** The driver is stopped exactly when the policy says so, and no earlier prefix would have stopped it. */
  ghost predicate StopShape(patience: int, d: Driver)
  {
    var accs := d.history.evalAccuracy;
    (d.status.EarlyStopped? <==> StopsAfter(accs, patience)) &&
    (forall i | 0 < i < |accs| :: !StopsAfter(accs[..i], patience)) &&
    Streak(accs) <= Max(patience, 1)
  }

  /** Recording one more accuracy after a run that did not stop keeps every proper prefix from stopping. */
  lemma StopShapeAppend(accs: seq<real>, a: real, patience: int)
    requires !StopsAfter(accs, patience)
    requires forall i | 0 < i < |accs| :: !StopsAfter(accs[..i], patience)
    ensures var t := accs + [a];
      (forall i | 0 < i < |t| :: !StopsAfter(t[..i], patience)) && Streak(t) <= Max(patience, 1)
  {
    var t := accs + [a];
    forall i | 0 < i < |t| ensures !StopsAfter(t[..i], patience) {
      assert t[..i] == accs[..i];
      if i == |accs| {
        assert accs[..i] == accs;
      }
    }
    StreakBoundedByPatience(t, patience);
  }

  lemma StopShapeWithoutNewEpoch(patience: int, d: Driver, d': Driver)
    requires d.status.Running? && StopShape(patience, d)
    requires d'.status.Failed? && d'.history.evalAccuracy == d.history.evalAccuracy
    ensures StopShape(patience, d')
  {
  }

  lemma StopCompletes(s: Script, j: nat, k: int, patience: int, d: Driver)
    requires Covers(s, j) && j > 0 && d.status.Running?
    requires |s.trainLosses[j - 1]| > 0 && k != 0 && Evaluate(s.evalBatches[j - 1]).Returned?
    requires BestShape(d) && StopShape(patience, d)
    ensures StopShape(patience, Next(s, j, k, patience, d))
  {
    var losses, evalBatches := s.trainLosses[j - 1], s.evalBatches[j - 1];
    assert Next(s, j, k, patience, d) == EpochStep(d, j - 1, losses, evalBatches, k, patience);
    EpochStepCompletes(d, j - 1, losses, evalBatches, k, patience);
    var a := Evaluate(evalBatches).value.accuracy;
    PolicyAppend(d.history.evalAccuracy, a);
    StopShapeAppend(d.history.evalAccuracy, a, patience);
  }

  lemma StopStep(s: Script, j: nat, k: int, patience: int, d: Driver)
    requires Covers(s, j) && j > 0 && BestShape(d) && StopShape(patience, d)
    ensures StopShape(patience, Next(s, j, k, patience, d))
  {
    var losses, evalBatches := s.trainLosses[j - 1], s.evalBatches[j - 1];
    if d.status.Running? {
      if |losses| > 0 && k != 0 && Evaluate(evalBatches).Returned? {
        StopCompletes(s, j, k, patience, d);
      } else {
        EpochStepRaises(d, j - 1, losses, evalBatches, k, patience);
        StopShapeWithoutNewEpoch(patience, d, Next(s, j, k, patience, d));
      }
    }
  }

  /**
   * The loop stops early exactly after the first epoch at which the non-improving streak
   * reaches `patience`, and never ran a longer streak before.
   */
  lemma {:induction false} RunStopping(s: Script, j: nat, k: int, patience: int)
    requires Covers(s, j)
    ensures StopShape(patience, RunEpochs(s, j, k, patience))
  {
    if j > 0 {
      assert RunEpochs(s, j, k, patience) == Next(s, j, k, patience, RunEpochs(s, j - 1, k, patience));
      RunStopping(s, j - 1, k, patience);
      RunBest(s, j - 1, k, patience);
      StopStep(s, j, k, patience, RunEpochs(s, j - 1, k, patience));
    }
  }

  /** A completed epoch of `n` batches adds `n / k` calls of every kind but saves. */
  lemma StepsCompletes(d: Driver, epoch: nat, losses: seq<real>, evalBatches: seq<EvalBatch>, k: int, patience: int, kind: EventKind)
    requires d.status.Running? && WellFormedBatches(evalBatches)
    requires |losses| > 0 && k >= 1 && Evaluate(evalBatches).Returned? && kind != Save
    ensures var d' := EpochStep(d, epoch, losses, evalBatches, k, patience);
      |d'.history.evalAccuracy| == |d.history.evalAccuracy| + 1 &&
      Occurrences(d'.effects.trace, kind) == Occurrences(d.effects.trace, kind) + |losses| / k
  {
    EpochStepCompletes(d, epoch, losses, evalBatches, k, patience);
    CountsAfterBatches(d.effects, epoch, |losses|, k, kind);
    var fx := AfterBatches(d.effects, epoch, |losses|, k);
    var save := [SaveCheckpoint(epoch + 1)];
    OccurrencesAppend(fx.trace, save, kind);
    assert save[..0] == [];
    assert fx.trace + [] == fx.trace;
  }

  lemma MulSucc(m: int, q: int)
    ensures (m + 1) * q == m * q + q
  {
  }

  lemma StepsStep(s: Script, j: nat, k: int, patience: int, n: nat, kind: EventKind, d: Driver)
    requires Covers(s, j) && j > 0 && k >= 1 && kind != Save && |s.trainLosses[j - 1]| == n
    requires !d.status.Failed? ==> Occurrences(d.effects.trace, kind) == |d.history.evalAccuracy| * (n / k)
    ensures var d' := Next(s, j, k, patience, d);
      !d'.status.Failed? ==> Occurrences(d'.effects.trace, kind) == |d'.history.evalAccuracy| * (n / k)
  {
    var losses, evalBatches := s.trainLosses[j - 1], s.evalBatches[j - 1];
    if d.status.Running? {
      assert Next(s, j, k, patience, d) == EpochStep(d, j - 1, losses, evalBatches, k, patience);
      if n > 0 && Evaluate(evalBatches).Returned? {
        StepsCompletes(d, j - 1, losses, evalBatches, k, patience, kind);
        var d' := EpochStep(d, j - 1, losses, evalBatches, k, patience);
        assert Next(s, j, k, patience, d) == d';
        var m, q := |d.history.evalAccuracy|, n / k;
        assert Occurrences(d'.effects.trace, kind) == m * q + q;
        MulSucc(m, q);
      } else {
        EpochStepRaises(d, j - 1, losses, evalBatches, k, patience);
      }
    }
  }

  /**
   * With `N` batches in every epoch and `k >= 1`, a run that did not raise made exactly
   * `N / k` calls of the given kind (optimizer step, scheduler step, clip or zero_grad) per
   * completed epoch.
   */
  lemma {:induction false} RunSteps(s: Script, j: nat, k: int, patience: int, n: nat, kind: EventKind)
    requires Covers(s, j) && k >= 1 && kind != Save
    requires forall e | 0 <= e < j :: |s.trainLosses[e]| == n
    ensures var d := RunEpochs(s, j, k, patience);
      !d.status.Failed? ==> Occurrences(d.effects.trace, kind) == |d.history.evalAccuracy| * (n / k)
  {
    if j > 0 {
      assert RunEpochs(s, j, k, patience) == Next(s, j, k, patience, RunEpochs(s, j - 1, k, patience));
      RunSteps(s, j - 1, k, patience, n, kind);
      StepsStep(s, j, k, patience, n, kind, RunEpochs(s, j - 1, k, patience));
    }
  }

  lemma ZeroGradStep(s: Script, j: nat, k: int, patience: int, d: Driver)
    requires Covers(s, j) && j > 0 && ZeroGradFollowsStep(d.effects.trace)
    ensures ZeroGradFollowsStep(Next(s, j, k, patience, d).effects.trace)
  {
    var losses, evalBatches := s.trainLosses[j - 1], s.evalBatches[j - 1];
    if d.status.Running? {
      assert Next(s, j, k, patience, d) == EpochStep(d, j - 1, losses, evalBatches, k, patience);
      if |losses| > 0 && k != 0 {
        EpochTraceShape(d.effects, j - 1, |losses|, k);
        var t := AfterBatches(d.effects, j - 1, |losses|, k).trace;
        assert t == d.effects.trace + t[|d.effects.trace|..];
        ZeroGradFollowsStepAppend(d.effects.trace, t[|d.effects.trace|..]);
        ZeroGradFollowsStepAppend(t, [SaveCheckpoint(j)]);
        assert t + [] == t;
      }
      if |losses| > 0 && k != 0 && Evaluate(evalBatches).Returned? {
        EpochStepCompletes(d, j - 1, losses, evalBatches, k, patience);
      } else {
        EpochStepRaises(d, j - 1, losses, evalBatches, k, patience);
      }
    }
  }

  /** Over the whole run, every zero_grad comes right after a clip, an optimizer step and a scheduler step. */
  lemma {:induction false} RunZeroGradFollowsStep(s: Script, j: nat, k: int, patience: int)
    requires Covers(s, j)
    ensures ZeroGradFollowsStep(RunEpochs(s, j, k, patience).effects.trace)
  {
    if j > 0 {
      assert RunEpochs(s, j, k, patience) == Next(s, j, k, patience, RunEpochs(s, j - 1, k, patience));
      RunZeroGradFollowsStep(s, j - 1, k, patience);
      ZeroGradStep(s, j, k, patience, RunEpochs(s, j - 1, k, patience));
    }
  }

  /**
   * The scheduler is given `N * epochs // k` steps; a run never takes more, because each
   * epoch rounds its own `N / k` down.  The two agree when `k` divides `N`.
   */
  lemma ScheduledStepsCoverRun(n: nat, numEpochs: nat, m: nat, k: int)
    requires k >= 1 && m <= numEpochs
    ensures TotalSteps(n, numEpochs, k) == Returned(n * numEpochs / k)
    ensures m * (n / k) <= n * numEpochs / k
    ensures n % k == 0 ==> numEpochs * (n / k) == n * numEpochs / k
  {
    var q, r := n / k, n % k;
    assert n == q * k + r;
    assert m * q <= numEpochs * q;
    assert n * numEpochs == (numEpochs * q) * k + numEpochs * r;
    LowerBoundDiv(n * numEpochs, k, numEpochs * q);
    if r == 0 {
      DivModUnique(n * numEpochs, k, numEpochs * q, 0);
    }
  }

  lemma LowerBoundDiv(a: int, k: int, c: int)
    requires k >= 1 && c * k <= a
    ensures c <= a / k
  {
    var q, r := a / k, a % k;
    assert a == q * k + r;
    MulSign(c - q, k);
    assert (c - q) * k == c * k - q * k;
  }

  /** Four batches with accumulation factor 2 give two optimizer steps in the epoch. */
  lemma FourBatchesTwoSteps()
    ensures Occurrences(AfterBatches(Effects([], []), 0, 4, 2).trace, Step) == 2
  {
    CountsAfterBatches(Effects([], []), 0, 4, 2, Step);
  }

  /**
   * Patience 3 and accuracies 0.70, 0.72, 0.71, 0.70, 0.69: the best is 0.72 at epoch 2 and
   * the loop stops after epoch 5, not earlier.
   */
  lemma PatienceScenario()
    ensures var accs := [0.70, 0.72, 0.71, 0.70, 0.69];
      BestOf(accs) == 0.72 && BestEpoch(accs) == 2 && StopsAfter(accs, 3) &&
      forall i | 0 < i < 5 :: !StopsAfter(accs[..i], 3)
  {
    var accs := [0.70, 0.72, 0.71, 0.70, 0.69];
    var p1, p2, p3, p4 := accs[..1], accs[..2], accs[..3], accs[..4];
    assert p1 == [0.70] && p1[..0] == [];
    assert p2 == [0.70, 0.72] && p2[..1] == p1;
    assert p3 == [0.70, 0.72, 0.71] && p3[..2] == p2;
    assert p4 == [0.70, 0.72, 0.71, 0.70] && p4[..3] == p3;
    assert accs[..4] == p4;
    assert BestOf(p1) == 0.70 && ImprovesAt(p1, 0) && Streak(p1) == 0;
    assert BestOf(p2) == 0.72 && ImprovesAt(p2, 1) && Streak(p2) == 0 && BestEpoch(p2) == 2;
    assert BestOf(p3) == 0.72 && !ImprovesAt(p3, 2) && Streak(p3) == 1 && BestEpoch(p3) == 2;
    assert BestOf(p4) == 0.72 && !ImprovesAt(p4, 3) && Streak(p4) == 2 && BestEpoch(p4) == 2;
    assert !ImprovesAt(accs, 4) && Streak(accs) == 3;
  }
}
