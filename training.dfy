/** The control flow of `train_model_simple`: the checkpoint-load fallback, the
    schedule constants derived from the configuration, the resume arithmetic,
    and the micro-batch state machine that decides gradient synchronisation,
    optimizer steps, evaluation and checkpointing. Tensors, the loss, gradient
    clipping and AdamW are abstracted to the events they cause. */
module Training {
  import opened Common
  import opened LrSchedule

  /** How the `try: load_checkpoint(...)` block ends. `load_checkpoint` restores the model,
      then the optimizer (including each group's `lr`), then the RNG state, and only then
      reads `step` and `total_time`; every exception is caught and training starts afresh. */
  datatype LoadOutcome =
    | FileMissing                                          // FileNotFoundError
    | FailedBeforeOptimizer                                // torch.load or the model state raised
    | FailedAfterOptimizer(restoredLr: real)               // optimizer restored, a later step raised
    | Loaded(step: nat, totalTime: real, restoredLr: real) // everything restored

  /** The `ZeroDivisionError`s of the set-up code. */
  datatype SetupError =
    | MicroBatchSizeZero    // batch_size // micro_batch_size
    | AccumulationStepsZero // len(train_loader) // grad_accum_steps
    | EpochStepsZero        // global_step // per_epoch_steps

  /** The values `train_model_simple` computes before its epoch loop. */
  datatype Plan = Plan(
    accumSteps: nat,     // grad_accum_steps
    perEpochSteps: nat,  // per_epoch_steps
    maxSteps: nat,       // max_steps
    warmupSteps: nat,    // warmup_steps
    maxLr: real,         // max_lr, read from the first parameter group
    minLr: real,         // min_lr
    globalStep: nat,     // global_step after the load attempt
    prevTime: real,      // prev_time after the load attempt
    currEpoch: nat,      // curr_epoch
    resumeGroups: nat,   // global_step % per_epoch_steps, the length of the skip loop
    numBatches: nat,     // len(train_loader), micro-batches per epoch
    numEpochs: nat)      // num_epochs

  /** The set-up of `train_model_simple` for a loader of `numBatches` micro-batches, the
      optimizer's configured rate `learningRate` and the way the checkpoint load ended. */
  function Setup(batchSize: nat, microBatchSize: nat, numBatches: nat, numEpochs: nat,
                 learningRate: real, outcome: LoadOutcome): (r: Result<Plan, SetupError>)
    ensures r.Success? <==> 0 < microBatchSize <= batchSize && batchSize / microBatchSize <= numBatches
    ensures r.Failure? ==>
      r.error == (if microBatchSize == 0 then MicroBatchSizeZero
                  else if batchSize < microBatchSize then AccumulationStepsZero
                  else EpochStepsZero)
    // any failed load leaves global_step and prev_time at 0
    ensures r.Success? ==>
      (r.value.globalStep, r.value.prevTime) == if outcome.Loaded? then (outcome.step, outcome.totalTime) else (0, 0.0)
    // max_lr is read after the load, so a restored optimizer supplies it
    ensures r.Success? ==>
      r.value.maxLr == if outcome.FileMissing? || outcome.FailedBeforeOptimizer? then learningRate else outcome.restoredLr
    ensures r.Success? ==> r.value.minLr * 10.0 == r.value.maxLr
    ensures r.Success? ==>
      var p := r.value;
      && p.accumSteps * microBatchSize <= batchSize < (p.accumSteps + 1) * microBatchSize
      && p.perEpochSteps * p.accumSteps <= numBatches < (p.perEpochSteps + 1) * p.accumSteps
      && p.maxSteps == p.perEpochSteps * numEpochs
      && p.warmupSteps * 10 <= p.maxSteps < (p.warmupSteps + 1) * 10
      && (numEpochs > 0 ==> p.warmupSteps < p.maxSteps)
      && p.globalStep == p.currEpoch * p.perEpochSteps + p.resumeGroups
      && p.resumeGroups < p.perEpochSteps
      && p.numBatches == numBatches && p.numEpochs == numEpochs
  {
    var step: nat := if outcome.Loaded? then outcome.step else 0;
    var prevTime := if outcome.Loaded? then outcome.totalTime else 0.0;
    if microBatchSize == 0 then
      Failure(MicroBatchSizeZero)
    else
      PositiveQuotient(batchSize, microBatchSize);
      FloorDivBounds(batchSize, microBatchSize);
      var g := batchSize / microBatchSize;
      var maxLr := if outcome.FileMissing? || outcome.FailedBeforeOptimizer? then learningRate else outcome.restoredLr;
      if g == 0 then
        Failure(AccumulationStepsZero)
      else
        PositiveQuotient(numBatches, g);
        if numBatches / g == 0 then
          Failure(EpochStepsZero)
        else
          Success(PlanFor(g, numBatches, numEpochs, maxLr, step, prevTime))
  }

  /** The plan once `grad_accum_steps` is known and `per_epoch_steps` is positive. */
  function PlanFor(g: nat, numBatches: nat, numEpochs: nat, maxLr: real, step: nat, prevTime: real): (p: Plan)
    requires 0 < g <= numBatches
    ensures p.accumSteps == g && p.numBatches == numBatches && p.numEpochs == numEpochs
    ensures p.maxLr == maxLr && p.minLr * 10.0 == maxLr
    ensures p.globalStep == step && p.prevTime == prevTime
    ensures p.perEpochSteps * g <= numBatches < (p.perEpochSteps + 1) * g
    ensures p.maxSteps == p.perEpochSteps * numEpochs
    ensures p.warmupSteps * 10 <= p.maxSteps < (p.warmupSteps + 1) * 10
    ensures numEpochs > 0 ==> p.warmupSteps < p.maxSteps
    ensures p.globalStep == p.currEpoch * p.perEpochSteps + p.resumeGroups
    ensures p.resumeGroups < p.perEpochSteps
  {
    FloorDivBounds(numBatches, g);
    PositiveQuotient(numBatches, g);
    var perEpochSteps := numBatches / g;
    var maxSteps := perEpochSteps * numEpochs;
    assert numEpochs > 0 ==> maxSteps >= 1 by {
      if numEpochs > 0 {
        assert perEpochSteps * numEpochs >= 1 * numEpochs;
      }
    }
    var (currEpoch, resumeGroups) := DivMod(step, perEpochSteps);
    Plan(g, perEpochSteps, maxSteps, WarmupSteps(maxSteps), maxLr, 0.1 * maxLr, step, prevTime,
         currEpoch, resumeGroups, numBatches, numEpochs)
  }

  /** `int(0.1 * max_steps)`, the whole part of a tenth. */
  function WarmupSteps(maxSteps: nat): (w: nat)
    ensures w * 10 <= maxSteps < (w + 1) * 10
    ensures maxSteps > 0 ==> w < maxSteps
  {
    maxSteps / 10
  }

  /** `divmod`-style split of `step` by `d`: `step == q * d + r` with `r < d`. */
  function DivMod(step: nat, d: nat): (qr: (nat, nat))
    requires d > 0
    ensures step == qr.0 * d + qr.1 && qr.1 < d
  {
    var q, r := step / d, step % d;
    FloorDivBounds(step, d);
    (q, r)
  }

  /** Whenever training runs at all (`num_epochs > 0`), `get_lr` never takes its swallowed
      exception path: every step gets a rate, and with a non-negative `max_lr` and a cosine
      as `CosLike` states, the rate lies in `[0, max_lr]`, equal to `min_lr` past `max_steps`. */
  lemma LrDefinedThroughoutTraining(batchSize: nat, microBatchSize: nat, numBatches: nat, numEpochs: nat,
                                    learningRate: real, outcome: LoadOutcome, iteration: nat, cos: real -> real)
    requires Setup(batchSize, microBatchSize, numBatches, numEpochs, learningRate, outcome).Success?
    requires numEpochs > 0
    ensures var p := Setup(batchSize, microBatchSize, numBatches, numEpochs, learningRate, outcome).value;
      GetLr(iteration, p.maxLr, p.minLr, p.maxSteps, p.warmupSteps, cos).Some?
    ensures var p := Setup(batchSize, microBatchSize, numBatches, numEpochs, learningRate, outcome).value;
      p.maxLr >= 0.0 && CosLike(cos) ==>
        0.0 <= GetLr(iteration, p.maxLr, p.minLr, p.maxSteps, p.warmupSteps, cos).value <= p.maxLr
    ensures var p := Setup(batchSize, microBatchSize, numBatches, numEpochs, learningRate, outcome).value;
      iteration > p.maxSteps ==> GetLr(iteration, p.maxLr, p.minLr, p.maxSteps, p.warmupSteps, cos) == Some(p.minLr)
  {
    var p := Setup(batchSize, microBatchSize, numBatches, numEpochs, learningRate, outcome).value;
    if p.maxLr >= 0.0 && CosLike(cos) {
      if iteration < p.warmupSteps {
        WarmupValue(iteration, p.maxLr, p.minLr, p.maxSteps, p.warmupSteps, cos);
        WarmupRamp(iteration, p.maxLr, p.minLr, p.maxSteps, p.warmupSteps, cos);
        if p.maxLr == 0.0 {
          assert p.maxLr * (iteration + 1) as real == 0.0;
        }
      } else if iteration <= p.maxSteps {
        DecayBounds(iteration, p.maxLr, p.minLr, p.maxSteps, p.warmupSteps, cos);
      }
    }
  }

  /** From a fresh start a full run takes `num_epochs * ceil(n / g)` optimizer steps, which is
      at least `max_steps = num_epochs * floor(n / g)`; the two agree exactly when `g` divides
      the number of micro-batches `n`, otherwise the last `num_epochs` steps run past the
      schedule at `min_lr`. */
  lemma RunLengthVersusSchedule(numBatches: nat, accumSteps: nat, numEpochs: nat)
    requires accumSteps > 0
    ensures numEpochs * (numBatches / accumSteps) <= numEpochs * CeilDiv(numBatches, accumSteps)
    ensures numEpochs > 0 ==>
      ((numEpochs * (numBatches / accumSteps) == numEpochs * CeilDiv(numBatches, accumSteps))
        <==> numBatches % accumSteps == 0)
    ensures numEpochs * CeilDiv(numBatches, accumSteps) - numEpochs * (numBatches / accumSteps)
      == if numBatches % accumSteps == 0 then 0 else numEpochs
  {
    var q, r := numBatches / accumSteps, numBatches % accumSteps;
    assert numBatches == q * accumSteps + r;
    if r == 0 {
      DivModOf(q, accumSteps, accumSteps - 1);
      assert numBatches + accumSteps - 1 == q * accumSteps + (accumSteps - 1);
    } else {
      DivModOf(q + 1, accumSteps, r - 1);
      assert numBatches + accumSteps - 1 == (q + 1) * accumSteps + (r - 1);
    }
    assert numEpochs * (q + 1) == numEpochs * q + numEpochs;
  }

  /** `s` is `base` followed by positive entries only. */
  ghost predicate PositiveExtension(s: seq<nat>, base: seq<nat>)
  {
    && |base| <= |s| && s[..|base|] == base
    && forall j :: |base| <= j < |s| ==> s[j] >= 1
  }

  /** Appending a positive step to a positive extension keeps it one. */
  lemma ExtendPositive(s: seq<nat>, base: seq<nat>, x: nat)
    requires PositiveExtension(s, base) && x >= 1
    ensures PositiveExtension(s + [x], base)
  {
    assert (s + [x])[..|base|] == s[..|base|];
  }

  /** Positive extensions compose: what one epoch adds on top of another stays positive. */
  lemma ExtendPositiveTrans(s: seq<nat>, mid: seq<nat>, base: seq<nat>)
    requires PositiveExtension(s, mid) && PositiveExtension(mid, base)
    ensures PositiveExtension(s, base)
  {
    assert s[..|base|] == s[..|mid|][..|base|];
    forall j | |base| <= j < |s|
      ensures s[j] >= 1
    {
      if j < |mid| {
        assert s[j] == s[..|mid|][j];
      }
    }
  }

  /** `n` copies of `x`: every parameter group set to the same `lr`. */
  function Repeat(x: Option<real>, n: nat): (r: seq<Option<real>>)
    ensures |r| == n && forall j :: 0 <= j < n ==> r[j] == x
  {
    if n == 0 then [] else Repeat(x, n - 1) + [x]
  }

  /** What the inner loop of `train_model_simple` reads: `grad_accum_steps`, `eval_freq`,
      `checkpoint_step`, the worker's rank, and `get_lr` with the run's fixed arguments. */
  datatype LoopConfig = LoopConfig(
    accumSteps: nat, evalFreq: nat, checkpointStep: nat, rank: nat, lrAt: nat -> Option<real>)

  /** The moduli `i % g`, `i % eval_freq` and `i % checkpoint_step` are defined. */
  predicate ValidConfig(c: LoopConfig)
  {
    c.accumSteps > 0 && c.evalFreq > 0 && c.checkpointStep > 0
  }

  /** What the inner loop changes: `global_step`, each group's `lr`, whether gradients are held,
      `require_backward_grad_sync`, two counters of how gradients reached the optimizer, and the
      `global_step` seen by each evaluation and each saved checkpoint. */
  datatype LoopState = LoopState(
    globalStep: nat,
    groupLrs: seq<Option<real>>,
    gradsPresent: bool,
    gradSync: bool,
    syncedBackwards: nat,
    stepsOnLocalGradients: nat,
    evaluations: seq<nat>,
    checkpoints: seq<nat>)

  /** Micro-batch `i` of an epoch. The forward pass in `calc_loss_batch` reads
      `require_backward_grad_sync` as the previous micro-batch left it, and that value decides
      whether the backward pass right after it all-reduces; only then is the flag set to
      `i % g == g - 1`. Exactly when `i % g == 0` every group gets `get_lr(global_step)`, the
      optimizer steps, every gradient is cleared and `global_step` rises by one. Evaluation
      records the updated `global_step` when `i % eval_freq == 0`, and rank 0 saves it when
      `i % checkpoint_step == 0`. */
  function Tick(c: LoopConfig, s: LoopState, i: nat): (t: LoopState)
    requires ValidConfig(c)
    ensures |t.groupLrs| == |s.groupLrs|
  {
    var g := c.accumSteps;
    var reduce := s.gradSync;
    var stepNow := i % g == 0;
    var step := if stepNow then s.globalStep + 1 else s.globalStep;
    LoopState(
      step,
      if stepNow then Repeat(c.lrAt(s.globalStep), |s.groupLrs|) else s.groupLrs,
      !stepNow,
      i % g == g - 1,
      s.syncedBackwards + (if reduce then 1 else 0),
      s.stepsOnLocalGradients + (if stepNow && !reduce then 1 else 0),
      s.evaluations + (if i % c.evalFreq == 0 then [step] else []),
      s.checkpoints + (if c.rank == 0 && i % c.checkpointStep == 0 then [step] else []))
  }

  /** The state after micro-batches `0 .. n-1` of one epoch. */
  function Run(c: LoopConfig, s: LoopState, n: nat): (t: LoopState)
    requires ValidConfig(c)
    ensures |t.groupLrs| == |s.groupLrs|
    decreases n
  {
    if n == 0 then s else Tick(c, Run(c, s, n - 1), n - 1)
  }

  /** An epoch of `n` micro-batches takes `ceil(n / g)` optimizer steps. */
  lemma {:induction false} RunStepCounts(c: LoopConfig, s: LoopState, n: nat)
    requires ValidConfig(c)
    ensures Run(c, s, n).globalStep == s.globalStep + CeilDiv(n, c.accumSteps)
  {
    if n > 0 {
      RunStepCounts(c, s, n - 1);
      CeilDivStep(n - 1, c.accumSteps);
    }
  }

  /** In a non-empty epoch of `n` micro-batches, the first backward pass all-reduces exactly
      when the flag was left set on entry, and every later one exactly when it belongs to a
      micro-batch with `i % g == 0`: `ceil(n / g) - 1` of them. So only the epoch's first
      optimizer step can follow a backward pass that did not all-reduce, and it does exactly
      when the flag was clear on entry. */
  lemma {:induction false} RunSyncCounts(c: LoopConfig, s: LoopState, n: nat)
    requires ValidConfig(c) && n > 0
    ensures Run(c, s, n).syncedBackwards + 1
      == s.syncedBackwards + (if s.gradSync then 1 else 0) + CeilDiv(n, c.accumSteps)
    ensures Run(c, s, n).stepsOnLocalGradients
      == s.stepsOnLocalGradients + (if s.gradSync then 0 else 1)
  {
    var g := c.accumSteps;
    var prev := Run(c, s, n - 1);
    TickSync(c, prev, n - 1);
    if n == 1 {
      DivModOf(1, g, 0);
      assert 1 + g - 1 == 1 * g + 0;
    } else {
      RunSyncCounts(c, s, n - 1);
      RunLastStep(c, s, n - 1);
      PrevRemainder(n - 1, g);
      CeilDivStep(n - 1, g);
    }
  }

  /** How one micro-batch moves the synchronisation counters and the flag. */
  lemma TickSync(c: LoopConfig, s: LoopState, i: nat)
    requires ValidConfig(c)
    ensures Tick(c, s, i).syncedBackwards == s.syncedBackwards + (if s.gradSync then 1 else 0)
    ensures Tick(c, s, i).stepsOnLocalGradients
      == s.stepsOnLocalGradients + (if i % c.accumSteps == 0 && !s.gradSync then 1 else 0)
    ensures Tick(c, s, i).gradSync == (i % c.accumSteps == c.accumSteps - 1)
  {
  }

  /** An epoch of `n` micro-batches evaluates `ceil(n / eval_freq)` times and, on rank 0,
      saves `ceil(n / checkpoint_step)` checkpoints; other ranks save none. */
  lemma {:induction false} RunRecordCounts(c: LoopConfig, s: LoopState, n: nat)
    requires ValidConfig(c)
    ensures |Run(c, s, n).evaluations| == |s.evaluations| + CeilDiv(n, c.evalFreq)
    ensures |Run(c, s, n).checkpoints|
      == |s.checkpoints| + (if c.rank == 0 then CeilDiv(n, c.checkpointStep) else 0)
  {
    if n > 0 {
      RunRecordCounts(c, s, n - 1);
      CeilDivStep(n - 1, c.evalFreq);
      CeilDivStep(n - 1, c.checkpointStep);
    }
  }

  /** After a non-empty epoch every group holds the rate of the last optimizer step,
      `get_lr(global_step - 1)`; gradients are held exactly when the last micro-batch did not
      start a group, i.e. when `(n - 1) % g != 0`; and the flag is left set exactly when the
      last micro-batch closed a group, `(n - 1) % g == g - 1`. */
  lemma {:induction false} RunLastStep(c: LoopConfig, s: LoopState, n: nat)
    requires ValidConfig(c) && n > 0
    ensures Run(c, s, n).globalStep >= 1
    ensures Run(c, s, n).groupLrs == Repeat(c.lrAt(Run(c, s, n).globalStep - 1), |s.groupLrs|)
    ensures Run(c, s, n).gradsPresent == ((n - 1) % c.accumSteps != 0)
    ensures Run(c, s, n).gradSync == ((n - 1) % c.accumSteps == c.accumSteps - 1)
  {
    if (n - 1) % c.accumSteps != 0 {
      RunLastStep(c, s, n - 1);
    }
  }

  /** Every evaluation and every checkpoint of an epoch records a positive `global_step`, so
      the ETA `elapsed / global_step` never divides by zero; earlier records are kept. */
  lemma {:induction false} RunRecordsPositive(c: LoopConfig, s: LoopState, n: nat)
    requires ValidConfig(c)
    ensures PositiveExtension(Run(c, s, n).evaluations, s.evaluations)
    ensures PositiveExtension(Run(c, s, n).checkpoints, s.checkpoints)
  {
    if n > 0 {
      var prev := Run(c, s, n - 1);
      RunRecordsPositive(c, s, n - 1);
      RunLastStep(c, s, n);
      var step := Run(c, s, n).globalStep;
      if (n - 1) % c.evalFreq == 0 {
        ExtendPositive(prev.evaluations, s.evaluations, step);
      } else {
        assert Run(c, s, n).evaluations == prev.evaluations + [];
      }
      if c.rank == 0 && (n - 1) % c.checkpointStep == 0 {
        ExtendPositive(prev.checkpoints, s.checkpoints, step);
      } else {
        assert Run(c, s, n).checkpoints == prev.checkpoints + [];
      }
    } else {
      assert s.evaluations[..|s.evaluations|] == s.evaluations;
      assert s.checkpoints[..|s.checkpoints|] == s.checkpoints;
    }
  }

  /** The state after `e` epochs of `n` micro-batches each: `i` restarts at 0 in every epoch
      while everything else carries over. */
  function Epochs(c: LoopConfig, s: LoopState, n: nat, e: nat): (t: LoopState)
    requires ValidConfig(c)
    ensures |t.groupLrs| == |s.groupLrs|
    decreases e
  {
    if e == 0 then s else Run(c, Epochs(c, s, n, e - 1), n)
  }

  /** `e` epochs of `n` micro-batches take `e * ceil(n / g)` optimizer steps, evaluate
      `e * ceil(n / eval_freq)` times and, on rank 0, save `e * ceil(n / checkpoint_step)`
      checkpoints. */
  lemma {:induction false} EpochsCounts(c: LoopConfig, s: LoopState, n: nat, e: nat)
    requires ValidConfig(c)
    ensures Epochs(c, s, n, e).globalStep == s.globalStep + e * CeilDiv(n, c.accumSteps)
    ensures |Epochs(c, s, n, e).evaluations| == |s.evaluations| + e * CeilDiv(n, c.evalFreq)
    ensures |Epochs(c, s, n, e).checkpoints|
      == |s.checkpoints| + (if c.rank == 0 then e * CeilDiv(n, c.checkpointStep) else 0)
  {
    if e > 0 {
      var prev := Epochs(c, s, n, e - 1);
      EpochsCounts(c, s, n, e - 1);
      RunStepCounts(c, prev, n);
      RunRecordCounts(c, prev, n);
      MulStep(e, CeilDiv(n, c.accumSteps));
      MulStep(e, CeilDiv(n, c.evalFreq));
      MulStep(e, CeilDiv(n, c.checkpointStep));
    }
  }

  /** `e` copies of `k` are `e - 1` copies and one more. */
  lemma MulStep(e: nat, k: nat)
    requires e > 0
    ensures e * k == (e - 1) * k + k
  {
  }

  /** Every evaluation and every checkpoint of `e` epochs records a positive `global_step`;
      earlier records are kept. */
  lemma {:induction false} EpochsRecordsPositive(c: LoopConfig, s: LoopState, n: nat, e: nat)
    requires ValidConfig(c)
    ensures PositiveExtension(Epochs(c, s, n, e).evaluations, s.evaluations)
    ensures PositiveExtension(Epochs(c, s, n, e).checkpoints, s.checkpoints)
  {
    if e == 0 {
      assert s.evaluations[..|s.evaluations|] == s.evaluations;
      assert s.checkpoints[..|s.checkpoints|] == s.checkpoints;
    } else {
      var prev := Epochs(c, s, n, e - 1);
      var t := Run(c, prev, n);
      EpochsRecordsPositive(c, s, n, e - 1);
      RunRecordsPositive(c, prev, n);
      ExtendPositiveTrans(t.evaluations, prev.evaluations, s.evaluations);
      ExtendPositiveTrans(t.checkpoints, prev.checkpoints, s.checkpoints);
    }
  }

  /** After `e >= 1` non-empty epochs the flag is left set exactly when `g` divides `n`. Only
      the first optimizer step of an epoch can follow a backward pass that did not all-reduce:
      in the first epoch it does when the flag was clear on entry, and in every later epoch
      exactly when `g` does not divide `n`, since the previous epoch's last micro-batch then
      cleared the flag. */
  lemma {:induction false} EpochsLocalSteps(c: LoopConfig, s: LoopState, n: nat, e: nat)
    requires ValidConfig(c) && n > 0 && e > 0
    ensures Epochs(c, s, n, e).gradSync == (n % c.accumSteps == 0)
    ensures Epochs(c, s, n, e).stepsOnLocalGradients
      == s.stepsOnLocalGradients + (if s.gradSync then 0 else 1)
         + (e - 1) * (if n % c.accumSteps == 0 then 0 else 1)
  {
    var prev := Epochs(c, s, n, e - 1);
    RunLastStep(c, prev, n);
    PrevRemainder(n, c.accumSteps);
    RunSyncCounts(c, prev, n);
    if e > 1 {
      EpochsLocalSteps(c, s, n, e - 1);
      MulStep(e - 1, if n % c.accumSteps == 0 then 0 else 1);
    }
  }

  /** The training state one worker keeps while it runs the epochs. */
  class Trainer {
    const plan: Plan
    const evalFreq: nat
    const checkpointStep: nat
    const rank: nat
    /** `get_lr` with this run's `max_lr`, `min_lr`, `max_steps` and `warmup_steps`. */
    const lrAt: nat -> Option<real>

    var globalStep: nat
    /** `param_group['lr']` of the two parameter groups. */
    var groupLrs: seq<Option<real>>
    /** Some `param.grad` is not `None`. */
    var gradsPresent: bool
    /** `model.require_backward_grad_sync`, which the next forward pass reads to decide whether
        the backward pass after it all-reduces. */
    var gradSync: bool
    /** Backward passes that all-reduced the accumulated gradients across workers. */
    var syncedBackwards: nat
    /** Optimizer steps taken right after a backward pass that did not all-reduce, that is on
        gradients some of which were accumulated on this worker alone. */
    var stepsOnLocalGradients: nat
    /** The `global_step` handed to each `evaluate` call. */
    var evaluations: seq<nat>
    /** The `global_step` written by each `save_checkpoint` call. */
    var checkpoints: seq<nat>
    /** Calls of `generate_and_print_sample`. */
    var samples: nat

    /** What the inner loop reads, as a `LoopConfig`. */
    function Config(): LoopConfig
    {
      LoopConfig(plan.accumSteps, evalFreq, checkpointStep, rank, lrAt)
    }

    /** The fields the inner loop changes, as a `LoopState`. */
    ghost function Snapshot(): LoopState
      reads this
    {
      LoopState(globalStep, groupLrs, gradsPresent, gradSync, syncedBackwards, stepsOnLocalGradients,
                evaluations, checkpoints)
    }

    /** The moduli are defined, an epoch takes at least one step, and there are two parameter groups. */
    ghost predicate Valid()
      reads this
    {
      ValidConfig(Config()) && plan.perEpochSteps > 0 && |groupLrs| == 2
    }

    /** The state when the epoch loop starts: the restored `global_step`, both groups at
        `max_lr`, no gradients, and the synchronisation flag at its initial value, set. */
    constructor (plan: Plan, evalFreq: nat, checkpointStep: nat, rank: nat, cos: real -> real)
      requires plan.accumSteps > 0 && plan.perEpochSteps > 0 && evalFreq > 0 && checkpointStep > 0
      ensures Valid()
      ensures this.plan == plan && this.evalFreq == evalFreq && this.checkpointStep == checkpointStep
      ensures this.rank == rank
      ensures forall step :: lrAt(step) == GetLr(step, plan.maxLr, plan.minLr, plan.maxSteps, plan.warmupSteps, cos)
      ensures globalStep == plan.globalStep && groupLrs == [Some(plan.maxLr), Some(plan.maxLr)]
      ensures !gradsPresent && gradSync
      ensures syncedBackwards == 0 && stepsOnLocalGradients == 0 && samples == 0
      ensures evaluations == [] && checkpoints == []
    {
      this.plan, this.evalFreq, this.checkpointStep, this.rank := plan, evalFreq, checkpointStep, rank;
      lrAt := (step: nat) => GetLr(step, plan.maxLr, plan.minLr, plan.maxSteps, plan.warmupSteps, cos);
      globalStep := plan.globalStep;
      groupLrs := [Some(plan.maxLr), Some(plan.maxLr)];
      gradsPresent, gradSync := false, true;
      syncedBackwards, stepsOnLocalGradients, samples := 0, 0, 0;
      evaluations, checkpoints := [], [];
    }

    /** `for param_group in optimizer.param_groups: param_group['lr'] = lr`. */
    method SetLearningRate(lr: Option<real>)
      requires Valid()
      modifies this`groupLrs
      ensures Valid()
      ensures groupLrs == Repeat(lr, |old(groupLrs)|)
    {
      var k := 0;
      while k < |groupLrs|
        invariant 0 <= k <= |groupLrs| == |old(groupLrs)|
        invariant forall j :: 0 <= j < k ==> groupLrs[j] == lr
      {
        groupLrs := groupLrs[k := lr];
        k := k + 1;
      }
    }

    /** Lines `loss = calc_loss_batch(...)`, `model.require_backward_grad_sync = sync` and
        `loss.backward()`. The forward pass reads the flag as it stands before `sync` is
        assigned, and the backward pass all-reduces the accumulated gradients exactly when that
        value was set; `reduced` reports it. */
    method ForwardBackward(sync: bool) returns (reduced: bool)
      requires Valid()
      modifies this`gradSync, this`gradsPresent, this`syncedBackwards
      ensures Valid()
      ensures reduced == old(gradSync)
      ensures gradSync == sync && gradsPresent
      ensures syncedBackwards == old(syncedBackwards) + (if reduced then 1 else 0)
    {
      reduced := gradSync;
      gradSync := sync;
      gradsPresent := true;
      if reduced {
        syncedBackwards := syncedBackwards + 1;
      }
    }

    /** The body of `if i % grad_accum_steps == 0`: every group gets `get_lr(global_step)`,
        the optimizer steps on the gradients held (all-reduced ones when the backward pass just
        before, whose outcome is `reduced`, all-reduced), every gradient is set to `None`, and
        `global_step` rises by one. */
    method OptimizerStep(reduced: bool)
      requires Valid()
      modifies this`groupLrs, this`stepsOnLocalGradients, this`gradsPresent, this`globalStep
      ensures Valid()
      ensures groupLrs == Repeat(lrAt(old(globalStep)), |old(groupLrs)|)
      ensures stepsOnLocalGradients == old(stepsOnLocalGradients) + (if reduced then 0 else 1)
      ensures !gradsPresent && globalStep == old(globalStep) + 1
    {
      SetLearningRate(lrAt(globalStep));
      // clip_grad_norm_ and optimizer.step()
      if !reduced {
        stepsOnLocalGradients := stepsOnLocalGradients + 1;
      }
      // param.grad = None for every parameter
      gradsPresent := false;
      globalStep := globalStep + 1;
    }

    /** `evaluate(..., global_step, ...)`. */
    method Evaluate()
      modifies this`evaluations
      ensures evaluations == old(evaluations) + [globalStep]
    {
      evaluations := evaluations + [globalStep];
    }

    /** `save_checkpoint(model, optimizer, global_step, total_time)`. */
    method SaveCheckpoint()
      modifies this`checkpoints
      ensures checkpoints == old(checkpoints) + [globalStep]
    {
      checkpoints := checkpoints + [globalStep];
    }

    /** One pass of the inner loop for micro-batch `i`, as `Tick` describes it. */
    method MicroBatch(i: nat)
      requires Valid()
      modifies this
      ensures Valid()
      ensures Snapshot() == Tick(Config(), old(Snapshot()), i)
      ensures samples == old(samples)
    {
      ghost var next := Tick(Config(), Snapshot(), i);
      var g := plan.accumSteps;
      var reduced := ForwardBackward(i % g == g - 1);
      if i % g == 0 {
        OptimizerStep(reduced);
      }
      if i % evalFreq == 0 {
        Evaluate();
      }
      if rank == 0 && i % checkpointStep == 0 {
        SaveCheckpoint();
      }
      assert Snapshot() == next;
    }

    /** One epoch: `for i, batch in enumerate(train_loader)` over the loader's `n`
        micro-batches, which leaves the state `Run` describes. `RunStepCounts`, `RunSyncCounts`,
        `RunRecordCounts`, `RunRecordsPositive` and `RunLastStep` state what that means. */
    method RunEpoch()
      requires Valid()
      modifies this
      ensures Valid()
      ensures Snapshot() == Run(Config(), old(Snapshot()), plan.numBatches)
      ensures samples == old(samples)
    {
      var i := 0;
      while i < plan.numBatches
        invariant Valid()
        invariant 0 <= i <= plan.numBatches
        invariant Snapshot() == Run(Config(), old(Snapshot()), i)
        invariant samples == old(samples)
      {
        MicroBatch(i);
        i := i + 1;
      }
    }

    /** The epoch loop: `num_epochs` epochs, each followed by one generated sample, which
        leaves the state `Epochs` describes. The step counter carries on across epochs, so a
        run resumed at step `k` ends at `k + num_epochs * ceil(n / g)`; every evaluation and
        every checkpoint sees a positive step. */
    method Train()
      requires Valid()
      modifies this
      ensures Valid()
      ensures Snapshot() == Epochs(Config(), old(Snapshot()), plan.numBatches, plan.numEpochs)
      ensures samples == old(samples) + plan.numEpochs
      ensures globalStep == old(globalStep) + plan.numEpochs * CeilDiv(plan.numBatches, plan.accumSteps)
      ensures |evaluations| == |old(evaluations)| + plan.numEpochs * CeilDiv(plan.numBatches, evalFreq)
      ensures |checkpoints|
        == |old(checkpoints)| + (if rank == 0 then plan.numEpochs * CeilDiv(plan.numBatches, checkpointStep) else 0)
      ensures PositiveExtension(evaluations, old(evaluations))
      ensures PositiveExtension(checkpoints, old(checkpoints))
    {
      var epoch := 0;
      while epoch < plan.numEpochs
        invariant Valid()
        invariant 0 <= epoch <= plan.numEpochs
        invariant Snapshot() == Epochs(Config(), old(Snapshot()), plan.numBatches, epoch)
        invariant samples == old(samples) + epoch
      {
        RunEpoch();
        // generate_and_print_sample
        samples := samples + 1;
        epoch := epoch + 1;
      }
      EpochsCounts(Config(), old(Snapshot()), plan.numBatches, plan.numEpochs);
      EpochsRecordsPositive(Config(), old(Snapshot()), plan.numBatches, plan.numEpochs);
    }
  }

  /** Batch size 64 with micro-batches of 4 gives `g = 16`; one epoch of 160 micro-batches
    then takes exactly 10 optimizer steps, each after a backward pass that all-reduced. */
  method SixteenMicroBatchesPerStep(cos: real -> real)
  {
    var setup := Setup(64, 4, 160, 1, 0.0003, FileMissing);
    assert setup.Success?;
    var plan := setup.value;
    assert plan.accumSteps == 16 && plan.perEpochSteps == 10 && plan.globalStep == 0;
    var t := new Trainer(plan, 50, 100, 0, cos);
    ghost var before := t.Snapshot();
    t.RunEpoch();
    RunStepCounts(t.Config(), before, 160);
    RunSyncCounts(t.Config(), before, 160);
    assert CeilDiv(160, 16) == 10;
    assert t.globalStep == 10;
    assert t.syncedBackwards == 10 && t.stepsOnLocalGradients == 0;
  }

  /** With 170 micro-batches per epoch `g = 16` does not divide the epoch, so the last
      micro-batch of the first epoch leaves the flag clear and the first optimizer step of the
      second epoch uses gradients that were never all-reduced; two epochs take 22 steps. */
  method UnevenEpochsStepOnceLocally(cos: real -> real)
  {
    var setup := Setup(64, 4, 170, 2, 0.0003, FileMissing);
    assert setup.Success?;
    var plan := setup.value;
    assert plan.accumSteps == 16 && plan.numBatches == 170 && plan.numEpochs == 2 && plan.globalStep == 0;
    var t := new Trainer(plan, 50, 100, 1, cos);
    ghost var before := t.Snapshot();
    t.Train();
    EpochsLocalSteps(t.Config(), before, 170, 2);
    assert CeilDiv(170, 16) == 11;
    assert t.globalStep == 22 && t.checkpoints == [];
    assert t.stepsOnLocalGradients == 1;
  }
}
