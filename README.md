# Multi-GPU GPT pre-training: a verified model of the training core

This project models, in Dafny, the control logic of `MultiGPU_PreTraining.py`, a
data-parallel pre-training script for a decoder-only GPT model. It covers:

- the sliding-window dataset `GPTDatasetV1`;
- the learning-rate schedule `get_lr`: linear warmup, cosine decay, then a floor;
- the evaluation average `calc_loss_loader`;
- greedy decoding `generate_text_simple`;
- the split of the parameters into a weight-decayed group and a group without decay;
- `train_model_simple`: the checkpoint-load fallback, the schedule constants, the resume
  arithmetic, and the per-micro-batch state machine. That state machine decides gradient
  all-reduce, learning-rate updates, optimizer steps, gradient clearing, evaluation and
  checkpointing.

Tensors, the network and the loss are abstracted away:

- a data loader is the sequence of its per-batch losses;
- the model followed by `argmax` is a next-token function;
- a parameter is an opaque value with a name;
- `math.cos` is a function parameter. The ghost predicates `CosLike` and
  `CosNonIncreasing` constrain it with the only facts the schedule relies on.

Floating point is modelled by `real`.

Modules:

- `Common`: `Option`, `Result`, `Min`, `Max`, ceiling division and arithmetic lemmas.
- `Dataset`: the `GPTDatasetV1` class. Its constructor runs the window loop over a
  specification of the windows.
- `LrSchedule`: `GetLr` and its phase lemmas.
- `LossLoader`: `CalcLossLoader` and the function `LoaderLossOf` that it implements.
- `Generation`: `GenerateTextSimple` and the function `Generated` that it implements.
- `ParamGroups`: the two parameter-group comprehensions.
- `Training`:
  - `Setup` computes the values fixed before the epoch loop.
  - The specification functions `Tick` (one micro-batch) and `Run` (a prefix of an
    epoch) describe the loop.
  - The specification function `Epochs` describes whole epochs run one after another.
  - The class `Trainer` has one method per step of the loop body, proved against `Tick`,
    the epoch loop, proved against `Run`, and the training loop, proved against `Epochs`.

Notes on the code's behaviour:

- **Example count.** The dataset yields `ceil((len(tokens) - L) / S)` examples, because
  the window loop is `range(0, len(tokens) - L, S)`. The count is a ceiling, not a floor.
  - Every window still lies inside the stream (`WindowShape`).
  - For a stream longer than `L`, the last target window stops `(len - L - 1) % S` tokens
    before the end of the stream (`LastWindowGap`).
- **Accumulation steps.** `grad_accum_steps` is `batch_size // micro_batch_size`. The
  code does not require the division to be exact.
  - A micro-batch size of zero raises `ZeroDivisionError` (`Setup` returns `Failure`).
  - So does a batch size below the micro-batch size, and so does a loader shorter than
    one accumulation group.
- **Steps per epoch.** An epoch of `n` micro-batches steps the optimizer `ceil(n / g)`
  times, not `n / g`: the step happens at the first micro-batch of each group.
  - A full run takes `num_epochs` more steps than `max_steps` whenever `g` does not
    divide `n` (`RunLengthVersusSchedule`).
- **When gradients are all-reduced.** DDP reads `require_backward_grad_sync` during the
  forward pass, and that value decides whether the following backward pass all-reduces.
  The loop runs the forward pass before it assigns the flag, so the backward pass of
  micro-batch `i` follows the flag set by micro-batch `i - 1`. The flag starts set.
  - For `i >= 1` that flag is set exactly when `i % g == 0`, the micro-batch that steps.
    So within an epoch every optimizer step after the first follows an all-reduce
    (`RunSyncCounts`).
  - The first step of an epoch follows an all-reduce exactly when the previous epoch's
    last micro-batch set the flag. After the first epoch, that holds exactly when `g`
    divides `n`. Otherwise every later epoch's first step uses gradients accumulated on
    each worker alone (`EpochsLocalSteps`, `UnevenEpochsStepOnceLocally`).
- **`get_lr` exceptions.** `get_lr` never returns a stale rate. Its bare `except`
  swallows only one possible exception, the division by zero when
  `iteration == warmup_steps == max_steps`. The `decay_ratio` assertion cannot fail.
  During training this case never arises once `num_epochs > 0`
  (`LrDefinedThroughoutTraining`).
- **Resume.** The code computes `global_step // per_epoch_steps` and
  `global_step % per_epoch_steps`. Its skip loop calls `next(iter(train_loader))`,
  which creates a fresh iterator on every call, so no batch of the epoch that follows
  is skipped.
- **`max_lr` on resume.** `max_lr` is read from the optimizer after the load attempt.
  Once the optimizer state has been restored, the restored rate becomes `max_lr`, even
  when a later part of the load failed.

## Model

| member | source | states |
|---|---|---|
| `Dataset.PyRange` | MultiGPU_PreTraining.py:36 | Python's `range(start, stop, step)` for a positive step; its length and values are stated by `PyRangeShape` |
| `Dataset.Starts` | MultiGPU_PreTraining.py:36 | the window starts `range(0, len - L, S)`; stated by `StartsShape` |
| `Dataset.ExampleCount` | MultiGPU_PreTraining.py:36-43 | the number of examples is positive exactly when the stream is longer than `L`, and is at most `len - L` |
| `Dataset.InputsOf` | MultiGPU_PreTraining.py:37-39 | one input chunk per start, in order; chunk `k` is stated by `InputAt` |
| `Dataset.TargetsOf` | MultiGPU_PreTraining.py:38-40 | one target chunk per start, in order; chunk `k` is stated by `TargetAt` |
| `Dataset.GPTDatasetV1.constructor` | MultiGPU_PreTraining.py:28-40 | the window loop leaves `input_ids` and `target_ids` equal to the input and target chunks cut at each start of `range(0, len - L, S)`, in order |
| `Dataset.GPTDatasetV1.Create` | MultiGPU_PreTraining.py:36 | building with stride 0 fails, as `range` raises, and only then; otherwise the dataset holds exactly the windows of the given stream |
| `Dataset.GPTDatasetV1.Len` | MultiGPU_PreTraining.py:42-43 | `len` is the number of input chunks and of target chunks, and equals `ceil((len(tokens) - L) / S)`, or 0 for a stream of at most `L` tokens |
| `Dataset.GPTDatasetV1.GetItem` | MultiGPU_PreTraining.py:45-46 | Python list indexing: an index in `[-len, len)` returns the pair cut at start `j * S` (`j` the normalised index), both of `L` tokens, the target being the input shifted by one; any other index raises |
| `Dataset.WindowShape` | MultiGPU_PreTraining.py:36-38 | example `k` is `tokens[kS : kS+L]` and `tokens[kS+1 : kS+L+1]`, both inside the stream and of exactly `L` tokens, with `target[j] == input[j+1]` |
| `Dataset.LastWindowGap` | MultiGPU_PreTraining.py:36-38 | for a stream longer than `L` there is at least one example, and the last target window ends `(len - L - 1) % S` tokens before the end of the stream |
| `Dataset.ExampleCountMeaning` | MultiGPU_PreTraining.py:36 | example `k` exists exactly when `k * S < len - L`; a stream of at most `L` tokens yields none |
| `Dataset.StartsShape` | MultiGPU_PreTraining.py:36 | the window starts are `0, S, 2S, ...`, one per example |
| `Dataset.PyRangeShape` | MultiGPU_PreTraining.py:36 | `range(start, stop, step)` holds `ceil((stop - start) / step)` values, value `k` being `start + k * step` |
| `Dataset.InputAt` | MultiGPU_PreTraining.py:37 | input chunk `k` is the slice at the `k`-th start |
| `Dataset.TargetAt` | MultiGPU_PreTraining.py:38 | target chunk `k` is the slice one token after the `k`-th start |
| `Dataset.InputWindows` | MultiGPU_PreTraining.py:36-39 | there is one input chunk per example |
| `Dataset.TargetWindows` | MultiGPU_PreTraining.py:36-40 | there is one target chunk per example |
| `Dataset.Slice` | MultiGPU_PreTraining.py:37-38 | Python slicing with clamped bounds: the plain subsequence when the bounds lie in the stream, never longer than the stream |
| `Dataset.PyRangeUnfold` | MultiGPU_PreTraining.py:36 | the range loop's next value is its start, and the rest continues one stride on |
| `LrSchedule.GetLr` | MultiGPU_PreTraining.py:280-292 | the function returns `None` exactly when `iteration == warmup_steps == max_steps`, the one division by zero its bare `except` swallows |
| `LrSchedule.Cosine` | MultiGPU_PreTraining.py:289-290 | the cosine interpolation `min_lr + 0.5 * (1 + cos(pi * ratio)) * (max_lr - min_lr)`; its ends, bounds and monotonicity are stated by `CosineEnds`, `CosineBounds` and `CosineMonotone` |
| `LrSchedule.WarmupValue` | MultiGPU_PreTraining.py:283-284 | during warmup `get_lr` returns `max_lr * (it + 1) / warmup_steps` |
| `LrSchedule.WarmupRamp` | MultiGPU_PreTraining.py:283-284 | during warmup the rate is `max_lr * (it + 1) / warmup`, lies in `(0, max_lr]` for a positive `max_lr`, and reaches `max_lr` on the last warmup step |
| `LrSchedule.AfterSchedule` | MultiGPU_PreTraining.py:283-286 | past `max_steps`, and once warmup is over (the warmup branch is tested first), the rate is `min_lr` |
| `LrSchedule.DecayRatio` | MultiGPU_PreTraining.py:287-288 | the decay ratio lies in `[0, 1]`, so the assertion never fails |
| `LrSchedule.DecayValue` | MultiGPU_PreTraining.py:287-290 | in the decay phase the rate is the cosine interpolation at the decay ratio |
| `LrSchedule.DecayEndpoints` | MultiGPU_PreTraining.py:287-290 | decay starts at `max_lr` (at `warmup_steps`) and ends at `min_lr` (at `max_steps`) |
| `LrSchedule.RatioEnds` | MultiGPU_PreTraining.py:287 | the decay ratio is 0 at `warmup_steps` and 1 at `max_steps` |
| `LrSchedule.CosineEnds` | MultiGPU_PreTraining.py:289-290 | the interpolation gives `max_lr` at ratio 0 and `min_lr` at ratio 1 |
| `LrSchedule.DecayBounds` | MultiGPU_PreTraining.py:287-290 | in the decay phase the rate is defined and lies in `[min_lr, max_lr]` |
| `LrSchedule.CosineBounds` | MultiGPU_PreTraining.py:289-290 | the interpolation lies between `min_lr` and `max_lr` |
| `LrSchedule.DecayNonIncreasing` | MultiGPU_PreTraining.py:287-290 | for a cosine that does not increase on `[0, pi]`, the rate never rises from one decay step to a later one |
| `LrSchedule.CosineMonotone` | MultiGPU_PreTraining.py:289-290 | the interpolation does not rise as the ratio grows within `[0, 1]` |
| `LossLoader.Sum` | MultiGPU_PreTraining.py:258-260 | the total accumulated front to back; bounded by `SumBounds` |
| `LossLoader.BatchCount` | MultiGPU_PreTraining.py:253-256 | the number of batches averaged is at most `len`; it is `len` exactly when `num_batches` is `None` or at least `len`, and `num_batches` otherwise |
| `LossLoader.LoaderLossOf` | MultiGPU_PreTraining.py:249-263 | NaN for an empty loader, otherwise the sum of the first `BatchCount` losses divided by that count; stated by `LoaderLossCases` and `AverageWithinBatchLosses` |
| `LossLoader.CalcLossLoader` | MultiGPU_PreTraining.py:249-263 | the loop returns NaN for an empty loader; otherwise it returns the sum of the first `min(num_batches, len)` losses (all of them for `None`) divided by that count, or division by zero when the count is 0 |
| `LossLoader.SumBounds` | MultiGPU_PreTraining.py:258-260 | losses within `[lo, hi]` add up to between `k * lo` and `k * hi` |
| `LossLoader.AverageWithinBatchLosses` | MultiGPU_PreTraining.py:249-263 | when the averaged batches' losses lie in `[lo, hi]`, the reported loss is an average and lies in `[lo, hi]` |
| `LossLoader.LoaderLossCases` | MultiGPU_PreTraining.py:251-256 | NaN exactly for an empty loader; division by zero exactly for `num_batches == 0` on a non-empty one; `None` or a count of at least `len` averages every batch |
| `Generation.Crop` | MultiGPU_PreTraining.py:213 | `idx[-context_size:]` is a suffix: the last `min(c, len)` tokens for positive `c`, everything for 0, and all but the first `-c` tokens for negative `c` |
| `Generation.Generated` | MultiGPU_PreTraining.py:208-227 | the sequence after `n` greedy steps; stated by `GeneratedShape`, `GeneratedCompose` and `ContextWindowOfEachCall` |
| `Generation.GenerateTextSimple` | MultiGPU_PreTraining.py:206-229 | the loop returns the sequence after `max(max_new_tokens, 0)` greedy steps, each appending the prediction of the cropped context |
| `Generation.GeneratedPrefix` | MultiGPU_PreTraining.py:208-227 | the prompt stays as a prefix, exactly `n` tokens follow it, and the first of them is the prediction from the cropped prompt |
| `Generation.GeneratedShape` | MultiGPU_PreTraining.py:208-227 | the prompt stays as a prefix, exactly `n` tokens follow it, and token `j` is the prediction from the cropped sequence before it |
| `Generation.GeneratedCompose` | MultiGPU_PreTraining.py:208-227 | generating `a + b` tokens is generating `a` and then `b` more |
| `Generation.ContextWindowOfEachCall` | MultiGPU_PreTraining.py:213-217 | with a positive context size, each model call sees exactly the last `min(c, j)` tokens generated so far |
| `ParamGroups.Contains` | MultiGPU_PreTraining.py:477-478 | Python's `nd in n` on strings: `nd` occurs in `n` at some position |
| `ParamGroups.Exempt` | MultiGPU_PreTraining.py:475-478 | `any(nd in n for nd in no_decay)`; characterised by `ExemptMeaning` |
| `ParamGroups.Decayed` | MultiGPU_PreTraining.py:477 | the parameters whose names match no `no_decay` pattern, in order; stated by `StablePartition` and `PartitionSizes` |
| `ParamGroups.NotDecayed` | MultiGPU_PreTraining.py:478 | the parameters whose names match a `no_decay` pattern, in order; stated by `StablePartition` and `PartitionSizes` |
| `ParamGroups.GroupParameters` | MultiGPU_PreTraining.py:476-479 | there are two groups, the first with the configured weight decay and the second with 0.0, holding every parameter between them |
| `ParamGroups.PartitionSizes` | MultiGPU_PreTraining.py:477-478 | each parameter falls in exactly one of the two lists |
| `ParamGroups.Unfold` | MultiGPU_PreTraining.py:477-478 | the head parameter goes to exactly one list, and the rest are split as before |
| `ParamGroups.SplitAppend` | MultiGPU_PreTraining.py:477-478 | both comprehensions distribute over concatenation |
| `ParamGroups.StablePartition` | MultiGPU_PreTraining.py:477-478 | parameter `k` is decayed exactly when its name matches no `no_decay` pattern, and it sits in its group after exactly the earlier parameters of that group, so order is kept |
| `ParamGroups.ContainsTransitive` | MultiGPU_PreTraining.py:477 | substring containment (`nd in n`) is transitive |
| `ParamGroups.ExemptMeaning` | MultiGPU_PreTraining.py:475-478 | a name is exempt exactly when it contains `bias` or `LayerNorm.weight`, which makes the `LayerNorm.bias` pattern redundant |
| `ParamGroups.DecayedWithoutBiOrL` | MultiGPU_PreTraining.py:475-477 | a name that contains neither `bi` nor `L` matches no `no_decay` pattern and is decayed |
| `ParamGroups.DecayedByCharacters` | MultiGPU_PreTraining.py:475-477 | a name with no `L` in which no `b` is directly followed by `i` is decayed |
| `ParamGroups.LayerNormParametersDecayed` | MultiGPU_PreTraining.py:469-479 | the names `model.module.named_parameters()` yields behind the compile wrapper, `_orig_mod.trf_blocks.<k>.norm1.scale`, `.norm1.shift`, `.norm2.scale`, `.norm2.shift`, `_orig_mod.final_norm.scale` and `_orig_mod.final_norm.shift`, all get weight decay, since the model's `LayerNorm` names its parameters `scale` and `shift` |
| `ParamGroups.FinalNormDecayed` | MultiGPU_PreTraining.py:469-479 | `_orig_mod.final_norm.scale` and `_orig_mod.final_norm.shift` get weight decay |
| `Training.Setup` | MultiGPU_PreTraining.py:357-374 | the set-up succeeds exactly when `0 < micro <= batch` and `batch // micro <= len(loader)`, with the matching `ZeroDivisionError` otherwise. A failed load leaves step and time at 0. `max_lr` is the restored rate once the optimizer state was restored. It also gives `min_lr = max_lr / 10`, the floor divisions, `warmup = max_steps // 10`, and `global_step == curr_epoch * per_epoch + resume`. The four ways the `try` at 357-362 can end are the cases of the datatype `LoadOutcome` it takes |
| `Training.PlanFor` | MultiGPU_PreTraining.py:364-374 | once `grad_accum_steps` is positive and at most the loader length, it gives the constants and the resume split, as above |
| `Training.WarmupSteps` | MultiGPU_PreTraining.py:370 | `warmup_steps` is the whole part of a tenth of `max_steps`, and below `max_steps` when that is positive |
| `Training.DivMod` | MultiGPU_PreTraining.py:373-374 | `global_step == curr_epoch * per_epoch_steps + r` with `r < per_epoch_steps` |
| `Training.LrDefinedThroughoutTraining` | MultiGPU_PreTraining.py:364-370 | with `num_epochs > 0`, `get_lr` is defined at every step; for `max_lr >= 0` the rate lies in `[0, max_lr]`, and past `max_steps` it is `min_lr` |
| `Training.RunLengthVersusSchedule` | MultiGPU_PreTraining.py:368-369 | `num_epochs * ceil(n / g)` steps run, which is at least `max_steps`; the difference is `num_epochs` when `g` does not divide `n`, and 0 otherwise |
| `Training.ExtendPositive` | MultiGPU_PreTraining.py:413-419 | appending a positive step to a record keeps every new entry positive |
| `Training.ExtendPositiveTrans` | MultiGPU_PreTraining.py:383-419 | positive extensions compose across epochs |
| `Training.Repeat` | MultiGPU_PreTraining.py:399-400 | every parameter group holds the same rate |
| `Training.Tick` | MultiGPU_PreTraining.py:385-419 | one micro-batch keeps the number of parameter groups. Its backward pass all-reduces according to the flag left by the previous micro-batch. What it does is stated by `Trainer.MicroBatch` and the `Run` lemmas |
| `Training.TickSync` | MultiGPU_PreTraining.py:390-403 | one micro-batch all-reduces exactly when the flag it finds is set, counts a step on local gradients exactly when it steps (`i % g == 0`) with the flag clear, and leaves the flag set to `i % g == g - 1` |
| `Training.Run` | MultiGPU_PreTraining.py:385-419 | a prefix of an epoch keeps the number of parameter groups. Its effect is stated by the lemmas below |
| `Training.RunStepCounts` | MultiGPU_PreTraining.py:396-409 | `n` micro-batches advance `global_step` by `ceil(n / g)` |
| `Training.RunSyncCounts` | MultiGPU_PreTraining.py:390-403 | in a non-empty epoch, `ceil(n / g) - 1` backward passes all-reduce, plus the first one when the flag was set on entry; only the epoch's first optimizer step can follow a backward pass that did not all-reduce, and it does exactly when the flag was clear on entry |
| `Training.RunRecordCounts` | MultiGPU_PreTraining.py:413-419 | `n` micro-batches evaluate `ceil(n / eval_freq)` times; rank 0 saves `ceil(n / checkpoint_step)` checkpoints and other ranks save none |
| `Training.RunLastStep` | MultiGPU_PreTraining.py:391-409 | after a non-empty epoch, every group holds `get_lr(global_step - 1)`, gradients are held exactly when `(n - 1) % g != 0`, and the sync flag is left set exactly when `(n - 1) % g == g - 1` |
| `Training.RunRecordsPositive` | MultiGPU_PreTraining.py:413-419 | every evaluation and checkpoint records a positive `global_step` (so the ETA never divides by zero), and earlier records are kept |
| `Training.Epochs` | MultiGPU_PreTraining.py:382-419 | `e` epochs run one after another, each restarting `i` at 0; keeps the number of parameter groups. Its effect is stated by the three lemmas below |
| `Training.EpochsCounts` | MultiGPU_PreTraining.py:382-419 | `e` epochs advance `global_step` by `e * ceil(n / g)`, evaluate `e * ceil(n / eval_freq)` times, and on rank 0 save `e * ceil(n / checkpoint_step)` checkpoints (none on other ranks) |
| `Training.EpochsRecordsPositive` | MultiGPU_PreTraining.py:382-419 | across epochs every evaluation and checkpoint records a positive `global_step`, and earlier records are kept |
| `Training.EpochsLocalSteps` | MultiGPU_PreTraining.py:382-403 | after `e >= 1` non-empty epochs the flag is set exactly when `g` divides `n`; the number of steps on gradients that were not all-reduced is 1 if the flag was clear at the start, plus `e - 1` more when `g` does not divide `n` |
| `Training.Trainer.constructor` | MultiGPU_PreTraining.py:353-370 | the loop starts at the restored `global_step`, with both groups at `max_lr`, no gradients, no records, the sync flag set (DDP's initial value), and `get_lr` bound to this run's constants |
| `Training.Trainer.SetLearningRate` | MultiGPU_PreTraining.py:399-400 | every parameter group's `lr` becomes `lr` |
| `Training.Trainer.ForwardBackward` | MultiGPU_PreTraining.py:390-392 | the backward pass all-reduces exactly when the flag was set before this micro-batch assigned it; afterwards the flag holds the new value, gradients are present, and the all-reduce count has risen by one exactly when the pass all-reduced |
| `Training.Trainer.OptimizerStep` | MultiGPU_PreTraining.py:396-409 | both groups get `get_lr(global_step)`, a step on local gradients is counted exactly when the preceding backward pass did not all-reduce, gradients are cleared, and `global_step` rises by one |
| `Training.Trainer.Evaluate` | MultiGPU_PreTraining.py:413-414 | the current `global_step` is appended to the evaluation record |
| `Training.Trainer.SaveCheckpoint` | MultiGPU_PreTraining.py:417-419 | the current `global_step` is appended to the checkpoint record |
| `Training.Trainer.MicroBatch` | MultiGPU_PreTraining.py:385-419 | one pass of the loop body moves the state exactly as `Tick` describes |
| `Training.Trainer.RunEpoch` | MultiGPU_PreTraining.py:385-419 | the inner loop leaves the state `Run` describes for `len(train_loader)` micro-batches |
| `Training.Trainer.Train` | MultiGPU_PreTraining.py:382-425 | the epoch loop leaves the state `Epochs` describes for `num_epochs` epochs and draws one sample per epoch. So `global_step` rises by `num_epochs * ceil(n / g)`, there are `num_epochs * ceil(n / eval_freq)` evaluations and, on rank 0, `num_epochs * ceil(n / checkpoint_step)` checkpoints, all at positive steps |

## Left out

- The transformer itself (embeddings, attention, layer norm, feed-forward), cross-entropy,
  `torch.argmax` and tensor shapes. Their results are parameters: a next-token function
  and per-batch losses.
- Batches: `generate_text_simple` is modelled for a batch of one sequence.
- Gradient clipping, the AdamW update and parameter values. An optimizer step is modelled
  only by its effects: the rates, the counters and the cleared gradients.
- DDP's reducer. Only the flag's effect is modelled: whether each backward pass all-reduces.
  The forward passes of `evaluate` and `generate_and_print_sample` run under
  `torch.no_grad()`; the model assumes they do not consume the flag, since DDP prepares an
  all-reduce only for forward passes that record gradients.
- `torch.compile` is modelled only by the `_orig_mod.` prefix its wrapper puts in front of
  every parameter name (`ParamGroups.CompiledPrefix`), which is PyTorch's naming.
- The lock, DDP construction, process-group set-up, the final barrier, the
  cross-worker `dist.reduce` of evaluation losses, and the sampler.
- Serialisation in `save_checkpoint` and `load_checkpoint`. The load is abstracted to how it
  ends (`LoadOutcome`), and RNG state is not modelled.
- Time, `print`, the ETA formula's floating-point value, plots, the tokenizer and reading the
  corpus file. The dataset receives token ids. Evaluation and checkpoint calls are recorded
  by the `global_step` they see.
- `Training.WarmupSteps`: `int(0.1 * max_steps)` is modelled as `max_steps // 10`, without
  binary floating-point rounding of `0.1 * max_steps`.
- `LrSchedule.GetLr`: floating point is modelled by exact reals, and `math.pi` by its printed
  value.
- `Dataset.GPTDatasetV1.Create`: a negative stride is not modelled, because strides are
  natural numbers.
- The resume skip loop is modelled only through its trip count
  (`global_step % per_epoch_steps`). It draws from fresh iterators, so the epochs that follow
  see every batch.
- `Training.Trainer.constructor`: `eval_freq` and `checkpoint_step` must be positive, because
  `i % 0` would raise on the first micro-batch. The only call passes 50 and 100.
- `generate_and_print_sample` is modelled in `Train` only as a count of samples per epoch;
  its decoding is `Generation.GenerateTextSimple`.
