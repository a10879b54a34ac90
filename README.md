# LARS optimiser and optimiser factory, modelled in Dafny

This project models `optimisers.py`: the factory `get_optimiser` and the `LARS`
optimiser class (its constructor and `step`).

The factory works as follows:

- It walks every model's named parameters in order.
- It splits them by name. A name that contains `bn` or `bias` (case-sensitive substring) goes to `removed_params`. Every other name goes to `reduced_params`.
- It picks the pretraining or the finetuning hyperparameters from the mode.
- It builds Adam, SGD or LARS, or fails with `NotImplementedError`.

For LARS, the factory passes `reduced_params + removed_params` and sets
`len_reduced = len(reduced_params)`.

`LARS.step` does the following:

- It returns the closure's loss.
- It advances `self.epoch` when no epoch is given.
- For each parameter group, it walks the parameters in order:
  - It skips parameters without a gradient.
  - It adds `self.weight_decay * param` to the gradient of the first `self.len_reduced` parameters *that have a gradient*.
  - It creates a zero momentum buffer on first use.
  - It applies the classic or the non-classic momentum update, each with or without Nesterov.

Layout:

- `wrappers.dfy`: `Option` and `Result`.
- `lars_update.dfy` (module `LarsUpdate`): the value-level meaning of one step.
  - `Update` covers one parameter.
  - `SlotStep` adds gradient skipping and the lazy buffer.
  - `GroupStep` is the positional definition of a group's step. `Scan` is the source's counter-threaded loop.
  - Lemmas cover which parameters get decay, how the buffer accumulates, and a worked example.
- `lars.dfy` (module `Lars`): the imperative optimiser.
  - `Parameter` is a class with `data` and `grad` fields.
  - `LarsOptimiser` holds `epoch`, a `state` map from parameter to momentum buffer, and `paramGroups`.
  - `Step` updates all of them in place. It is proved against `GroupStep`.
- `factory.dfy` (module `Factory`): the substring test and the name-based partition (`Kept`, `Dropped`), with their lemmas. `GetOptimiser` is the nested-loop factory, proved against those functions.

Three points of the code's behaviour that the model keeps:

- The decay counter advances only for parameters that have a gradient. The `continue` for a missing gradient (`optimisers.py:109-110`) skips `counter += 1` (`optimisers.py:179`). So decay goes to the first `len_reduced` parameters that have a gradient, and it can reach past position `len_reduced` (`DecayPassesLenReduced`).
- `len_reduced` is never validated against the number of parameters.
- Every mode other than `"pretrain"` selects the finetuning hyperparameters.

## Model

| member | source | states |
|---|---|---|
| Factory.Contains | optimisers.py:25 | `skip_name in name` holds exactly when the skip name occurs in the name at some position |
| Factory.AnyContains | optimisers.py:25 | the `any(...)` over the skip list holds exactly when some entry of the list occurs in the name |
| Factory.Select | optimisers.py:24-30 | the entries whose skip test comes out as asked, in stream order: every entry of the result has that outcome, and the result is no longer than the stream |
| Factory.Kept | optimisers.py:24-30 | `m_noskip` / `reduced_params`: `Select` with outcome "not skipped"; its meaning is stated by `KeptMembers`, `PartitionIsPermutation` and `PartitionAppend` |
| Factory.Dropped | optimisers.py:24-30 | `m_skip` / `removed_params`: `Select` with outcome "skipped"; its meaning is stated by `KeptMembers`, `PartitionIsPermutation` and `PartitionAppend` |
| Factory.Hyperparameters | optimisers.py:32-39 | mode `"pretrain"` gives the pretraining rate, weight decay and optimiser name; every other mode gives the finetuning ones |
| Factory.PartitionAppend | optimisers.py:17-30 | splitting the parameter stream splits both outputs the same way, so each output is the concatenation of the per-model lists in model order |
| Factory.PartitionIsPermutation | optimisers.py:24-30 | every named parameter lands in exactly one of `reduced_params` and `removed_params`; together they are a permutation of the stream, and their lengths add up to its length |
| Factory.KeptMembers | optimisers.py:25-28 | an entry is in `reduced_params` exactly when it is in the stream under a name with no skip entry, and in `removed_params` exactly when its name has one |
| Factory.NothingSkippedKeepsAll | optimisers.py:24-30 | with no skipped name, `reduced_params` is the whole stream in its order and `removed_params` is empty |
| Factory.LarsOrderIsPositional | optimisers.py:57-58 | in `reduced_params + removed_params`, a position is below `len(reduced_params)` exactly when the name there is not skipped |
| Factory.DecayFollowsNames | optimisers.py:57-58 | when every parameter has a gradient, LARS decays exactly the parameters whose names are not skipped |
| Factory.ExamplePartition | optimisers.py:15-30 | `conv.weight` is kept; `bn.weight` and `fc.bias` are removed, in that order |
| Factory.GetOptimiser | optimisers.py:6-63 | `"pretrain"` selects the pretraining rate, decay and name, and any other mode the finetuning ones. `adam` and `sgd` get every parameter in model order (SGD with momentum 0.9 and Nesterov). `lars` gets `reduced + removed`, the selected rate as both `self.lr` and the group's `lr`, `len_reduced = len(reduced)`, `eta` 0.001, Nesterov on, momentum 0.9, classic momentum, epoch 0 and empty state. Any other name fails with `NotImplementedError` naming `args.optimiser`. The contract is stated with these helpers: `SkipList` is `skip_lists` (`optimisers.py:15`); `Params` is `list(m.parameters())` (`:22`); `Flatten` is the walk over the models (`:17-30`); `LarsOrder` is `reduced_params + removed_params` (`:57`) |
| LarsUpdate.TrustRatio | optimisers.py:139-140 | `eta` times the norm quotient of the parameter and the direction (the gradient in the classic branch, the update at `optimisers.py:172-173`) |
| LarsUpdate.Update | optimisers.py:112-177 | one gradient-bearing parameter: decay the gradient, then take the classic or the non-classic branch; `UpdateDecaysGradient`, `ClassicUpdate` and `AdaptiveUpdate` state what each part does |
| LarsUpdate.ClassicMove | optimisers.py:130-151 | the classic branch once the scaled rate is known: buffer `v * momentum + lr_scaled * grad`, parameter moved back by the buffer or, with Nesterov, by `self.momentum * buffer + lr_scaled * grad`; `ClassicUpdate` states it |
| LarsUpdate.AdaptiveMove | optimisers.py:153-177 | the non-classic branch: buffer `v * momentum + grad`, parameter moved back along the update scaled by its own trust ratio; `AdaptiveUpdate` states it |
| LarsUpdate.UpdateDecaysGradient | optimisers.py:119-120 | the gradient used is the stored one plus `self.weight_decay * param` exactly when the parameter is due for decay |
| LarsUpdate.ClassicUpdate | optimisers.py:130-151 | classic momentum: the buffer grows from `v * momentum` by `lr * trust_ratio(grad) * grad`. Without Nesterov the parameter drops by the new buffer. With Nesterov it drops by `self.momentum * buffer` plus that fresh contribution |
| LarsUpdate.ClassicStepOpposesGradient | optimisers.py:130-151 | classic momentum without Nesterov, from a zero buffer, with non-negative `lr`, `eta` and norm quotient: the parameter's move and the decayed gradient never have opposite signs, so the first step never moves along the gradient |
| LarsUpdate.AdaptiveUpdate | optimisers.py:153-177 | non-classic momentum: the buffer grows from `v * momentum` by the raw gradient, and the parameter drops by `lr * trust_ratio(update) * update` |
| LarsUpdate.SlotStep | optimisers.py:108-128 | a parameter without a gradient is left as it is. One with a gradient ends with a gradient and a momentum buffer |
| LarsUpdate.LazyBufferStartsAtZero | optimisers.py:123-128 | a missing buffer behaves as a zero buffer |
| LarsUpdate.GroupStep | optimisers.py:100-179 | the group step keeps the group's length, leaves gradient-less parameters untouched and gives every other one a buffer |
| LarsUpdate.DecaysAt | optimisers.py:107-120 | the parameter at position i is decayed exactly when it has a gradient and fewer than `len_reduced` gradient-bearing parameters precede it; `DecayIsPrefixClosed`, `DecayCoversLeadingPositions` and `DecayCountIsBounded` state which positions that selects |
| LarsUpdate.Scan | optimisers.py:107-179 | the walk over a group with the counter threaded through it, growing only on gradient-bearing parameters; it keeps the group's length, and `ScanIsGroupStep` equates it with `GroupStep` |
| LarsUpdate.ScanIsGroupStep | optimisers.py:107-179 | the counter-threaded walk over a group computes the positional group step |
| LarsUpdate.DecayIsPrefixClosed | optimisers.py:107-120 | if a parameter gets decay, every earlier parameter that has a gradient gets it too |
| LarsUpdate.DecayCoversLeadingPositions | optimisers.py:107-120 | a gradient-bearing parameter at a position below `len_reduced` is always decayed: a missing gradient only pushes decay further along |
| LarsUpdate.DecayCountIsBounded | optimisers.py:107-120 | the number of decayed parameters is `min(len_reduced, number with a gradient)`, or 0 when `len_reduced <= 0` |
| LarsUpdate.DecayIsPositionalWhenAllGradsPresent | optimisers.py:107-120 | when every parameter has a gradient, decay goes to exactly the positions below `len_reduced` |
| LarsUpdate.DecayPassesLenReduced | optimisers.py:109-110 | with `len_reduced = 1` and no gradient at position 0, the parameter at position 1 is decayed |
| LarsUpdate.BufferIsDiscountedSum | optimisers.py:123-144 | the buffer after n gradient-bearing steps is the sum of the contributions, each weighted by `momentum` to the power of the number of later steps |
| LarsUpdate.SlotStepBuffer | optimisers.py:123-177 | a gradient-bearing step moves the buffer, taken as zero when missing, by one step of the momentum recurrence with that step's contribution |
| LarsUpdate.RepeatedStepsAccumulate | optimisers.py:123-177 | stepping one parameter with no buffer n >= 1 times leaves the buffer equal to the fold of the n contributions, which is their momentum-discounted sum |
| LarsUpdate.ClassicExample | optimisers.py:130-151 | classic, no Nesterov, param 2.0, grad 0.5, lr 0.1, eta 0.001, momentum 0.9, norm quotient 4: buffer 0.0002, param 1.9998 |
| Lars.LarsOptimiser.constructor | optimisers.py:67-87 | the epoch starts at 0 and the state is empty. One group holds the parameters with all hyperparameters, which are also kept as the optimiser's own attributes. Defaults: momentum 0.9, Nesterov off, decay 0, classic on, eta 0.001. With distinct parameters the optimiser starts `Valid`, as `Step` requires |
| Lars.LarsOptimiser.Step | optimisers.py:89-181 | returns the closure's value. The epoch rises by one exactly when none is given. Every group's parameters and buffers become `GroupStep` of their old values, with the group's `lr` and `momentum`. No other buffer changes |
| Lars.LarsOptimiser.StepGroupAt | optimisers.py:100-179 | stepping group k applies `GroupStep` to it and leaves every other group and every other buffer unchanged |
| Lars.LarsOptimiser.StepGroup | optimisers.py:104-179 | the counter-threaded walk over one group's parameters yields `GroupStep` of their old values |
| Lars.LarsOptimiser.StepParam | optimisers.py:112-177 | a parameter with a gradient becomes `SlotStep` of its old value. Only its own buffer is written |
| Lars.LarsOptimiser.ClassicMomentumStep | optimisers.py:130-151 | the parameter and its buffer become the classic momentum move |
| Lars.LarsOptimiser.AdaptiveMomentumStep | optimisers.py:153-177 | the parameter and its buffer become the non-classic momentum move |

## Left out

- Tensors are not modelled. A parameter is one real number, so `torch.norm` does not appear and `p.data`/`p.grad` are plain fields.
- The trust ratio's norm quotient is an opaque function `ratio(w, d)`, and the step multiplies it by `self.eta`.
- The `torch.where` fallback to 1.0 (`optimisers.py:139-140`, `172-173`) is not modelled. Its test `>= 0` holds for every norm that is not NaN, so the fallback fires only on NaN norms, which exact real arithmetic cannot produce. Division by a zero norm (inf/NaN in floating point) is not modelled either.
- Floating point is not modelled: all arithmetic is exact real arithmetic.
- The batch-size scaling of the learning rates, and the writes of the scaled rates into `args`, are not modelled (`optimisers.py:7-8`). `Args` carries the already scaled rates.
- The `print` calls (`optimisers.py:54-55`) are not modelled.
- Adam and SGD are library classes whose code is not part of this model. `Optimiser.Adam` and `Optimiser.Sgd` record only their constructor arguments.
- The base `Optimizer` class is not part of this model. Its empty-parameter-list error, `add_param_group`, and the defaulting of `self.state[p]` to an empty dictionary are out. The model's `state` maps a parameter directly to its momentum buffer.
- Lars.LarsOptimiser.Step: requires that no parameter occurs twice in a group or in two groups (`Valid`). The base class refuses or warns about duplicates, and in-place aliasing of a shared parameter is not modelled.
- Lars.LarsOptimiser.Step: the closure is modelled by the value it returns (`closure: Option<real>`). The gradients it would compute are those the parameters already hold when `Step` starts.
- Lars.LarsOptimiser.Step: the resolved `epoch` local (`optimisers.py:96-97`) is never read afterwards, so only the change to `self.epoch` is modelled.
- Lars.LarsOptimiser.Step: `Group` stores the group's `weight_decay` and `eta`, but the step's reads of them into locals (`optimisers.py:101`, `103`) are not modelled, because those locals are never used. The step uses `self.weight_decay` and `self.eta` instead.
- `named_parameters()` and `parameters()` are modelled as the same ordered list. Only the list is modelled, not module traversal.
