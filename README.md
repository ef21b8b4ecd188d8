# ReAnimation, modelled in Dafny

ReAnimation is a Swift library that describes UIView animations as values and
composes them with RxSwift: `a & b` (`simultaneously(with:)`, a `Merge`),
`a + b` (`followed(by:)`, a `Concat`), `delayed(by:)`, `indefinite()`, and a
family of function-based animations (`AlphaFunction`, `MoveFunction`, ...)
that sample a function of elapsed time and run one short sub-animation per
sample. `view.rx.animate(a, b, ...)` folds a list of animations into one
`Observable` that emits the view.

This project models that algebra over an abstract view record.

- `views.dfy` (module `Views`): the view (`tag`, `isHidden`, `alpha`,
  `transform`, `center`, with reals for CGFloat and a small datatype for the
  affine transforms the library builds), the mutation blocks the library
  passes to `Mutate` and `Animate`, the single-shot executor
  `rx.animate(duration:options:block:)` ("apply the block, emit the view
  once, complete"), and a `TargetView` class whose methods make the
  in-place property writes.
- `options.dfy` (modules `Optionals`, `AnimationOptions`):
  `UIView.AnimationOptions` as a set of bit positions. It includes the
  standard library's `OptionSet.update(with:)` and the options rule a
  FunctionAnimation applies to each sub-animation.
- `functions.dfy` (module `Functions`): the two `packToArray` overloads.
- `schedule.dfy` (module `Schedule`): the FunctionAnimation sampling
  schedule in exact real arithmetic. `StepMax` is `Int(duration / interval)`
  (truncation). `HasRemainder` is the IEEE `remainder(dividingBy:)` test,
  computed exactly. `SampleTimes(D, I)` lists every sampled elapsed time in
  order.
- `function_animation.dfy` (module `FunctionAnimations`): the recursive
  `Step`, which mirrors `animate(target:step:stepMax:appendedInterval:)`, and
  a reference `Replay` over `SampleTimes`. It also holds the sub-animation
  builders of the `*Function` wrappers and a `FunctionAnimationObject` class.
  That class runs the step chain on a `TargetView` and updates its own
  `options` in place; its methods are proved equal to the pure `Step`.
- `animation.dfy` (module `Animations`): the closed `Animation` datatype, the
  library's constructors and operators, and the semantics
  `Run(a, v) = Outcome(trace, view, count)`. The trace is the ordered list of
  property writes, the view is the state afterwards, and the count is how
  many values the Observable emits. Concat is a `flatMap`: the right
  animation runs once per value the left emits. Merge runs the left branch's
  writes and then the right branch's on the same view object, and drops the
  first merged value; the order of writes between the two branches is a
  serialization the model chooses (see "Left out"). The fold
  `AnimateAll` is `reduce` over `flatMap` starting from `just(view)`; it also
  models the variadic `animate(_:)`, which only packs its arguments into an
  array.
- `scenarios.dfy` (module `Scenarios`): the behaviours the library's test
  suite checks, stated on the model.

Emission counts matter because a stage that emits nothing stops everything
after it in a `flatMap` chain. A FunctionAnimation feeds each regular step's
value into `concatMap` and ends in `Observable.empty()` when no sample is
appended. So, in exact arithmetic, it emits one value when the duration is
not a whole multiple of the interval, and none when it is (in `Double` the
test can come out the other way; see "Left out"). In the second case, an animation that
follows it with `+` or in `rx.animate(...)` never runs
(`ExactFunctionAnimationBlocksFollower`, `SilentStageStopsFold`). The model
keeps this behaviour of the code.

Three behaviours of the code are worth stating explicitly:

- Merge does not join on both branches. It drops the first merged value, so
  it emits `max(0, countL + countR - 1)` values, and the right branch runs
  even when the left emits nothing.
- With `isLinear`, the sub-animation's options are the result of
  `options?.update(with: .curveLinear) ?? .curveLinear`, and are not merged
  with the stored options. That result is the part of `.curveLinear` already
  stored when that part is non-empty, and `.curveLinear` itself otherwise
  (nil options, or no curve bit stored), so it is exactly `.curveLinear`
  unless the stored options hold only one of its two curve bits. Meanwhile the stored options get
  `.curveLinear` inserted in place.
- For duration 0.02 and interval 0.01 there is no remainder sample. The
  samples 0, 0.01 and 0.02 are all regular steps.

## Model

| member | source | states |
|---|---|---|
| `Optionals.Option.GetOr` | ReAnimation/Utility/FunctionAnimation.swift:54 | `options ?? default`: the stored value when there is one, the default otherwise (defined by cases) |
| `AnimationOptions.Update` | ReAnimation/Utility/FunctionAnimation.swift:46 | `update(with:)` leaves the receiver as the union with the new member and returns their common part, or nil exactly when they are disjoint |
| `AnimationOptions.SubAnimationOptions` | ReAnimation/Utility/FunctionAnimation.swift:54 | without isLinear, options pass through unchanged; with it, nil gives exactly `.curveLinear` and stays nil, non-nil stored options get `.curveLinear` inserted, and the sub-animation gets exactly `.curveLinear` unless exactly one curve bit was stored, in which case it gets that partial curve |
| `AnimationOptions.LinearOptionsAreStable` | ReAnimation/Utility/FunctionAnimation.swift:46 | once the stored options are nil or hold `.curveLinear`, every sub-animation gets exactly `.curveLinear` and the stored options stay as they are |
| `Functions.PackToArray` | ReAnimation/Utility/Functions.swift:10-14 | the packed function returns a one-element array holding `function(argument)` |
| `Functions.PackPairToArray` | ReAnimation/Utility/Functions.swift:16-21 | the packed function returns a two-element array: the pair's `.0`, then its `.1` |
| `Schedule.Trunc` | ReAnimation/Utility/FunctionAnimation.swift:30 | `Int(x)` truncates toward zero: floor for non-negative `x`, ceiling for negative `x` |
| `Schedule.RoundHalfEven` | ReAnimation/Utility/FunctionAnimation.swift:31 | the quotient IEEE remainder uses is within one half of `x`, and is `x` itself when `x` is whole |
| `Schedule.Remainder` | ReAnimation/Utility/FunctionAnimation.swift:31 | `duration.remainder(dividingBy: interval)` as `duration - n * interval` with `n` the quotient rounded half to even (definition; `RemainderIffNotMultiple` states when it is zero) |
| `Schedule.StepMax` | ReAnimation/Utility/FunctionAnimation.swift:30 | `animationsCount = Int(duration / interval)`, the quotient truncated toward zero (definition; `StepMaxIsFloor` relates it to the floor) |
| `Schedule.Schedulable` | ReAnimation/Utility/FunctionAnimation.swift:30 | `Int(duration / interval)` does not trap: the interval is not zero and the truncated quotient lies within Swift's 64-bit `Int` range (definition) |
| `Schedule.HasRemainder` | ReAnimation/Utility/FunctionAnimation.swift:31 | `shouldAppendStep`: the remainder is not zero (definition; `RemainderIffNotMultiple` states it is exactly "not a whole multiple") |
| `Schedule.SampleTime` | ReAnimation/Utility/FunctionAnimation.swift:50 | regular step `step` samples at `Double(step) * interval` (definition; `SampleTimeRises` states the times rise with the step for a positive interval) |
| `Schedule.StepMaxNonNegative` | ReAnimation/Utility/FunctionAnimation.swift:30 | for a non-negative duration and a positive interval, `Int(duration / interval)` is not negative |
| `Schedule.SampleTimeRises` | ReAnimation/Utility/FunctionAnimation.swift:50 | for a positive interval, a later regular step samples at a strictly later, non-negative time |
| `Schedule.StepMaxIsFloor` | ReAnimation/Utility/FunctionAnimation.swift:30 | for a non-negative duration and a positive interval, the last regular step is `floor(duration / interval)`, its sample does not pass the duration, and the next step's would |
| `Schedule.RemainderIffNotMultiple` | ReAnimation/Utility/FunctionAnimation.swift:31 | a sample is appended exactly when `duration / interval` is not a whole number |
| `Schedule.TimesFrom` | ReAnimation/Utility/FunctionAnimation.swift:40-57 | the recursion from `step` to `stepMax` samples `stepMax - step + 1` regular times, and none once `step` is past `stepMax` |
| `Schedule.TimesFromAt` | ReAnimation/Utility/FunctionAnimation.swift:50 | the k-th regular time from `step` on is `(step + k) * interval` |
| `Schedule.SampleTimes` | ReAnimation/Utility/FunctionAnimation.swift:29-38 | there are `stepMax + 1` regular samples (none when `stepMax` is negative) plus one more when there is a remainder, and the appended one is last and taken at the duration itself |
| `Schedule.SampleTimesRegular` | ReAnimation/Utility/FunctionAnimation.swift:50-56 | regular step k samples at exactly `k * interval`, for every k from 0 to `stepMax` |
| `Schedule.RegularTimesIncreasing` | ReAnimation/Utility/FunctionAnimation.swift:50-57 | with a positive interval the regular samples rise strictly from 0 to `stepMax * interval` |
| `Schedule.AppendedAfterRegular` | ReAnimation/Utility/FunctionAnimation.swift:36-47 | with a remainder, the appended sample at the duration lies strictly after the last regular one and strictly before `(stepMax + 1) * interval`, so it is not another regular step |
| `Schedule.LastRegularIsDuration` | ReAnimation/Utility/FunctionAnimation.swift:30-31 | without a remainder, the last regular sample is the duration itself |
| `Schedule.AppendKeepsIncreasing` | ReAnimation/Utility/FunctionAnimation.swift:41-48 | appending a time past every earlier (rising, non-negative) sample keeps the schedule rising and within the new last time |
| `Schedule.SampleTimesWithRemainder` | ReAnimation/Utility/FunctionAnimation.swift:29-58 | with a remainder, the schedule starts at 0, rises strictly and ends at the duration, which it never passes |
| `Schedule.SampleTimesWithoutRemainder` | ReAnimation/Utility/FunctionAnimation.swift:29-58 | without a remainder, the regular samples alone start at 0, rise strictly and end exactly at the duration |
| `Schedule.SampleTimesIncreasing` | ReAnimation/Utility/FunctionAnimation.swift:29-58 | for a non-negative duration and a positive interval: `stepMax + 1 + (remainder ? 1 : 0)` samples that start at 0, rise strictly, stay within the duration and end at it |
| `Schedule.ExactDivisionSamples` | ReAnimationTests/ReAnimationSpec.swift:204-210 | 0.02 / 0.01 samples at [0, 0.01, 0.02] |
| `Schedule.PartialIntervalSamples` | ReAnimationTests/ReAnimationSpec.swift:214-219 | 0.1 / 0.03 samples at [0, 0.03, 0.06, 0.09, 0.1] |
| `Views.BlockChangesOneProperty` | ReAnimation/ReactiveAnimations.swift:71-196 | each block sets only its own property: alpha, transform and isHidden absolutely, center relative to where it was; clearing layer animations changes no property |
| `Views.BlockWrite` | ReAnimation/ReactiveAnimations.swift:71-77 | the write a block makes on the view it is given: absolute blocks write their value, `Offset` writes the current center plus the offset (definition; `BlockChangesOneProperty` states the effect) |
| `Views.ApplyBlock` | ReAnimation/ReactiveAnimations.swift:47-48 | the view after the block ran: the written property replaced and nothing else (definition; `BlockChangesOneProperty` states it per block) |
| `Views.Mutation` | ReAnimation/ReactiveAnimations.swift:47-50 | `Mutate.animate(target:)`: the block runs at once, outside any UIView.animate call, as a single immediate write; the view after it is emitted once |
| `Views.Execute` | ReAnimation/ReAnimation.swift:10-19 | the executor applies the block once inside one animation with the given duration and delay 0, nil options become the empty set, and it emits exactly once |
| `Views.TargetView.Perform` | ReAnimation/ReAnimation.swift:13 | running a block on the view object changes its properties as `ApplyBlock` says and records the one write it made |
| `Views.TargetView.Animate` | ReAnimation/ReAnimation.swift:10-19 | the executor on the view object leaves it in the state `Execute` gives, appends its trace and emits once |
| `Views.TargetView.Mutate` | ReAnimation/ReactiveAnimations.swift:47-50 | `Mutate` applies its block at once, outside any animation, then emits the same view once: the new state and log are exactly `Mutation`, the outcome `Run` gives a Mutate node |
| `FunctionAnimations.Samples` | ReAnimation/Utility/Functions.swift:10-21 | a sample yields one value for single-valued functions and two for pair-valued ones |
| `FunctionAnimations.SamplesArePacked` | ReAnimation/ReactiveAnimations.swift:230 | those values are exactly what the wrapper's function, packed with `packToArray`, returns |
| `FunctionAnimations.SampleBlockUsesResults` | ReAnimation/ReactiveAnimations.swift:224-393 | single-valued wrappers build their sub-animation from `results[0]`, pair-valued ones use `results[0]` as x and `results[1]` as y |
| `FunctionAnimations.SubBlock` | ReAnimation/ReactiveAnimations.swift:231-235 | `animationFunction`: builds the sub-animation's block from elements 0 (and 1) of the results (definition; `SampleBlockUsesResults` states which element feeds which property) |
| `FunctionAnimations.SampleBlock` | ReAnimation/Utility/FunctionAnimation.swift:50-54 | `animationFunction(function(argument))`: the block for the sample at one elapsed time (definition; `SampleBlockUsesResults`) |
| `FunctionAnimations.AbsoluteWrite` | ReAnimation/ReactiveAnimations.swift:231-235 | the write of an absolute sub-animation read off the sample alone, independently of the view; `AbsoluteSampleWrite` proves the block makes exactly this write on every view |
| `FunctionAnimations.SubAnimation` | ReAnimation/Utility/FunctionAnimation.swift:50-54 | one sub-animation writes the sampled block's property in an animation lasting one interval, with the options rule applied, and emits once |
| `FunctionAnimations.Step` | ReAnimation/Utility/FunctionAnimation.swift:40-58 | the chain from `step` runs one sub-animation per remaining regular step plus the appended one, and emits only the appended one's value: regular values are consumed by `concatMap` |
| `FunctionAnimations.RunFunction` | ReAnimation/Utility/FunctionAnimation.swift:29-38 | `animate(target:)`: starts the chain at step 0 with `stepMax = Int(duration / interval)` and the duration appended exactly when the remainder is not zero, for a schedule that does not trap (definition; `FunctionAnimationFollowsSchedule` states what it does) |
| `FunctionAnimations.Replay` | ReAnimation/Utility/FunctionAnimation.swift:40-58 | reference definition: one sub-animation per given time, in order, each on the view and stored options the previous left; writes one effect per time |
| `FunctionAnimations.StepReplaysTimes` | ReAnimation/Utility/FunctionAnimation.swift:40-58 | the recursion runs the sub-animations for the regular times from `step` on, then the appended time, in that order, each on the view the previous one left |
| `FunctionAnimations.FunctionAnimationFollowsSchedule` | ReAnimation/Utility/FunctionAnimation.swift:29-38 | `animate(target:)` runs exactly the sub-animations of `SampleTimes`, in order, and emits one value when a sample was appended and none otherwise |
| `FunctionAnimations.ReplayTimings` | ReAnimation/ReactiveAnimations.swift:231-233 | every sub-animation is an animated write lasting one interval with delay 0 |
| `FunctionAnimations.ReplayPassesOptionsThrough` | ReAnimation/Utility/FunctionAnimation.swift:54 | without isLinear every sub-animation gets the stored options (nil as the empty set), and these stay unchanged |
| `FunctionAnimations.ReplayLinearStable` | ReAnimation/Utility/FunctionAnimation.swift:54 | with isLinear and nil options, or options already holding `.curveLinear`, every sub-animation gets exactly `.curveLinear` |
| `FunctionAnimations.ReplayLinearFromStoredOptions` | ReAnimation/Utility/FunctionAnimation.swift:46-54 | with isLinear and non-nil options, `.curveLinear` ends up inserted in them, the first sub-animation gets what `update(with:)` returned and every later one exactly `.curveLinear` |
| `FunctionAnimations.AbsoluteSampleWrite` | ReAnimation/ReactiveAnimations.swift:231-233 | an alpha, rotate, scale or translate sub-animation writes the sample itself, whatever the view held |
| `FunctionAnimations.MoveSampleWrite` | ReAnimation/ReactiveAnimations.swift:385-391 | a move sub-animation sets the center to the current center plus the sampled offset |
| `FunctionAnimations.ReplayRecordsSamples` | ReAnimation/ReactiveAnimations.swift:224-353 | the absolute function animations write the raw sample for each sample time, in order |
| `FunctionAnimations.ReplayMovesCumulatively` | ReAnimation/ReactiveAnimations.swift:378-393 | `MoveFunction` is cumulative: the i-th write sets the center to the start plus the first i + 1 sampled offsets |
| `FunctionAnimations.Shifted` | ReAnimation/ReactiveAnimations.swift:188-196 | the center after moving by every sample so far, each offset added to where the previous left it (definition; `ReplayMovesCumulatively` states a MoveFunction writes these) |
| `FunctionAnimations.FunctionAnimationObject.constructor` | ReAnimation/ReactiveAnimation.swift:13 | a new FunctionAnimation starts with nil options |
| `FunctionAnimations.FunctionAnimationObject.With` | ReAnimation/ReactiveAnimation.swift:64-67 | `with(options:)` replaces the options field and returns the same object |
| `FunctionAnimations.FunctionAnimationObject.NextSubOptions` | ReAnimation/Utility/FunctionAnimation.swift:46 | computes one sub-animation's options and updates the stored options in place, as `SubAnimationOptions` says |
| `FunctionAnimations.FunctionAnimationObject.RunSample` | ReAnimation/Utility/FunctionAnimation.swift:50-54 | one sample: computes the options, animates the sampled block on the view object, and leaves the view, its log, the emission count and the stored options as the pure `SubAnimation` says |
| `FunctionAnimations.FunctionAnimationObject.AnimateStep` | ReAnimation/Utility/FunctionAnimation.swift:40-58 | running the step chain on a view object leaves the view, its write log, the emission count and the stored options as the pure `Step` says |
| `FunctionAnimations.FunctionAnimationObject.Animate` | ReAnimation/Utility/FunctionAnimation.swift:29-38 | `animate(target:)` computes the step count and the remainder test and runs the chain from step 0, as `RunFunction` says |
| `Animations.Alpha` | ReAnimation/ReactiveAnimations.swift:56-79 | `Alpha` is a leaf that completes after emitting once; `AbsoluteAnimationsSetTheirProperty` states its write |
| `Animations.Rotate` | ReAnimation/ReactiveAnimations.swift:82-104 | `Rotate` is a leaf that completes after emitting once; `AbsoluteAnimationsSetTheirProperty` states its write |
| `Animations.Scale` | ReAnimation/ReactiveAnimations.swift:108-134 | `Scale` is a leaf that completes after emitting once; `AbsoluteAnimationsSetTheirProperty` states its write |
| `Animations.Translate` | ReAnimation/ReactiveAnimations.swift:139-165 | `Translate` is a leaf that completes after emitting once; `AbsoluteAnimationsSetTheirProperty` states its write |
| `Animations.Move` | ReAnimation/ReactiveAnimations.swift:169-199 | `Move` is a leaf that completes after emitting once; `MoveIsRelative` states its relative write |
| `Animations.SetIsHidden` | ReAnimation/ReactiveAnimations.swift:400-418 | `SetIsHidden` completes after emitting once; `MutatorsApplyAtOnce` states its immediate write |
| `Animations.RemoveAllAnimations` | ReAnimation/ReactiveAnimations.swift:423-431 | `RemoveAllAnimations` completes after emitting once; `MutatorsApplyAtOnce` states it changes no modelled property |
| `Animations.SetTag` | ReAnimationTests/Utility/SetTag.swift:9-23 | the tests' `SetTag` fixture completes after emitting once; `MutatorsApplyAtOnce` states its immediate write |
| `Animations.AlphaFunction` | ReAnimation/ReactiveAnimations.swift:205-237 | the wrapper completes exactly when `Int(duration / interval)` does not trap, and then emits one value exactly when the duration is not a whole multiple of the interval |
| `Animations.RotateFunction` | ReAnimation/ReactiveAnimations.swift:242-274 | as `AlphaFunction`: completes exactly when the step count does not trap, and emits exactly when a sample is appended |
| `Animations.ScaleFunction` | ReAnimation/ReactiveAnimations.swift:279-314 | as `AlphaFunction`: completes exactly when the step count does not trap, and emits exactly when a sample is appended |
| `Animations.TranslateFunction` | ReAnimation/ReactiveAnimations.swift:319-354 | as `AlphaFunction`: completes exactly when the step count does not trap, and emits exactly when a sample is appended |
| `Animations.MoveFunction` | ReAnimation/ReactiveAnimations.swift:359-394 | as `AlphaFunction`: completes exactly when the step count does not trap, and emits exactly when a sample is appended |
| `Animations.Simultaneously` | ReAnimation/ReactiveAnimation.swift:28-30 | `simultaneously(with:)` builds a Merge with the receiver on the left (definition; `CombinatorsKeepOperandOrder`) |
| `Animations.And` | ReAnimation/ReactiveAnimation.swift:33-35 | `&` is `simultaneously(with:)` (definition; `CombinatorsKeepOperandOrder`) |
| `Animations.Followed` | ReAnimation/ReactiveAnimation.swift:40-42 | `followed(by:)` builds a Concat with the receiver on the left (definition; `CombinatorsKeepOperandOrder`) |
| `Animations.Plus` | ReAnimation/ReactiveAnimation.swift:45-47 | `+` is `followed(by:)` (definition; `CombinatorsKeepOperandOrder`) |
| `Animations.Delayed` | ReAnimation/ReactiveAnimation.swift:52-54 | `delayed(by:)` wraps the receiver in a Delay (definition; `CombinatorsKeepOperandOrder`, `DelayedRunsInner`) |
| `Animations.Repeated` | ReAnimation/ReactiveAnimation.swift:57-59 | `indefinite()` wraps the receiver in an Indefinite node (definition; `CombinatorsKeepOperandOrder`) |
| `Animations.WithOptions` | ReAnimation/ReactiveAnimation.swift:64-67 | `with(options:)` replaces the options and keeps everything else (definition; `WithOptionsReplaces`, `OptionsReachOnlyExecutors`) |
| `Animations.Runnable` | ReAnimation/Utility/FunctionAnimation.swift:30 | the animations the model runs, each of whose Observables completes: no `indefinite()` node and no function animation whose `Int(duration / interval)` traps (definition; `StepCountOutOfRangeTraps` exhibits both sides) |
| `Animations.Bind` | ReAnimation/Utility/Concat.swift:19-21 | `o.flatMap { view in a.animate(target: view) }`: `a` runs once per value `o` emits, on the view as it was left, and only those runs' values come out (definition; `BindSingle`, `BindSilent`, `BindAssociative`) |
| `Animations.RunRepeated` | ReAnimation/Utility/Concat.swift:19-21 | the runs of `a` once per emitted value, one after another, each on the view the previous left (definition; `RunRepeatedCount`) |
| `Animations.Run` | ReAnimation/ReactiveAnimation.swift:21-23 | `animate(target:)` for every kind of animation: the base one emits the view unchanged; Mutate and Animate write once and emit once; Concat is a flatMap; Merge runs the left branch's writes and then the right's on one view object and drops the first merged value; Delay runs its inner animation once; a function animation runs its schedule (definition; its emissions are `Emissions`, by `RunCount`) |
| `Animations.FoldFrom` | ReAnimation/ReAnimation.swift:29-31 | `reduce` over the list, each step `acc.flatMap { view in animation.animate(target: view) }` (definition; `FoldFromSilent`, `FoldFromAppend`) |
| `Animations.AnimateAll` | ReAnimation/ReAnimation.swift:23-32 | `rx.animate(animations:)` and the variadic `rx.animate(_:)`: the fold from `Observable.just(view)` (definition; `FoldIsFollowedChain`, `FoldEmitsOnceIffAllDo`) |
| `Animations.ChainOf` | ReAnimation/ReAnimation.swift:29-31 | the animations chained with `followed(by:)` from the base animation, left-nested; runnable when every animation is |
| `Animations.Emissions` | ReAnimation/Utility/Merge.swift:19-20 | read off the tree, no runnable animation emits more than once: leaves emit once, Concat multiplies, Merge adds and drops one, a FunctionAnimation emits only its appended value |
| `Animations.RunCount` | ReAnimation/Utility/Concat.swift:18-22 | running an animation on any view emits as many values as `Emissions` reads off its tree |
| `Animations.RunRepeatedCount` | ReAnimation/Utility/Concat.swift:19-21 | running an animation once per upstream value emits the sum of its runs' counts, n times its own count |
| `Animations.BindSingle` | ReAnimation/ReAnimation.swift:30 | `flatMap` over one value runs the animation once on the view that value carries, after the upstream writes |
| `Animations.BindSilent` | ReAnimation/Utility/Concat.swift:19 | `flatMap` over an Observable that emits nothing never runs the animation |
| `Animations.BindAssociative` | ReAnimation/Utility/Concat.swift:19-21 | for an upstream that emits at most once (every runnable animation does, `Emissions`), two successive `flatMap`s equal one `flatMap` of their Concat |
| `Animations.BindSingleAssociative` | ReAnimation/Utility/Concat.swift:19-21 | when the source emits once, flatMapping `b` then `c` equals flatMapping the Concat of `b` and `c` |
| `Animations.ConcatSequential` | ReAnimation/Utility/Concat.swift:18-22 | when the left emits once, all its writes precede the right's and the right runs on the view the left emitted; when the left emits nothing the right never runs; Concat emits the product of the counts |
| `Animations.ConcatAssociative` | ReAnimation/Utility/Concat.swift:18-22 | `(a + b) + c` and `a + (b + c)` make the same writes in the same order, end on the same view and emit alike |
| `Animations.IdentityIsUnit` | ReAnimation/ReactiveAnimation.swift:21-23 | the base animation is a unit of Concat on either side |
| `Animations.IdentityRepeated` | ReAnimation/ReactiveAnimation.swift:21-23 | the base animation run any number of times writes nothing, leaves the view unchanged and emits once per run |
| `Animations.CombinatorsKeepOperandOrder` | ReAnimation/ReactiveAnimation.swift:28-59 | `&` and `simultaneously(with:)` both build `Merge(a, b)`, `+` and `followed(by:)` both build `Concat(a, b)`, `delayed(by:)` and `indefinite()` wrap the receiver unchanged, and each new node starts with nil options |
| `Animations.MergeRunsBoth` | ReAnimation/Utility/Merge.swift:18-21 | Merge runs both branches on the same view object, the right even when the left emits nothing, and emits `max(0, countL + countR - 1)` values: exactly one when both branches emit once |
| `Animations.MergeAgainstConcat` | ReAnimation/Utility/Merge.swift:19-20 | Merge and Concat emit alike and agree when the left emits once; when it emits nothing, Concat stops and Merge still runs the right |
| `Animations.DelayedRunsInner` | ReAnimation/Utility/Delay.swift:18-24 | apart from time, a delayed animation makes exactly the writes of the one it wraps and emits as it does |
| `Animations.WithOptionsReplaces` | ReAnimation/ReactiveAnimation.swift:64-67 | `with(options:)` replaces the options: the last call wins, and repeating a call changes nothing |
| `Animations.OptionsReachOnlyExecutors` | ReAnimation/ReactiveAnimations.swift:29-31 | `Animate` hands its own duration, options and block to the executor; options on Mutate, Concat, Merge, Delay, the base animation and the wrappers change nothing |
| `Animations.AbsoluteAnimationsSetTheirProperty` | ReAnimation/ReactiveAnimations.swift:71-165 | Alpha, Rotate, Scale and Translate set their property absolutely in one animated write that lasts their duration and uses their own options, and emit once |
| `Animations.MoveIsRelative` | ReAnimation/ReactiveAnimations.swift:188-197 | Move sets the center to the current center plus the offset |
| `Animations.MutatorsApplyAtOnce` | ReAnimation/ReactiveAnimations.swift:411-430 | SetIsHidden, the tag fixture and RemoveAllAnimations write at once through `Mutate`, ignore options and emit once |
| `Animations.FunctionWrapperFollowsSchedule` | ReAnimation/ReactiveAnimations.swift:224-236 | a `*Function` wrapper runs one sub-animation per sample time, in order, each lasting one interval; its own options never reach them, so each gets exactly `.curveLinear` with isLinear and the empty set without it |
| `Animations.ExactFunctionAnimationBlocksFollower` | ReAnimation/Utility/FunctionAnimation.swift:41-48 | a function animation whose duration is a whole multiple of its interval emits nothing, so an animation that follows it never runs |
| `Animations.StepCountOutOfRangeTraps` | ReAnimation/Utility/FunctionAnimation.swift:30 | a function animation whose step count `Int(1e20 / 1.0)` leaves `Int`'s range has no run, while the tests' 0.1 / 0.03 one does |
| `Animations.FoldIsFollowedChain` | ReAnimation/ReAnimation.swift:28-32 | the fold runs left to right, each animation on the view the previous stage emitted: it equals the left-nested `followed(by:)` chain from the base animation |
| `Animations.FoldFromSilent` | ReAnimation/ReAnimation.swift:30 | once the accumulated Observable emits nothing, folding further animations changes nothing |
| `Animations.FoldFromAppend` | ReAnimation/ReAnimation.swift:29-31 | folding a list in two parts equals folding the second part from the result of the first |
| `Animations.SilentStageStopsFold` | ReAnimation/ReAnimation.swift:29-31 | an animation that emits nothing ends the fold: the ones after it never run and nothing is emitted |
| `Animations.ChainEmissions` | ReAnimation/Utility/Concat.swift:19-21 | a `followed(by:)` chain emits once exactly when every animation in it does |
| `Animations.FoldEmitsOnceIffAllDo` | ReAnimation/ReAnimation.swift:28-32 | `rx.animate(...)` emits the view once exactly when every listed animation emits once, and otherwise nothing |
| `Scenarios.NothingToAnimate` | ReAnimationTests/ReAnimationSpec.swift:26-41 | with no animation, or only the base one, the view is emitted once unchanged and nothing is written |
| `Scenarios.TagsRecordedInListOrder` | ReAnimationTests/ReAnimationSpec.swift:61-69 | two tag fixtures in a list write 41 and then 42 |
| `Scenarios.TagAndHiddenListed` | ReAnimationTests/ReAnimationSpec.swift:50-60 | listing a tag setter and a hide in `animate(_:)` leaves tag 42 and a hidden view and emits once |
| `Scenarios.TagAndHiddenFollowed` | ReAnimationTests/ReAnimationSpec.swift:92-112 | `followed(by:)` (and `+`) of the tag setter and the hide leaves tag 42 and a hidden view and emits once, and `+` runs exactly as `followed(by:)` |
| `Scenarios.TagAndHiddenSimultaneous` | ReAnimationTests/ReAnimationSpec.swift:71-91 | `simultaneously(with:)` of the tag setter and the hide leaves tag 42 and a hidden view and emits once, and `&` runs exactly as `simultaneously(with:)` |
| `Scenarios.MoveFromOrigin` | ReAnimationTests/ReAnimationSpec.swift:126-135 | a Move by (0.2, 0.2) on a fresh view puts its center at (0.2, 0.2) |
| `Scenarios.MoveReplayWrites` | ReAnimation/ReactiveAnimations.swift:188-196 | a Move replay over three times writes the start moved by the running sums of the diagonal samples |
| `Scenarios.MoveReplayWritesFive` | ReAnimation/ReactiveAnimations.swift:188-196 | a Move replay over five times writes the start moved by the running sums of the diagonal samples |
| `Scenarios.MoveFunctionWrites` | ReAnimation/ReactiveAnimations.swift:378-394 | a diagonal MoveFunction whose schedule is five given times writes the running sums of those times |
| `Scenarios.MoveExactCenters` | ReAnimationTests/ReAnimationSpec.swift:183-191 | any diagonal MoveFunction whose schedule is 0, 0.01, 0.02 writes centers +0, +0.01, +0.03 |
| `Scenarios.MovePartialCenters` | ReAnimationTests/ReAnimationSpec.swift:192-200 | any diagonal MoveFunction whose schedule is 0, 0.03, 0.06, 0.09, 0.1 writes centers +0, +0.03, +0.09, +0.18, +0.28 |
| `Scenarios.MoveFunctionExactSnapshots` | ReAnimationTests/ReAnimationSpec.swift:183-191 | a move function over 0.02 / 0.01 records centers +0, +0.01, +0.03 |
| `Scenarios.MoveFunctionPartialSnapshots` | ReAnimationTests/ReAnimationSpec.swift:192-200 | a move function over 0.1 / 0.03 records centers +0, +0.03, +0.09, +0.18, +0.28 |
| `Scenarios.ScaleFunctionExactSnapshots` | ReAnimationTests/ReAnimationSpec.swift:203-211 | a scale function over 0.02 / 0.01 records scales 0, 0.01, 0.02 |
| `Scenarios.AlphaFunctionPartialSnapshots` | ReAnimationTests/ReAnimationSpec.swift:232-240 | an alpha function over 0.1 / 0.03 records alphas 0, 0.03, 0.06, 0.09, 0.1 |
| `Scenarios.TranslateFunctionPartialSnapshots` | ReAnimationTests/ReAnimationSpec.swift:252-260 | a translate function over 0.1 / 0.03 records translations 0, 0.03, 0.06, 0.09 and 0.1 on both axes |

## Left out

- `Indefinite` (ReAnimation/Utility/Indefinite.swift) is only a constructor of the datatype. Its Observable never completes and ends only on disposal, so `Runnable` excludes it and `Run` gives it no meaning. The exclusion is wider than the source needs: an `indefinite()` node that is never subscribed to, such as the right side of `AlphaFunction(0.02, 0.01, true, f) + x.indefinite()` whose left side emits nothing (ReAnimation/Utility/Concat.swift:19-21), leaves an Observable that completes in the source, but the model gives that animation no run.
- Transforms are compared by constructor, not by matrix: `Rotation(0.0)`, `Scaling(1.0, 1.0)`, `Translation(0.0, 0.0)` and `IdentityTransform` are distinct values in the model but the same `CGAffineTransform` in the source. No contract depends on equality across them.
- Default arguments: the model's constructors take every argument explicitly. In the source, `Scale`'s factors default to 1.0 (ReAnimation/ReactiveAnimations.swift:121), the `Translate` and `Move` amounts to 0 (:152, :182), `isLinear` to true in every `*Function` wrapper (:217, :254, :291, :331, :371), and the executor's `options` to nil (ReAnimation/ReAnimation.swift:10).
- `Delay`: the timer on the main scheduler is not modelled. A delayed animation has the effects of the one it wraps.
- Write order between the two branches of a Merge is not modelled: `Run` serializes them, all of the left branch's writes and then all of the right branch's. The source calls both branches' `animate(target:)` at once (ReAnimation/Utility/Merge.swift:19), and a bare `Mutate` runs its block inside `animate(target:)` itself (ReAnimation/ReactiveAnimations.swift:47-48), so a right-branch `Mutate` can write before the left branch's first write, and later writes interleave in completion order. When both branches write the same property the final value can differ: for `Merge(Alpha(0.5, 1.0), Mutate(AssignAlpha(0.2)))` the source writes 0.2 then 0.5 and ends at alpha 0.5, while the model writes 0.5 then 0.2 and ends at 0.2. Emission counts and writes to different properties are unaffected.
- The UIKit executor itself (`UIView.animate`, completion timing, animation curves) and `layer.removeAllAnimations()`. The latter is recorded as a write that changes no modelled property.
- Floating point: durations, intervals and samples are exact reals. `Double(step) * interval` rounding, IEEE rounding of the remainder and CGFloat/CGAffineTransform arithmetic are not modelled. The remainder test is IEEE `remainder` computed exactly. So `HasRemainder`, the emission count and everything downstream hold in exact arithmetic only: in `Double`, `0.3 / 0.1` is 2.9999999999999996 and `0.3.remainder(dividingBy: 0.1)` is about -2.8e-17, so `AlphaFunction(0.3, 0.1) + SetTag(1)` appends a sample at 0.3, emits once and sets the tag in the source, while the model finds no remainder and says the follower never runs.
- A zero interval, or a quotient outside `Int`'s 64-bit range, makes `Int(duration / interval)` trap. The trap is not modelled as a run: `Schedule.Schedulable` states when it does not happen, and `Runnable` excludes every function animation that is not schedulable (`StepCountOutOfRangeTraps`). Non-finite values do not arise in the reals.
- `with(options:)` on the general animation tree is a value update (`Animations.WithOptions`). Aliasing is not captured, for `with(options:)` and for the FunctionAnimation's own in-place option update: the source mutates a shared object, so one animation object used in several places sees the change everywhere, while `Run` starts each FunctionAnimation node from its stored options afresh and drops the updated ones. The in-place update is modelled only for the FunctionAnimation object (`FunctionAnimationObject.With`).
- `with(options:)`'s forced cast `self as! T` is not modelled. It returns the same object.
- Disposal, cancellation, subscription order and `[unowned self]` lifetimes.
- The demo application, the build manifest and the test fixture `SnapshotView`. The `SetTag` fixture is modelled as `Animations.SetTag`, a Mutate node with the `AssignTag` block.
