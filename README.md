# MagicTween tween state machine, in Dafny

MagicTween is a tweening library built on Unity's entity component system.
Each tween is an entity. Its record (`TweenAspect`) holds:

- a lifecycle status;
- a playhead position;
- a loop count and an eased progress;
- the tween's parameters (duration, delay, loops, loop type, ease, auto-play,
  auto-kill, invert mode);
- two bit masks: the callbacks to fire this frame, and whether the animated
  property must be read (Getter) or written (Setter).

Every frame, `Update` evaluates the record at the frame's playhead position
and updates it in place. `Kill` moves a tween to its absorbing `Killed` state,
releases its custom easing curve and appends its entity to a kill queue.

The model has five modules:

- `TweenTypes` (`tween_types.dfy`): the enums, the entity handle, the custom
  curve and the process-wide defaults. Bit masks become sets of enum values.
- `Evaluator` (`evaluator.dfy`): one evaluation as a pure function.
  `Evaluator.Step` maps the parameters, the record and the position to the new
  record, plus whether the entity is enqueued. Each phase of the evaluation is
  its own function with a contract: start, loop arithmetic, loop shaping,
  status transition, accessor flags, inversion and kill.
- `Aspect` (`tween_aspect.dfy`): the record as a class.
  - Its fields mirror the aspect's properties.
  - `Update` and `Kill` change them step by step, as the source does.
  - The kill queue is a class holding an append-only sequence.
  - Each method is proved to leave the record equal to `Evaluator.Step` (or
    one of its phases) applied to the old record.
  - A ghost counter proves that the custom curve is released at most once.
- `Laws` (`laws.dfy`): properties of one or two evaluations. These cover when a
  tween completes, how the playhead splits into whole loops and a fraction, the
  first evaluation of a new tween, and re-evaluation at the same position. They
  also cover the two-call rewind out of the first loop.
- `Playback` (`playback.dfy`): properties of a tween evaluated at a sequence of
  positions.
  - `Invalid` and `Killed` are absorbing.
  - A tween is enqueued at most once.
  - Under forward playback, `OnRewind` is never raised and `OnStart` at most
    once.

The easing catalog is a parameter `catalog: (nat, real) -> real`. The custom
curve is a value carrying its evaluation function. Nothing is assumed about
either.

## Behaviour worth knowing

The model follows the code (`TweenAspect.cs`). Two behaviours of the code are
easy to miss:

- **Position 0 does not start a tween.** A waiting tween starts only at a
  strictly positive position (`currentPosition <= 0f` at line 139), not at
  position 0. See `Evaluator.Step` and `Evaluator.AutoStart`.
- **Auto-kill happens on the next evaluation.** A Completed tween with
  auto-kill is killed on the evaluation after the one that completed it. The
  auto-kill test (line 155) runs before the completion logic (line 233). The
  evaluation that completes the tween raises `OnComplete` and does not enqueue
  it. The next evaluation raises only `OnKill` and enqueues it. See
  `Evaluator.Step` and `Laws.CompletesPastEnd`.

The model also exhibits three edge cases of the code:

- **Zero duration.** With duration 0, a tween completes as soon as its delay
  has passed, even when its loop count is negative (infinite). It then stores
  that negative count as `completedLoops` (lines 181-186). See
  `Evaluator.ComputeTiming`. The completion test is strict (`currentTime > 0f`
  at line 181): at the position where the delay ends, a Delayed zero-length
  tween goes to Playing, raising OnStart and OnUpdate, and completes only on a
  later, larger position. See `Laws.ZeroDurationAtDelayEnd`.
- **Zero loops.** With a positive duration and `loops == 0`, a tween is
  complete on its first active evaluation, even while its delay is running.
  The clamped loop count is 0, which exceeds `loops - 1` (line 199).
- **Stored loop count.** The stored `completedLoops` is the unclamped
  `floor(time / duration)` (line 215). The loop shaping uses the clamped count.

## Model

Paths are relative to the repository root. `TweenAspect.cs` is
`MagicTween/Assets/MagicTween/Runtime/Core/Aspects/TweenAspect.cs`.

| member | source | states |
|---|---|---|
| TweenTypes.NativeCurve.Dispose | MagicTween/Assets/MagicTween/Runtime/Core/Aspects/TweenAspect.cs:118-121 | only an allocated curve is released; afterwards it is no longer allocated and describes the same curve |
| Evaluator.Clamp01 | MagicTween/Assets/MagicTween/Runtime/Core/Aspects/TweenAspect.cs:208 | `math.clamp(x, 0, 1)`: the result is in [0, 1], equal to x inside, and at the nearer bound outside |
| Evaluator.ClampLoops | MagicTween/Assets/MagicTween/Runtime/Core/Aspects/TweenAspect.cs:198 | the clamped loop count is in [0, loops] for finite loops and non-negative for infinite (negative) loops; in-range counts are unchanged |
| Evaluator.Trunc | MagicTween/Assets/MagicTween/Runtime/Core/Aspects/TweenAspect.cs:224 | the C# `(int)` cast truncates toward zero |
| Evaluator.FMod1 | MagicTween/Assets/MagicTween/Runtime/Core/Aspects/TweenAspect.cs:227 | `math.fmod(x, 1)` is in [0, 1) for x >= 0, is the identity on [0, 1), and maps 1 to 0 |
| Evaluator.EasedValue | MagicTween/Assets/MagicTween/Runtime/Core/Aspects/TweenAspect.cs:101-106 | the custom curve is evaluated for `Custom` and the catalog entry otherwise |
| Evaluator.LoopFraction | MagicTween/Assets/MagicTween/Runtime/Core/Aspects/TweenAspect.cs:207-208 | the linear progress inside a loop is in [0, 1] |
| Evaluator.ComputeTiming | MagicTween/Assets/MagicTween/Runtime/Core/Aspects/TweenAspect.cs:165-210 | the loop arithmetic: the clamped count's bounds; linear progress in [0, 1] and 1 on completion; zero duration completes iff the delay has passed; otherwise the stored count is floor(time / duration), and the tween completes iff the loops are finite and the clamped count reaches them, so infinite loops never complete |
| Evaluator.Shape | MagicTween/Assets/MagicTween/Runtime/Core/Aspects/TweenAspect.cs:217-229 | Restart eases the linear progress; Yoyo mirrors odd loops inside a loop and even loops at a loop's end; Incremental adds the eased end value once per completed loop |
| Evaluator.AutoStart | MagicTween/Assets/MagicTween/Runtime/Core/Aspects/TweenAspect.cs:138-154 | a waiting tween is left untouched unless it plays automatically and the position is strictly positive; then OnPlay and OnStartUp are raised and it goes to Delayed if it has a delay, otherwise to Playing with OnStart and `started` set |
| Evaluator.Resolve | MagicTween/Assets/MagicTween/Runtime/Core/Aspects/TweenAspect.cs:233-278 | every branch of the transition as an if-and-only-if: Completed iff complete; OnComplete only on entry; OnStart only leaving Delayed forwards; OnStepComplete iff the count grew past 0; the rewind branch goes to RewindCompleted with OnRewind, WaitingForStart with `started` cleared, or Delayed; OnUpdate iff not complete and the time or the position is non-negative |
| Evaluator.AccessorsFor | MagicTween/Assets/MagicTween/Runtime/Core/Aspects/TweenAspect.cs:282-289 | Getter iff OnStartUp was raised; Setter iff OnUpdate, OnComplete or OnRewind was raised |
| Evaluator.SetterMask | MagicTween/Assets/MagicTween/Runtime/Core/Aspects/TweenAspect.cs:286 | the mask test equals the disjunction of the three events |
| Evaluator.Advance | MagicTween/Assets/MagicTween/Runtime/Core/Aspects/TweenAspect.cs:161-304 | an active evaluation stores max(position, 0) and the unclamped loop count; it only adds flags, and only transition events; OnComplete, OnStart and OnRewind are gated on their transitions; a Completed tween holds the terminal progress; a started tween stays started unless it goes back to waiting |
| Evaluator.MaxReal | MagicTween/Assets/MagicTween/Runtime/Core/Aspects/TweenAspect.cs:214 | `math.max(a, b)`: at least both arguments and equal to one of them |
| Evaluator.LoopIndex | MagicTween/Assets/MagicTween/Runtime/Core/Aspects/TweenAspect.cs:197 | `(int)math.floor(time / duration)`: the greatest integer not above time / duration; non-negative after the delay and negative before it, for a positive duration |
| Evaluator.Increment | MagicTween/Assets/MagicTween/Runtime/Core/Aspects/TweenAspect.cs:227 | the Incremental offset is 0 before the first loop completes and never negative for a non-negative end value |
| Evaluator.TerminalProgress | MagicTween/Assets/MagicTween/Runtime/Core/Aspects/TweenAspect.cs:217-229 | the progress of a completed tween: the eased end value, mirrored for a Yoyo tween with an even or infinite loop count, plus one end value per loop for Incremental |
| Evaluator.Cleared | MagicTween/Assets/MagicTween/Runtime/Core/Aspects/TweenAspect.cs:130-131 | both flag sets are emptied and every other field is unchanged |
| Evaluator.Active | MagicTween/Assets/MagicTween/Runtime/Core/Aspects/TweenAspect.cs:161 | the loop arithmetic runs for every status except WaitingForStart, Invalid and Killed |
| Evaluator.InvertedFor | MagicTween/Assets/MagicTween/Runtime/Core/Aspects/TweenAspect.cs:293-304 | inverted iff the mode is Immediate, or AfterDelay once the playhead time is non-negative; `Evaluator.Advance` stores exactly this |
| Evaluator.InitialParams | MagicTween/Assets/MagicTween/Runtime/Core/TweenFactory.cs:352-368 | a new tween is a single loop of the given duration with no delay, unit playback speed, no inversion and not relative; loop type, ease, auto-play, auto-kill and time-scale handling follow the process-wide defaults |
| Evaluator.KillState | MagicTween/Assets/MagicTween/Runtime/Core/Aspects/TweenAspect.cs:114-125 | Killed, no accessor work, OnKill added to the flags already raised, the curve no longer allocated, everything else unchanged |
| Evaluator.Proceed | MagicTween/Assets/MagicTween/Runtime/Core/Aspects/TweenAspect.cs:133-304 | the non-kill evaluation: OnPlay and OnStartUp iff it started this call; events gated on transitions; the accessor flags derived from the callback flags; terminal progress when Completed |
| Evaluator.Step | MagicTween/Assets/MagicTween/Runtime/Core/Aspects/TweenAspect.cs:127-305 | Invalid and Killed only clear the flags; the entity is enqueued iff the tween was Completed with auto-kill, and then the flags are exactly {OnKill} and no progress is computed; a waiting tween that does not start is left as it is; events are gated on transitions; the accessor flags always follow the callback flags; the curve is released only by the kill |
| Aspect.KillQueue.Enqueue | MagicTween/Assets/MagicTween/Runtime/Core/Aspects/TweenAspect.cs:124 | appends exactly one entity |
| Aspect.TweenAspect.constructor | MagicTween/Assets/MagicTween/Runtime/Core/TweenFactory.cs:352-368 | a new record waits for its start with nothing completed and no flags, holding the given parameters and curve, with the curve not yet released |
| Aspect.TweenAspect.Kill | MagicTween/Assets/MagicTween/Runtime/Core/Aspects/TweenAspect.cs:114-125 | the record becomes `KillState` of the old record; the queue gains exactly the entity; the curve is released iff it was allocated, so it is released at most once |
| Aspect.TweenAspect.Update | MagicTween/Assets/MagicTween/Runtime/Core/Aspects/TweenAspect.cs:108-305 | the record becomes `Evaluator.Step` of the old record; the queue gains the entity iff the step asks for the kill; the curve is released at most once |
| Aspect.TweenAspect.Proceed | MagicTween/Assets/MagicTween/Runtime/Core/Aspects/TweenAspect.cs:138-304 | the record becomes `Evaluator.Proceed` of the old record; the curve and the queue are untouched |
| Aspect.TweenAspect.StartIfDue | MagicTween/Assets/MagicTween/Runtime/Core/Aspects/TweenAspect.cs:138-154 | the record becomes `Evaluator.AutoStart` of the old record |
| Aspect.TweenAspect.AdvanceActive | MagicTween/Assets/MagicTween/Runtime/Core/Aspects/TweenAspect.cs:163-304 | the record becomes `Evaluator.Advance` of the old record |
| Aspect.TweenAspect.LoopArithmetic | MagicTween/Assets/MagicTween/Runtime/Core/Aspects/TweenAspect.cs:165-210 | computes exactly `Evaluator.ComputeTiming` of the playhead time |
| Aspect.TweenAspect.ShapedProgress | MagicTween/Assets/MagicTween/Runtime/Core/Aspects/TweenAspect.cs:217-229 | computes exactly `Evaluator.Shape` |
| Aspect.TweenAspect.ResolveStatus | MagicTween/Assets/MagicTween/Runtime/Core/Aspects/TweenAspect.cs:233-278 | status, `started` and the added flags are those of `Evaluator.Resolve` |
| Aspect.TweenAspect.AccessorsRequested | MagicTween/Assets/MagicTween/Runtime/Core/Aspects/TweenAspect.cs:282-289 | computes exactly `Evaluator.AccessorsFor` of the callback flags |
| Aspect.TweenAspect.InvertedFlag | MagicTween/Assets/MagicTween/Runtime/Core/Aspects/TweenAspect.cs:293-304 | false for None, true for Immediate, and time >= 0 for AfterDelay |
| Laws.CompletionThreshold | MagicTween/Assets/MagicTween/Runtime/Core/Aspects/TweenAspect.cs:197-199 | with a positive duration and at least one loop, a tween is complete iff its playhead time has reached loops times duration |
| Laws.FractionOfLoop | MagicTween/Assets/MagicTween/Runtime/Core/Aspects/TweenAspect.cs:207-208 | inside loop floor(time / duration) the linear progress is below 1, and time = duration * (loop + progress) |
| Laws.LoopDecomposition | MagicTween/Assets/MagicTween/Runtime/Core/Aspects/TweenAspect.cs:197-209 | after the delay and before completion, the stored loop count needs no clamping, and the playhead time is whole loops plus the linear progress |
| Laws.CompletesPastEnd | MagicTween/Assets/MagicTween/Runtime/Core/Aspects/TweenAspect.cs:233-237 | past the last loop's end an advancing tween is Completed with terminal progress and is not enqueued; OnComplete is raised iff it was not Completed already |
| Laws.CompletedIsQuiet | MagicTween/Assets/MagicTween/Runtime/Core/Aspects/TweenAspect.cs:233-237 | re-evaluating a Completed tween without auto-kill, still past its end, raises no callback and requests no accessor |
| Laws.FirstEvaluation | MagicTween/Assets/MagicTween/Runtime/Core/Aspects/TweenAspect.cs:138-154 | a new auto-playing tween starts at its first positive position with OnPlay, OnStartUp and OnStart and both accessors; it is Completed with OnComplete iff the position has reached its duration, and Playing with OnUpdate otherwise |
| Laws.ZeroDurationAtDelayEnd | MagicTween/Assets/MagicTween/Runtime/Core/Aspects/TweenAspect.cs:179-186 | a Delayed zero-length tween evaluated where its delay ends goes to Playing with OnStart and OnUpdate, and does not complete |
| Laws.RepeatRaisesNoTransitionEvent | MagicTween/Assets/MagicTween/Runtime/Core/Aspects/TweenAspect.cs:233-278 | a second evaluation at the same position raises none of OnStart, OnStepComplete, OnComplete or OnRewind |
| Laws.RewindThenWait | MagicTween/Assets/MagicTween/Runtime/Core/Aspects/TweenAspect.cs:240-261 | moving a started tween back before its delay goes to RewindCompleted with OnRewind; the next evaluation at that position goes to WaitingForStart and clears `started`; OnUpdate is raised only at non-negative positions |
| Playback.AbsorbingRun | MagicTween/Assets/MagicTween/Runtime/Core/Aspects/TweenAspect.cs:135-137 | once Invalid or Killed, every later evaluation only clears the flags and never enqueues |
| Playback.KilledAtMostOnce | MagicTween/Assets/MagicTween/Runtime/Core/Aspects/TweenAspect.cs:114-125 | along any sequence of positions, OnKill is raised, and the entity enqueued, at most once |
| Playback.ForwardStep | MagicTween/Assets/MagicTween/Runtime/Core/Aspects/TweenAspect.cs:240-270 | one evaluation at a position not before the previous one raises no OnRewind, raises OnStart only for a tween not yet started, keeps a started tween started, and keeps the forward invariant |
| Playback.ForwardNeverRewinds | MagicTween/Assets/MagicTween/Runtime/Core/Aspects/TweenAspect.cs:244-252 | a tween played forward never raises OnRewind |
| Playback.StartedStaysStarted | MagicTween/Assets/MagicTween/Runtime/Core/Aspects/TweenAspect.cs:262-266 | a started tween played forward stays started and never raises OnStart again |
| Playback.ForwardStartsOnce | MagicTween/Assets/MagicTween/Runtime/Core/Aspects/TweenAspect.cs:262-266 | a tween played forward raises OnStart at most once |

## Left out

- Floating point: times, progress and eased values are mathematical reals. IEEE-754 rounding is not modelled, and neither is `(int)` overflow of `floor(time / duration)`. Loop counts are unbounded integers.
- Bit masks: the callback and accessor masks are sets of enum values. The numeric bit layout is not modelled.
- The easing catalog (`EaseUtility.Evaluate`) and the custom curve's `Evaluate` are not part of this model. They are opaque function parameters, and nothing is assumed about their range or monotonicity.
- Native memory: the curve's allocation is a boolean. Releasing it is recorded by a ghost counter.
- Concurrency: Burst compilation and the parallel queue writer are not modelled. The kill queue is a sequence appended one evaluation at a time.
- Entity access: the entity-component accessors behind the properties (lines 39-99) are plain fields.
- Configuration: the parameters are constant during an evaluation. The configuration layer that sets them between evaluations is not part of this model.
  - `playbackSpeed`, `ignoreTimeScale` and `isRelative` are carried but not read here, because the evaluation does not read them.
- Tween creation: only the record constants of `InitializeCoreComponents` (TweenFactory.cs:352-368) are modelled, as `Evaluator.InitialParams` and the constructor. The rest of `TweenFactory.cs` is entity and native-memory plumbing and is not part of this model.
- Not part of this model:
  - `Tween.Entity.cs`, which only forwards to the factory;
  - the UniRx callback observable;
  - the benchmark and sample code;
  - the batch driver that computes the playhead position, property get/set, and callback dispatch.
