/** The per-tween state machine as a pure function: one evaluation takes the
    tween's configuration, its mutable record and the frame's playhead
    position, and yields the new record and whether the tween asks to be put
    on the kill queue. `Aspect.TweenAspect.Update` is proved to perform
    exactly this step in place. */
module Evaluator {
  import opened TweenTypes

  /** The read-only part of the record (the aspect's parameter properties). */
  datatype Params = Params(
    duration: real,
    delay: real,
    loops: int,
    loopType: LoopType,
    playbackSpeed: real,
    ease: Ease,
    autoPlay: bool,
    autoKill: bool,
    ignoreTimeScale: bool,
    isRelative: bool,
    invertMode: InvertMode)

  /** The part of the record an evaluation writes. */
  datatype State = State(
    status: Status,
    position: real,
    completedLoops: int,
    progress: real,
    started: bool,
    inverted: bool,
    curve: NativeCurve,
    callbackFlags: CallbackFlags,
    accessorFlags: AccessorFlags)

  /** The result of one evaluation: the new record, and whether the tween's
      entity was appended to the kill queue. */
  datatype Outcome = Outcome(state: State, killRequested: bool)

  /** The configuration a new tween is created with: the given duration, one
      loop, unit playback speed and the process-wide defaults; every other
      parameter holds its zero value until the configuration layer sets it. */
  function InitialParams(duration: real, settings: Settings): (p: Params)
    // a single forward loop of the given duration, starting at once
    ensures p.duration == duration && p.loops == 1 && p.delay == 0.0
    ensures p.duration * p.loops as real == duration
    ensures p.playbackSpeed == 1.0 && !p.isRelative && p.invertMode == None
    // the behaviour switches follow the process-wide defaults
    ensures p.loopType == settings.defaultLoopType && p.ease == settings.defaultEase
    ensures p.autoPlay == settings.defaultAutoPlay && p.autoKill == settings.defaultAutoKill
    ensures p.ignoreTimeScale == settings.defaultIgnoreTimeScale
  {
    Params(
      duration := duration,
      delay := 0.0,
      loops := 1,
      loopType := settings.defaultLoopType,
      playbackSpeed := 1.0,
      ease := settings.defaultEase,
      autoPlay := settings.defaultAutoPlay,
      autoKill := settings.defaultAutoKill,
      ignoreTimeScale := settings.defaultIgnoreTimeScale,
      isRelative := false,
      invertMode := None)
  }

  /** The record of a new tween: waiting for its start, nothing completed. */
  const InitialState := State(WaitingForStart, 0.0, 0, 0.0, false, false, NoCurve, {}, {})

  // ---------------------------------------------------------------------------
  // Arithmetic helpers (Unity.Mathematics and C# casts)

  /** math.max(a, b) */
  function MaxReal(a: real, b: real): (m: real)
    ensures m >= a && m >= b
    ensures m == a || m == b
  {
    if a >= b then a else b
  }

  /** math.clamp(x, 0f, 1f) */
  function Clamp01(x: real): (r: real)
    ensures 0.0 <= r <= 1.0
    ensures 0.0 <= x <= 1.0 ==> r == x
    ensures x < 0.0 ==> r == 0.0
    ensures x > 1.0 ==> r == 1.0
  {
    if x < 0.0 then 0.0 else if x > 1.0 then 1.0 else x
  }

  /** The clamped loop count: math.max(0, n) for infinite loops (loops < 0),
      math.clamp(n, 0, loops) otherwise. */
  function ClampLoops(n: int, loops: int): (c: int)
    ensures loops >= 0 ==> 0 <= c <= loops
    ensures loops < 0 ==> 0 <= c
    ensures 0 <= n && (loops < 0 || n <= loops) ==> c == n
    ensures n < 0 ==> c == 0
    ensures 0 <= loops < n ==> c == loops
  {
    if loops < 0 then (if n < 0 then 0 else n)
    else if n < 0 then 0
    else if n > loops then loops
    else n
  }

  /** The C# conversion (int)x, which truncates toward zero. */
  function Trunc(x: real): (i: int)
    ensures x >= 0.0 ==> 0 <= i && i as real <= x < i as real + 1.0
    ensures x < 0.0 ==> i <= 0 && i as real - 1.0 < x <= i as real
  {
    if x >= 0.0 then x.Floor else -((-x).Floor)
  }

  /** math.fmod(x, 1f): the remainder of a truncating division by one. */
  function FMod1(x: real): (r: real)
    ensures 0.0 <= x ==> 0.0 <= r < 1.0
    ensures 0.0 <= x < 1.0 ==> r == x
    ensures x == 1.0 ==> r == 0.0
  {
    x - Trunc(x) as real
  }

  // ---------------------------------------------------------------------------
  // Easing

  /** GetEasedValue: the custom curve for `Custom`, the catalog otherwise. */
  function EasedValue(ease: Ease, curve: NativeCurve, catalog: Catalog, t: real): (r: real)
    ensures ease.Custom? ==> r == curve.evaluate(t)
    ensures ease.Preset? ==> r == catalog(ease.kind, t)
  {
    match ease
    case Custom => curve.evaluate(t)
    case Preset(kind) => catalog(kind, t)
  }

  // ---------------------------------------------------------------------------
  // Loop arithmetic

  /** (int)math.floor(currentTime / duration): the index of the loop the
      playhead is in, unclamped. */
  function LoopIndex(currentTime: real, duration: real): (n: int)
    requires duration != 0.0
    ensures n as real <= currentTime / duration < n as real + 1.0
    ensures duration > 0.0 && currentTime >= 0.0 ==> n >= 0
    ensures duration > 0.0 && currentTime < 0.0 ==> n < 0
  {
    (currentTime / duration).Floor
  }

  /** The linear progress within the loop `clamped`, clamped to [0, 1]. */
  function LoopFraction(currentTime: real, duration: real, clamped: int): (r: real)
    requires duration != 0.0
    ensures 0.0 <= r <= 1.0
  {
    Clamp01((currentTime - duration * clamped as real) / duration)
  }

  /** The loop arithmetic of one evaluation: the unclamped and clamped loop
      counts, the linear (not yet eased) progress within the loop, and whether
      the tween is at its end. */
  datatype Timing = Timing(
    currentTime: real,
    completedLoops: int,
    clampedLoops: int,
    linear: real,
    isCompleted: bool)

  function ComputeTiming(duration: real, loops: int, currentTime: real): (t: Timing)
    ensures t.currentTime == currentTime
    ensures t.clampedLoops == ClampLoops(t.completedLoops, loops)
    ensures loops >= 0 ==> 0 <= t.clampedLoops <= loops
    ensures loops < 0 ==> 0 <= t.clampedLoops
    ensures 0.0 <= t.linear <= 1.0
    ensures t.isCompleted ==> t.linear == 1.0
    // a zero-length tween is complete as soon as its delay has passed
    ensures duration == 0.0 ==> (t.isCompleted <==> currentTime > 0.0)
    ensures duration == 0.0 && t.isCompleted ==> t.completedLoops == loops
    ensures duration == 0.0 && !t.isCompleted ==>
              t.linear == 0.0 && t.completedLoops == (if currentTime < 0.0 then -1 else 0)
    // otherwise the loop index is floor(time / duration), and the tween is
    // complete exactly when that index, clamped, reaches a finite loop count
    ensures duration != 0.0 ==> t.completedLoops == LoopIndex(currentTime, duration)
    ensures duration != 0.0 ==> (t.isCompleted <==> loops >= 0 && t.clampedLoops == loops)
    ensures duration != 0.0 && loops < 0 ==> !t.isCompleted
  {
    if duration == 0.0 then
      var isCompleted := currentTime > 0.0;
      var n := if isCompleted then loops else if currentTime < 0.0 then -1 else 0;
      Timing(currentTime, n, ClampLoops(n, loops), if isCompleted then 1.0 else 0.0, isCompleted)
    else
      var n := LoopIndex(currentTime, duration);
      var c := ClampLoops(n, loops);
      var isCompleted := loops >= 0 && c > loops - 1;
      var linear := if isCompleted then 1.0 else LoopFraction(currentTime, duration, c);
      Timing(currentTime, n, c, linear, isCompleted)
  }

  /** Loop shaping (lines 217-229): the eased, loop-shaped progress. */
  function Shape(loopType: LoopType, ease: Ease, curve: NativeCurve, catalog: Catalog, clamped: int, linear: real): (r: real)
    ensures loopType == Restart ==> r == EasedValue(ease, curve, catalog, linear)
    // within a loop, Yoyo plays the odd loops mirrored
    ensures loopType == Yoyo && 0.0 <= linear < 1.0 ==>
              r == if clamped % 2 == 1 then 1.0 - EasedValue(ease, curve, catalog, linear)
                   else EasedValue(ease, curve, catalog, linear)
    // at the end of loop `clamped`, Yoyo is mirrored exactly when `clamped` is even
    ensures loopType == Yoyo && linear == 1.0 ==>
              r == if clamped % 2 == 0 then 1.0 - EasedValue(ease, curve, catalog, 1.0)
                   else EasedValue(ease, curve, catalog, 1.0)
    // Incremental adds one end value per completed loop to the eased loop progress
    ensures loopType == Incremental && 0.0 <= linear < 1.0 ==>
              r == EasedValue(ease, curve, catalog, 1.0) * clamped as real + EasedValue(ease, curve, catalog, linear)
    ensures loopType == Incremental && linear == 1.0 ==>
              r == EasedValue(ease, curve, catalog, 1.0) * clamped as real + EasedValue(ease, curve, catalog, 0.0)
  {
    match loopType
    case Restart => EasedValue(ease, curve, catalog, linear)
    case Yoyo =>
      // both operands are non-negative here, so C#'s truncating % agrees with Dafny's
      if (clamped + Trunc(linear)) % 2 == 1 then 1.0 - EasedValue(ease, curve, catalog, linear)
      else EasedValue(ease, curve, catalog, linear)
    case Incremental =>
      Increment(EasedValue(ease, curve, catalog, 1.0), clamped) + EasedValue(ease, curve, catalog, FMod1(linear))
  }

  /** The offset an Incremental tween has gathered after `clamped` loops. */
  function Increment(endValue: real, clamped: int): (r: real)
    ensures clamped == 0 ==> r == 0.0
    ensures endValue >= 0.0 && clamped >= 0 ==> r >= 0.0
  {
    endValue * clamped as real
  }

  /** The progress a completed tween settles on. */
  function TerminalProgress(p: Params, curve: NativeCurve, catalog: Catalog): (r: real)
    // the eased end value, mirrored for a Yoyo tween with an even (or infinite) loop count
    ensures p.loopType == Restart ==> r == EasedValue(p.ease, curve, catalog, 1.0)
    ensures p.loopType == Yoyo ==>
              r == if p.loops < 0 || p.loops % 2 == 0 then 1.0 - EasedValue(p.ease, curve, catalog, 1.0)
                   else EasedValue(p.ease, curve, catalog, 1.0)
    ensures p.loopType == Incremental && p.loops >= 0 ==>
              r == EasedValue(p.ease, curve, catalog, 1.0) * p.loops as real + EasedValue(p.ease, curve, catalog, 0.0)
  {
    Shape(p.loopType, p.ease, curve, catalog, if p.loops >= 0 then p.loops else 0, 1.0)
  }

  // ---------------------------------------------------------------------------
  // The phases of one evaluation

  /** The flags an evaluation starts from. */
  function Cleared(s: State): (r: State)
    ensures r.callbackFlags == {} && r.accessorFlags == {}
    // nothing but the two flag sets changes
    ensures r.status == s.status && r.position == s.position && r.completedLoops == s.completedLoops
    ensures r.progress == s.progress && r.started == s.started && r.inverted == s.inverted
    ensures r.curve == s.curve
  {
    s.(callbackFlags := {}, accessorFlags := {})
  }

  /** The statuses for which the loop arithmetic runs (line 161). */
  predicate Active(status: Status)
    ensures Active(status) <==> status != WaitingForStart && status != Invalid && status != Killed
  {
    status == Playing || status == Delayed || status == RewindCompleted || status == Completed
  }

  /** A waiting tween starts on the first strictly positive position if it
      plays automatically, through Delayed when it has a delay. */
  function AutoStart(p: Params, s: State, currentPosition: real): (r: State)
    requires s.status == WaitingForStart
    ensures !p.autoPlay || currentPosition <= 0.0 ==> r == s
    ensures p.autoPlay && currentPosition > 0.0 ==>
              r.status == (if p.delay > 0.0 then Delayed else Playing)
              && r.callbackFlags == s.callbackFlags + {OnPlay, OnStartUp} + (if p.delay > 0.0 then {} else {OnStart})
              && r.started == (s.started || p.delay <= 0.0)
              && r == s.(status := r.status, callbackFlags := r.callbackFlags, started := r.started)
  {
    if !p.autoPlay || currentPosition <= 0.0 then s
    else
      var s1 := s.(callbackFlags := s.callbackFlags + {OnPlay} + {OnStartUp});
      if p.delay > 0.0 then s1.(status := Delayed)
      else s1.(status := Playing, callbackFlags := s1.callbackFlags + {OnStart}, started := true)
  }

  /** The new status, started flag and the events raised by the transition. */
  datatype Transition = Transition(status: Status, started: bool, raised: CallbackFlags)

  function Resolve(prevStatus: Status, started: bool, prevLoops: int, isCompleted: bool, currentTime: real,
                   currentLoops: int, currentPosition: real): (r: Transition)
    ensures r.status == Completed <==> isCompleted
    ensures r.status == Completed || r.status == RewindCompleted || r.status == WaitingForStart
            || r.status == Delayed || r.status == Playing
    // OnComplete only on entry into Completed
    ensures OnComplete in r.raised <==> isCompleted && prevStatus != Completed
    // OnStart only when leaving Delayed forwards
    ensures OnStart in r.raised <==> !isCompleted && currentTime >= 0.0 && prevStatus == Delayed
    ensures OnStepComplete in r.raised <==>
              !isCompleted && currentTime >= 0.0 && prevLoops < currentLoops && currentLoops > 0
    ensures r.status == Playing <==> !isCompleted && currentTime >= 0.0
    // before the start: a rewind through the first loop, back to waiting, or delayed
    ensures r.status == RewindCompleted <==>
              !isCompleted && currentTime < 0.0 && started && currentLoops <= 0 && prevLoops > currentLoops
    ensures r.status == WaitingForStart <==>
              !isCompleted && currentTime < 0.0 && started && currentLoops <= 0 && prevLoops <= currentLoops
    ensures OnRewind in r.raised <==> r.status == RewindCompleted
    ensures OnUpdate in r.raised <==> !isCompleted && (currentTime >= 0.0 || currentPosition >= 0.0)
    ensures r.raised <= {OnComplete, OnStart, OnStepComplete, OnRewind, OnUpdate}
    ensures r.started == (if r.status == WaitingForStart then false else started || OnStart in r.raised)
  {
    if isCompleted then
      Transition(Completed, started, if prevStatus != Completed then {OnComplete} else {})
    else if currentTime < 0.0 then
      var update: CallbackFlags := if currentPosition >= 0.0 then {OnUpdate} else {};
      if started && currentLoops <= 0 then
        if prevLoops > currentLoops then Transition(RewindCompleted, started, {OnRewind} + update)
        else Transition(WaitingForStart, false, update)
      else Transition(Delayed, started, update)
    else
      var start := prevStatus == Delayed;
      var step: CallbackFlags := if prevLoops < currentLoops && currentLoops > 0 then {OnStepComplete} else {};
      Transition(Playing, started || start, (if start then {OnStart} else {}) + {OnUpdate} + step)
  }

  /** Accessor flags derived from the callback flags (lines 282-289). */
  function AccessorsFor(flags: CallbackFlags): (a: AccessorFlags)
    ensures Getter in a <==> OnStartUp in flags
    ensures Setter in a <==> (OnUpdate in flags || OnComplete in flags || OnRewind in flags)
  {
    SetterMask(flags);
    (if OnStartUp in flags then {Getter} else {})
    + (if flags * {OnUpdate, OnComplete, OnRewind} != {} then {Setter} else {})
  }

  /** The Setter mask test is a test for any of its three events. */
  lemma SetterMask(flags: CallbackFlags)
    ensures flags * {OnUpdate, OnComplete, OnRewind} != {} <==>
            (OnUpdate in flags || OnComplete in flags || OnRewind in flags)
  {
    var mask := flags * {OnUpdate, OnComplete, OnRewind};
    if OnUpdate in flags { assert OnUpdate in mask; }
    if OnComplete in flags { assert OnComplete in mask; }
    if OnRewind in flags { assert OnRewind in mask; }
    if mask != {} {
      var x :| x in mask;
      assert x == OnUpdate || x == OnComplete || x == OnRewind;
    }
  }

  /** The inverted flag for an invert mode (lines 293-304). */
  function InvertedFor(mode: InvertMode, currentTime: real): (b: bool)
    ensures b <==> mode == Immediate || (mode == AfterDelay && currentTime >= 0.0)
  {
    match mode
    case None => false
    case Immediate => true
    case AfterDelay => currentTime >= 0.0
  }

  /** Loop arithmetic, shaping, transition, accessor flags and inversion for a
      record whose status is active (lines 163-304). */
  function Advance(p: Params, s: State, currentPosition: real, catalog: Catalog): (r: State)
    requires Active(s.status)
    ensures r.status != Invalid && r.status != Killed && r.curve == s.curve
    ensures r.position == MaxReal(currentPosition, 0.0) && r.position >= 0.0
    ensures r.completedLoops == ComputeTiming(p.duration, p.loops, currentPosition - p.delay).completedLoops
    ensures r.callbackFlags - s.callbackFlags <= {OnComplete, OnStart, OnStepComplete, OnRewind, OnUpdate}
    ensures s.callbackFlags <= r.callbackFlags
    ensures s.accessorFlags == {} ==> r.accessorFlags == AccessorsFor(r.callbackFlags)
    ensures OnComplete in r.callbackFlags - s.callbackFlags ==> s.status != Completed && r.status == Completed
    ensures OnStart in r.callbackFlags - s.callbackFlags ==> s.status == Delayed && r.started
    ensures OnRewind in r.callbackFlags - s.callbackFlags ==> r.status == RewindCompleted
    ensures r.status == Completed ==> r.progress == TerminalProgress(p, s.curve, catalog)
    ensures r.status == WaitingForStart ==> !r.started && currentPosition < p.delay
    ensures r.status != WaitingForStart ==> (s.started ==> r.started)
    ensures r.inverted == InvertedFor(p.invertMode, currentPosition - p.delay)
  {
    var t := ComputeTiming(p.duration, p.loops, currentPosition - p.delay);
    var tr := Resolve(s.status, s.started, s.completedLoops, t.isCompleted, t.currentTime, t.completedLoops, currentPosition);
    var flags := s.callbackFlags + tr.raised;
    State(
      status := tr.status,
      position := MaxReal(currentPosition, 0.0),
      completedLoops := t.completedLoops,
      progress := Shape(p.loopType, p.ease, s.curve, catalog, t.clampedLoops, t.linear),
      started := tr.started,
      inverted := InvertedFor(p.invertMode, t.currentTime),
      curve := s.curve,
      callbackFlags := flags,
      accessorFlags := s.accessorFlags + AccessorsFor(flags))
  }

  /** Kill: the absorbing transition. The curve is released only if it is
      still allocated; OnKill is added to whatever flags are already raised. */
  function KillState(s: State): (r: State)
    ensures r.status == Killed && r.accessorFlags == {}
    ensures r.callbackFlags == s.callbackFlags + {OnKill}
    ensures !r.curve.isCreated && r.curve.evaluate == s.curve.evaluate
    ensures r == s.(status := Killed, accessorFlags := {}, curve := r.curve, callbackFlags := r.callbackFlags)
  {
    var c := if s.curve.isCreated then s.curve.Dispose() else s.curve;
    s.(status := Killed, accessorFlags := {}, curve := c, callbackFlags := s.callbackFlags + {OnKill})
  }

  /** The evaluation of a live tween that is not being killed: the start of a
      waiting tween (lines 138-154), then, for an active status, the loop
      arithmetic and the transition (lines 161-304). */
  function Proceed(p: Params, s: State, currentPosition: real, catalog: Catalog): (r: State)
    requires s.status != Invalid && s.status != Killed
    requires s.callbackFlags == {} && s.accessorFlags == {}
    ensures r.status != Invalid && r.status != Killed && r.curve == s.curve
    ensures OnKill !in r.callbackFlags
    ensures s.status == WaitingForStart && (!p.autoPlay || currentPosition <= 0.0) ==> r == s
    ensures OnPlay in r.callbackFlags <==> s.status == WaitingForStart && p.autoPlay && currentPosition > 0.0
    ensures OnStartUp in r.callbackFlags <==> OnPlay in r.callbackFlags
    ensures OnComplete in r.callbackFlags ==> s.status != Completed && r.status == Completed
    ensures OnStart in r.callbackFlags ==> (s.status == WaitingForStart || s.status == Delayed) && r.started
    ensures OnRewind in r.callbackFlags ==> r.status == RewindCompleted
    ensures r.accessorFlags == AccessorsFor(r.callbackFlags)
    ensures r.status == Completed ==> r.progress == TerminalProgress(p, s.curve, catalog)
  {
    var s1 := if s.status == WaitingForStart then AutoStart(p, s, currentPosition) else s;
    if Active(s1.status) then Advance(p, s1, currentPosition, catalog) else s1
  }

  /** One evaluation of a tween (UpdateCore). */
  function Step(p: Params, s: State, currentPosition: real, catalog: Catalog): (r: Outcome)
    // Invalid and Killed are absorbing: only the flags are cleared
    ensures s.status == Invalid || s.status == Killed ==> r == Outcome(Cleared(s), false)
    ensures r.state.status == Invalid <==> s.status == Invalid
    // a completed auto-kill tween is killed on the call after the one that completed it,
    // with no progress computed and OnKill as its only event
    ensures r.killRequested <==> s.status == Completed && p.autoKill
    ensures r.killRequested ==> r.state == KillState(Cleared(s)) && r.state.callbackFlags == {OnKill}
    ensures r.state.status == Killed <==> s.status == Killed || r.killRequested
    ensures OnKill in r.state.callbackFlags <==> r.killRequested
    // a waiting tween that does not start is left as it is
    ensures s.status == WaitingForStart && (!p.autoPlay || currentPosition <= 0.0) ==> r == Outcome(Cleared(s), false)
    ensures OnPlay in r.state.callbackFlags <==> s.status == WaitingForStart && p.autoPlay && currentPosition > 0.0
    ensures OnStartUp in r.state.callbackFlags <==> OnPlay in r.state.callbackFlags
    // events that are gated on transitions
    ensures OnComplete in r.state.callbackFlags ==> s.status != Completed && r.state.status == Completed
    ensures OnStart in r.state.callbackFlags ==>
              (s.status == WaitingForStart || s.status == Delayed) && r.state.started
    ensures OnRewind in r.state.callbackFlags ==> r.state.status == RewindCompleted
    // the accessor flags are always those the callback flags call for
    ensures r.state.accessorFlags == AccessorsFor(r.state.callbackFlags)
    // the curve is released by the kill transition only
    ensures r.state.curve == (if r.killRequested && s.curve.isCreated then s.curve.Dispose() else s.curve)
    // a completed tween holds its terminal progress
    ensures r.state.status == Completed ==> r.state.progress == TerminalProgress(p, s.curve, catalog)
  {
    var s0 := Cleared(s);
    match s.status
    case Invalid => Outcome(s0, false)
    case Killed => Outcome(s0, false)
    case Completed =>
      if p.autoKill then Outcome(KillState(s0), true)
      else Outcome(Proceed(p, s0, currentPosition, catalog), false)
    case _ => Outcome(Proceed(p, s0, currentPosition, catalog), false)
  }
}
