/** Laws of a single evaluation, and of two evaluations at the same playhead
    position: when a tween completes, how the playhead time splits into whole
    loops and a fraction, what a re-evaluation raises, and the two-call rewind
    out of the first loop. */
module Laws {
  import opened TweenTypes
  import opened Evaluator

  // ---------------------------------------------------------------------------
  // Loop arithmetic

  /** Dividing by a positive duration preserves the order against a loop
      boundary. */
  lemma DivideByDuration(currentTime: real, duration: real, n: real)
    requires duration > 0.0
    ensures currentTime / duration >= n <==> currentTime >= duration * n
  {

  }

  /** With a positive duration and at least one loop, a tween is complete
      exactly when its playhead time (position minus delay) has reached
      `loops * duration`. */
  lemma CompletionThreshold(duration: real, loops: int, currentTime: real)
    requires duration > 0.0 && loops >= 1
    ensures ComputeTiming(duration, loops, currentTime).isCompleted <==> currentTime >= duration * loops as real
  {
    var n := LoopIndex(currentTime, duration);
    var t := ComputeTiming(duration, loops, currentTime);
    assert t.isCompleted <==> n >= loops;
    assert n >= loops <==> currentTime / duration >= loops as real;
    DivideByDuration(currentTime, duration, loops as real);
  }

  /** The time since the start of loop `n`, in units of the duration, when
      time / duration lies in [n, n + 1). */
  lemma LoopTimeSplit(currentTime: real, duration: real, n: int)
    requires duration > 0.0 && n as real <= currentTime / duration < n as real + 1.0
    ensures 0.0 <= (currentTime - duration * n as real) / duration < 1.0
    ensures currentTime == duration * (n as real + (currentTime - duration * n as real) / duration)
  {
    var q := currentTime / duration;
    assert currentTime == q * duration;
    assert (currentTime - duration * n as real) / duration == q - n as real;
  }

  /** Within loop `n` = floor(time / duration), the linear progress is the
      fractional part of time / duration, which is below one. */
  lemma FractionOfLoop(currentTime: real, duration: real, n: int)
    requires duration > 0.0 && n == LoopIndex(currentTime, duration)
    ensures 0.0 <= LoopFraction(currentTime, duration, n) < 1.0
    ensures currentTime == duration * (n as real + LoopFraction(currentTime, duration, n))
  {
    var x := (currentTime - duration * n as real) / duration;
    assert LoopFraction(currentTime, duration, n) == Clamp01(x);
    LoopTimeSplit(currentTime, duration, n);
  }

  /** With a positive duration, before completion and after the delay, the
      playhead time is whole loops plus a fraction of one: the stored loop
      count needs no clamping and the linear progress is that fraction. */
  lemma LoopDecomposition(duration: real, loops: int, currentTime: real)
    requires duration > 0.0 && currentTime >= 0.0
    requires !ComputeTiming(duration, loops, currentTime).isCompleted
    ensures var t := ComputeTiming(duration, loops, currentTime);
            0 <= t.completedLoops && t.clampedLoops == t.completedLoops
            && 0.0 <= t.linear < 1.0
            && currentTime == duration * (t.completedLoops as real + t.linear)
  {
    var t := ComputeTiming(duration, loops, currentTime);
    var n := LoopIndex(currentTime, duration);
    DivideByDuration(currentTime, duration, 0.0);
    assert 0 <= n;
    assert loops < 0 || n < loops;
    assert t.clampedLoops == n;
    assert t.linear == LoopFraction(currentTime, duration, n);
    FractionOfLoop(currentTime, duration, n);
  }

  // ---------------------------------------------------------------------------
  // Completion

  /** The statuses from which an evaluation runs the loop arithmetic without
      first being killed. */
  predicate Advances(p: Params, status: Status)
  {
    status == Playing || status == Delayed || status == RewindCompleted || (status == Completed && !p.autoKill)
  }

  /** Past the end of the last loop an advancing tween is Completed, holds its
      terminal progress, stores the unclamped loop count, and raises
      OnComplete only if it was not Completed already. */
  lemma CompletesPastEnd(p: Params, s: State, currentPosition: real, catalog: Catalog)
    requires Advances(p, s.status)
    requires p.duration > 0.0 && p.loops >= 1
    requires currentPosition - p.delay >= p.duration * p.loops as real
    ensures var r := Step(p, s, currentPosition, catalog);
            !r.killRequested && r.state.status == Completed
            && r.state.progress == TerminalProgress(p, s.curve, catalog)
            && r.state.completedLoops == LoopIndex(currentPosition - p.delay, p.duration)
            && (OnComplete in r.state.callbackFlags <==> s.status != Completed)
  {
    CompletionThreshold(p.duration, p.loops, currentPosition - p.delay);
  }

  /** Re-evaluating a Completed tween that is not auto-killed, at a position
      that is still past its end, raises nothing and asks for no accessor. */
  lemma CompletedIsQuiet(p: Params, s: State, currentPosition: real, catalog: Catalog)
    requires s.status == Completed && !p.autoKill
    requires ComputeTiming(p.duration, p.loops, currentPosition - p.delay).isCompleted
    ensures var r := Step(p, s, currentPosition, catalog);
            !r.killRequested && r.state.status == Completed
            && r.state.callbackFlags == {} && r.state.accessorFlags == {}
  {

  }

  /** A new tween that plays automatically starts on its first evaluation at
      a positive position. Having no delay, it raises OnPlay, OnStartUp and
      OnStart together and asks for both accessors; it is Completed, with
      OnComplete, exactly when the position has reached the duration of its
      single loop, and Playing, with OnUpdate, before that. */
  lemma FirstEvaluation(duration: real, settings: Settings, currentPosition: real, catalog: Catalog)
    requires settings.defaultAutoPlay && duration > 0.0 && currentPosition > 0.0
    ensures var r := Step(InitialParams(duration, settings), InitialState, currentPosition, catalog);
            var done := currentPosition >= duration;
            !r.killRequested && r.state.started
            && r.state.status == (if done then Completed else Playing)
            && r.state.callbackFlags == {OnPlay, OnStartUp, OnStart} + (if done then {OnComplete} else {OnUpdate})
            && r.state.accessorFlags == {Getter, Setter}
  {
    var p := InitialParams(duration, settings);
    var s1 := AutoStart(p, InitialState, currentPosition);
    assert s1.status == Playing && s1.started && s1.completedLoops == 0;
    assert s1.callbackFlags == {OnPlay, OnStartUp, OnStart};
    CompletionThreshold(duration, 1, currentPosition);
    var t := ComputeTiming(duration, 1, currentPosition);
    if currentPosition < duration {
      DivideByDuration(currentPosition, duration, 0.0);
      DivideByDuration(currentPosition, duration, 1.0);
      assert t.completedLoops == 0;
    }
    var tr := Resolve(Playing, true, 0, t.isCompleted, currentPosition, t.completedLoops, currentPosition);
    assert tr.raised == if t.isCompleted then {OnComplete} else {OnUpdate};
    var r := Advance(p, s1, currentPosition, catalog);
    assert Step(p, InitialState, currentPosition, catalog).state == r;
    assert AccessorsFor(r.callbackFlags) == {Getter, Setter};
  }

  /** A zero-length tween completes only strictly after its delay: at the
      position where the delay ends, a Delayed tween starts playing, raising
      OnStart and OnUpdate, and is not yet Completed. */
  lemma ZeroDurationAtDelayEnd(p: Params, s: State, catalog: Catalog)
    requires p.duration == 0.0 && s.status == Delayed
    ensures var r := Step(p, s, p.delay, catalog);
            !r.killRequested && r.state.status == Playing && r.state.started
            && OnStart in r.state.callbackFlags && OnUpdate in r.state.callbackFlags
            && OnComplete !in r.state.callbackFlags
  {
  }

  // ---------------------------------------------------------------------------
  // Re-evaluation at the same position

  /** The events that mark a transition. */
  const TransitionEvents: CallbackFlags := {OnStart, OnStepComplete, OnComplete, OnRewind}

  /** Evaluating twice at the same position: the second evaluation raises
      none of the transition events, because the first has already moved the
      record to where that position puts it. */
  lemma RepeatRaisesNoTransitionEvent(p: Params, s: State, currentPosition: real, catalog: Catalog)
    ensures var r1 := Step(p, s, currentPosition, catalog).state;
            Step(p, r1, currentPosition, catalog).state.callbackFlags * TransitionEvents == {}
  {
    var r1 := Step(p, s, currentPosition, catalog).state;
    var r2 := Step(p, r1, currentPosition, catalog).state;
    if r1.status == Invalid || r1.status == Killed || (r1.status == Completed && p.autoKill) {
      return;
    }
    var c1 := Cleared(r1);
    var u1 := if c1.status == WaitingForStart then AutoStart(p, c1, currentPosition) else c1;
    assert r2 == if Active(u1.status) then Advance(p, u1, currentPosition, catalog) else u1;
    if !Active(u1.status) {
      return;
    }
    var t := ComputeTiming(p.duration, p.loops, currentPosition - p.delay);
    RepeatSecondCall(p, s, r1, u1, currentPosition, catalog, t);
    var tr := Resolve(u1.status, u1.started, u1.completedLoops, t.isCompleted, t.currentTime, t.completedLoops, currentPosition);
    assert r2.callbackFlags == u1.callbackFlags + tr.raised;
  }

  /** The second of two evaluations at one position: the record it starts
      from already holds that position's loop count, a Completed status if the
      position completes, and a started flag consistent with its status. */
  lemma RepeatSecondCall(p: Params, s: State, r1: State, u1: State, currentPosition: real,
                         catalog: Catalog, t: Timing)
    requires r1 == Step(p, s, currentPosition, catalog).state
    requires r1.status != Invalid && r1.status != Killed && !(r1.status == Completed && p.autoKill)
    requires u1 == (if r1.status == WaitingForStart then AutoStart(p, Cleared(r1), currentPosition) else Cleared(r1))
    requires Active(u1.status)
    requires t == ComputeTiming(p.duration, p.loops, currentPosition - p.delay)
    ensures u1.callbackFlags * TransitionEvents == {}
    ensures var tr := Resolve(u1.status, u1.started, u1.completedLoops, t.isCompleted, t.currentTime,
                              t.completedLoops, currentPosition);
            tr.raised * TransitionEvents == {}
  {
    var c0 := Cleared(s);
    var v := if c0.status == WaitingForStart then AutoStart(p, c0, currentPosition) else c0;
    if r1.status == WaitingForStart {
      // the first evaluation either left a waiting record alone or rewound a
      // started one; either way the second start, if any, goes through Delayed
      assert !(p.autoPlay && currentPosition > 0.0 && p.delay <= 0.0);
      assert u1.status == Delayed ==> !u1.started;
    } else {
      assert s.status != Invalid && s.status != Killed && !(s.status == Completed && p.autoKill);
      assert Active(v.status);
      assert r1 == Advance(p, v, currentPosition, catalog);
      assert u1.completedLoops == t.completedLoops;
      assert u1.status == Completed <==> t.isCompleted;
      assert u1.status == Delayed ==> !(u1.started && t.completedLoops <= 0) && t.currentTime < 0.0;
    }
  }

  // ---------------------------------------------------------------------------
  // Rewind out of the first loop

  /** Moving a started tween back before its delay has elapsed takes two
      evaluations: the first goes to RewindCompleted and raises OnRewind, the
      second, at the same position, goes back to WaitingForStart and clears
      the started flag. OnUpdate is raised only at non-negative positions. */
  lemma RewindThenWait(p: Params, s: State, currentPosition: real, catalog: Catalog)
    requires Advances(p, s.status)
    requires s.started && s.completedLoops >= 0
    requires p.duration > 0.0 && p.loops != 0
    requires currentPosition < p.delay
    ensures var r1 := Step(p, s, currentPosition, catalog).state;
            r1.status == RewindCompleted && r1.started
            && r1.callbackFlags * TransitionEvents == {OnRewind}
            && (OnUpdate in r1.callbackFlags <==> currentPosition >= 0.0)
            && var r2 := Step(p, r1, currentPosition, catalog).state;
               r2.status == WaitingForStart && !r2.started
               && r2.callbackFlags * TransitionEvents == {}
               && (OnUpdate in r2.callbackFlags <==> currentPosition >= 0.0)
  {
    var currentTime := currentPosition - p.delay;
    var n := LoopIndex(currentTime, p.duration);
    DivideByDuration(currentTime, p.duration, 0.0);
    assert n < 0;
    var t := ComputeTiming(p.duration, p.loops, currentTime);
    assert !t.isCompleted;
    var r1 := Step(p, s, currentPosition, catalog).state;
    assert r1 == Advance(p, Cleared(s), currentPosition, catalog);
    var tr1 := Resolve(s.status, s.started, s.completedLoops, false, currentTime, n, currentPosition);
    assert r1.status == RewindCompleted && r1.completedLoops == n;
    assert r1.callbackFlags == tr1.raised;
    var r2 := Step(p, r1, currentPosition, catalog).state;
    assert r2 == Advance(p, Cleared(r1), currentPosition, catalog);
    var tr2 := Resolve(RewindCompleted, true, n, false, currentTime, n, currentPosition);
    assert r2.callbackFlags == tr2.raised;
  }
}
