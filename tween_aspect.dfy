/** The tween record as the engine holds it: an object whose fields the
    evaluation updates in place, and the queue killed tweens are appended to.
    Each method is proved to perform one step of `Evaluator`. */
module Aspect {
  import opened TweenTypes
  import Evaluator

  /** The kill queue: evaluations only ever append to it; it is drained by a
      later, sequential pass. */
  class KillQueue {
    var items: seq<Entity>

    constructor ()
      ensures items == []
    {
      items := [];
    }

    method Enqueue(e: Entity)
      modifies this
      ensures items == old(items) + [e]
    {
      items := items + [e];
    }
  }

  /** One tween's record. The parameters are written by the configuration
      layer; the evaluation only reads them. */
  class TweenAspect {
    const entity: Entity

    var status: Status
    var position: real
    var completedLoops: int
    var progress: real
    var started: bool
    var inverted: bool

    const duration: real
    const delay: real
    const loops: int
    const loopType: LoopType
    const playbackSpeed: real
    const ease: Ease
    var customEasingCurve: NativeCurve
    const autoPlay: bool
    const autoKill: bool
    const ignoreTimeScale: bool
    const isRelative: bool
    const invertMode: InvertMode

    var callbackFlags: CallbackFlags
    var accessorFlags: AccessorFlags

    /** How many times the custom curve has been released. */
    ghost var curveReleases: nat

    /** The custom curve is released at most once, and an allocated curve has
        never been released. */
    ghost predicate Valid()
      reads this
    {
      curveReleases <= 1 && (customEasingCurve.isCreated ==> curveReleases == 0)
    }

    /** The parameters, as a value. */
    function Config(): Evaluator.Params
    {
      Evaluator.Params(duration, delay, loops, loopType, playbackSpeed, ease,
                       autoPlay, autoKill, ignoreTimeScale, isRelative, invertMode)
    }

    /** The fields an evaluation writes, as a value. */
    function Record(): Evaluator.State
      reads this
    {
      Evaluator.State(status, position, completedLoops, progress, started, inverted,
                      customEasingCurve, callbackFlags, accessorFlags)
    }

    /** A record with the given parameters and custom curve, in the state a
        new tween starts in. `Evaluator.InitialParams` gives the parameters
        the tween factory seeds, and `NoCurve` is the curve it seeds; a custom
        curve is installed by the configuration layer. */
    constructor (entity: Entity, config: Evaluator.Params, curve: NativeCurve)
      ensures this.entity == entity && Valid()
      ensures Config() == config
      ensures Record() == Evaluator.InitialState.(curve := curve)
      ensures curveReleases == 0
    {
      this.entity := entity;
      status := WaitingForStart;
      position := 0.0;
      completedLoops := 0;
      progress := 0.0;
      started := false;
      inverted := false;
      duration := config.duration;
      delay := config.delay;
      loops := config.loops;
      loopType := config.loopType;
      playbackSpeed := config.playbackSpeed;
      ease := config.ease;
      customEasingCurve := curve;
      autoPlay := config.autoPlay;
      autoKill := config.autoKill;
      ignoreTimeScale := config.ignoreTimeScale;
      isRelative := config.isRelative;
      invertMode := config.invertMode;
      callbackFlags := {};
      accessorFlags := {};
      curveReleases := 0;
    }

    /** Kill: status Killed, no accessor work, the curve released if it is
        still allocated, OnKill raised, and the entity appended to the queue. */
    method Kill(queue: KillQueue)
      requires Valid()
      modifies this, queue
      ensures Valid()
      ensures Record() == Evaluator.KillState(old(Record()))
      ensures queue.items == old(queue.items) + [entity]
      ensures curveReleases == old(curveReleases) + (if old(customEasingCurve.isCreated) then 1 else 0)
    {
      status := Killed;
      accessorFlags := {};
      if customEasingCurve.isCreated {
        customEasingCurve := customEasingCurve.Dispose();
        curveReleases := curveReleases + 1;
      }
      callbackFlags := callbackFlags + {OnKill};
      queue.Enqueue(entity);
    }

    /** One evaluation at the frame's playhead position: the record becomes the
        one `Evaluator.Step` computes, and the entity is appended to the queue
        exactly when that step asks for the kill. */
    method Update(currentPosition: real, catalog: Catalog, queue: KillQueue)
      requires Valid()
      modifies this, queue
      ensures Valid()
      ensures Record() == Evaluator.Step(Config(), old(Record()), currentPosition, catalog).state
      ensures queue.items == old(queue.items)
                + (if Evaluator.Step(Config(), old(Record()), currentPosition, catalog).killRequested
                   then [entity] else [])
      ensures curveReleases == old(curveReleases)
                + (if old(status) == Completed && autoKill && old(customEasingCurve.isCreated) then 1 else 0)
    {
      callbackFlags := {};
      accessorFlags := {};

      match status {
        case Invalid => return;
        case Killed => return;
        case Completed =>
          if autoKill {
            Kill(queue);
            return;
          }
        case _ =>
      }
      Proceed(currentPosition, catalog);
    }

    /** The evaluation of a live tween that is not being killed: the start of
        a waiting tween, then, if the status is active, the loop arithmetic
        and the transition (lines 138-154 and 161-304). */
    method Proceed(currentPosition: real, catalog: Catalog)
      requires status != Invalid && status != Killed
      requires callbackFlags == {} && accessorFlags == {}
      modifies this`position, this`completedLoops, this`progress, this`status, this`started,
               this`callbackFlags, this`accessorFlags, this`inverted
      ensures Record() == Evaluator.Proceed(Config(), old(Record()), currentPosition, catalog)
    {
      if status == WaitingForStart {
        StartIfDue(currentPosition);
      }
      if !(status == Playing || status == Delayed || status == RewindCompleted || status == Completed) {
        return;
      }
      AdvanceActive(currentPosition, catalog);
    }

    /** The start of a waiting tween (lines 138-154): on the first strictly
        positive position, if it plays automatically, OnPlay and OnStartUp are
        raised and it moves to Delayed, or straight to Playing with OnStart. */
    method StartIfDue(currentPosition: real)
      requires status == WaitingForStart
      modifies this`status, this`started, this`callbackFlags
      ensures Record() == Evaluator.AutoStart(Config(), old(Record()), currentPosition)
    {
      if autoPlay && currentPosition > 0.0 {
        callbackFlags := callbackFlags + {OnPlay};
        callbackFlags := callbackFlags + {OnStartUp};
        if delay > 0.0 {
          status := Delayed;
        } else {
          status := Playing;
          callbackFlags := callbackFlags + {OnStart};
          started := true;
        }
      }
    }

    /** Loop arithmetic, shaping, transition, accessor flags and inversion of an
        evaluation whose status is active (lines 163-304). */
    method AdvanceActive(currentPosition: real, catalog: Catalog)
      requires Evaluator.Active(status)
      modifies this`position, this`completedLoops, this`progress, this`status, this`started,
               this`callbackFlags, this`accessorFlags, this`inverted
      ensures Record() == Evaluator.Advance(Config(), old(Record()), currentPosition, catalog)
    {
      ghost var s := Record();
      // loop arithmetic
      var currentTime := currentPosition - delay;
      var prevCompletedLoops := completedLoops;
      var currentCompletedLoops, clampedCompletedLoops, currentProgress, isCompleted := LoopArithmetic(currentTime);

      position := Evaluator.MaxReal(currentPosition, 0.0);
      completedLoops := currentCompletedLoops;

      // loop shaping
      progress := ShapedProgress(clampedCompletedLoops, currentProgress, catalog);

      // status and callback flags
      ResolveStatus(isCompleted, currentTime, currentPosition, prevCompletedLoops, currentCompletedLoops);

      // accessor flags
      var accessors := AccessorsRequested();
      accessorFlags := accessorFlags + accessors;

      // start and end values
      inverted := InvertedFlag(currentTime);

      ghost var t := Evaluator.ComputeTiming(duration, loops, currentTime);
      ghost var tr := Evaluator.Resolve(s.status, s.started, s.completedLoops, t.isCompleted, currentTime,
                                        t.completedLoops, currentPosition);
      assert Record() == Evaluator.State(tr.status, Evaluator.MaxReal(currentPosition, 0.0), t.completedLoops,
                                         Evaluator.Shape(loopType, ease, s.curve, catalog, t.clampedLoops, t.linear),
                                         tr.started, Evaluator.InvertedFor(invertMode, currentTime), s.curve,
                                         s.callbackFlags + tr.raised, s.accessorFlags + Evaluator.AccessorsFor(s.callbackFlags + tr.raised));
    }

    /** The loop counts, the linear progress and the completion test of the
        playhead time `currentTime` (lines 165-210). */
    method LoopArithmetic(currentTime: real)
      returns (currentCompletedLoops: int, clampedCompletedLoops: int, currentProgress: real, isCompleted: bool)
      ensures Evaluator.Timing(currentTime, currentCompletedLoops, clampedCompletedLoops, currentProgress, isCompleted)
              == Evaluator.ComputeTiming(duration, loops, currentTime)
    {
      var loops := this.loops;
      var duration := this.duration;

      if duration == 0.0 {
        isCompleted := currentTime > 0.0;
        if isCompleted {
          currentProgress := 1.0;
          currentCompletedLoops := loops;
        } else {
          currentProgress := 0.0;
          currentCompletedLoops := if currentTime < 0.0 then -1 else 0;
        }
        clampedCompletedLoops := Evaluator.ClampLoops(currentCompletedLoops, loops);
      } else {
        currentCompletedLoops := Evaluator.LoopIndex(currentTime, duration);
        clampedCompletedLoops := Evaluator.ClampLoops(currentCompletedLoops, loops);
        isCompleted := loops >= 0 && clampedCompletedLoops > loops - 1;
        if isCompleted {
          currentProgress := 1.0;
        } else {
          currentProgress := Evaluator.LoopFraction(currentTime, duration, clampedCompletedLoops);
        }
      }
    }

    /** The eased, loop-shaped progress (lines 217-229). */
    method ShapedProgress(clampedCompletedLoops: int, currentProgress: real, catalog: Catalog)
      returns (progress: real)
      ensures progress == Evaluator.Shape(loopType, ease, customEasingCurve, catalog,
                                          clampedCompletedLoops, currentProgress)
    {
      match loopType {
        case Restart =>
          progress := Evaluator.EasedValue(ease, customEasingCurve, catalog, currentProgress);
        case Yoyo =>
          progress := Evaluator.EasedValue(ease, customEasingCurve, catalog, currentProgress);
          if (clampedCompletedLoops + Evaluator.Trunc(currentProgress)) % 2 == 1 {
            progress := 1.0 - progress;
          }
        case Incremental =>
          progress := Evaluator.Increment(Evaluator.EasedValue(ease, customEasingCurve, catalog, 1.0), clampedCompletedLoops)
                      + Evaluator.EasedValue(ease, customEasingCurve, catalog, Evaluator.FMod1(currentProgress));
      }
    }

    /** The inverted flag for the invert mode (lines 293-304). */
    method InvertedFlag(currentTime: real) returns (inverted: bool)
      ensures inverted == Evaluator.InvertedFor(invertMode, currentTime)
    {
      match invertMode {
        case None => inverted := false;
        case Immediate => inverted := true;
        case AfterDelay => inverted := currentTime >= 0.0;
      }
    }

    /** The accessor flags the raised callbacks call for (lines 282-289). */
    method AccessorsRequested() returns (accessorFlags: AccessorFlags)
      ensures accessorFlags == Evaluator.AccessorsFor(callbackFlags)
    {
      accessorFlags := {};
      if OnStartUp in callbackFlags {
        accessorFlags := accessorFlags + {Getter};
      }
      if callbackFlags * {OnUpdate, OnComplete, OnRewind} != {} {
        accessorFlags := accessorFlags + {Setter};
      }
    }

    /** The new status and the events of the transition (lines 233-278). */
    method ResolveStatus(isCompleted: bool, currentTime: real, currentPosition: real,
                         prevCompletedLoops: int, currentCompletedLoops: int)
      modifies this`status, this`started, this`callbackFlags
      ensures var tr := Evaluator.Resolve(old(status), old(started), prevCompletedLoops, isCompleted,
                                          currentTime, currentCompletedLoops, currentPosition);
              status == tr.status && started == tr.started && callbackFlags == old(callbackFlags) + tr.raised
    {
      if isCompleted {
        if status != Completed {
          callbackFlags := callbackFlags + {OnComplete};
        }
        status := Completed;
      } else {
        if currentTime < 0.0 {
          if started && currentCompletedLoops <= 0 {
            if prevCompletedLoops > currentCompletedLoops {
              callbackFlags := callbackFlags + {OnRewind};
              status := RewindCompleted;
            } else {
              started := false;
              status := WaitingForStart;
            }
          } else {
            status := Delayed;
          }
          if currentPosition >= 0.0 {
            callbackFlags := callbackFlags + {OnUpdate};
          }
        } else {
          if status == Delayed {
            callbackFlags := callbackFlags + {OnStart};
            started := true;
          }
          status := Playing;
          callbackFlags := callbackFlags + {OnUpdate};
          if prevCompletedLoops < currentCompletedLoops && currentCompletedLoops > 0 {
            callbackFlags := callbackFlags + {OnStepComplete};
          }
        }
      }
    }
  }
}
