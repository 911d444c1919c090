/** The value types one tween record is made of: its lifecycle status, its
    configuration enums, the event and accessor flags the evaluator raises, the
    entity handle that identifies it and the custom easing curve it may own. */
module TweenTypes {

  /** Lifecycle of a tween. `Invalid` and `Killed` are absorbing. */
  datatype Status =
    | Invalid
    | WaitingForStart
    | Delayed
    | Playing
    | Completed
    | RewindCompleted
    | Killed

  /** How successive loops are shaped. */
  datatype LoopType = Restart | Yoyo | Incremental

  /** When the start and end values are swapped. */
  datatype InvertMode = None | Immediate | AfterDelay

  /** The easing selector: one entry of the fixed easing catalog, or the
      user-supplied curve. */
  datatype Ease = Preset(kind: nat) | Custom

  /** One bit of the callback bitmask; a bitmask is a set of these. */
  datatype Callback =
    | OnPlay
    | OnStartUp
    | OnStart
    | OnUpdate
    | OnStepComplete
    | OnComplete
    | OnRewind
    | OnKill

  type CallbackFlags = set<Callback>

  /** One bit of the accessor bitmask: re-read the bound property (Getter)
      and/or write the computed value back (Setter). */
  datatype Accessor = Getter | Setter

  type AccessorFlags = set<Accessor>

  /** The stable handle of a tween (index plus generation). */
  datatype Entity = Entity(index: int, version: int)

  /** The closed-form easing catalog, evaluated as catalog(kind, t). Its
      definition is not part of this model. */
  type Catalog = (nat, real) -> real

  /** A custom easing curve: a native buffer that is either allocated or not,
      and the curve it describes. */
  datatype NativeCurve = NativeCurve(isCreated: bool, evaluate: real -> real)
  {
    /** Releasing the native buffer; only an allocated buffer may be released. */
    function Dispose(): (c: NativeCurve)
      requires isCreated
      ensures !c.isCreated && c.evaluate == evaluate
    {
      this.(isCreated := false)
    }
  }

  /** No custom curve allocated. */
  const NoCurve := NativeCurve(false, _ => 0.0)

  /** The process-wide defaults a new tween is seeded with. */
  datatype Settings = Settings(
    defaultAutoPlay: bool,
    defaultAutoKill: bool,
    defaultIgnoreTimeScale: bool,
    defaultEase: Ease,
    defaultLoopType: LoopType)
}
