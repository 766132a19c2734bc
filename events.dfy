/** The events the pipeline deriver receives and emits. In the source every
    event is a value of the `rollup.Event` interface; here they are the cases
    of one closed datatype, plus `Foreign` for the events of other components,
    which the deriver ignores. */
module Events {
  import opened Nullable
  import opened Errors

  /** A reference to derived payload attributes (`*AttributesWithParent`),
      passed through without being looked into; `ref` stands for the pointer. */
  datatype Attributes = Attributes(ref: nat)

  /** The pending safe L2 block (`eth.L2BlockRef`), passed through to the
      pipeline without being looked into. */
  datatype L2BlockRef = L2BlockRef(ref: nat)

  datatype Event =
    | DeriverIdle                                   // DeriverIdleEvent
    | DeriverMore                                   // DeriverMoreEvent
    | ConfirmPipelineReset                          // ConfirmPipelineResetEvent
    | DerivedAttributes(attributes: Attributes)     // DerivedAttributesEvent
    | PipelineStep(pendingSafe: L2BlockRef)         // PipelineStepEvent
    | Reset(err: Option<Error>)                     // rollup.ResetEvent
    | EngineTemporaryError(err: Option<Error>)      // rollup.EngineTemporaryErrorEvent
    | CriticalError(err: Option<Error>)             // rollup.CriticalErrorEvent
    | Foreign(name: string)                         // any other rollup.Event

  /** The `String()` name of the event types the derive package declares;
      the rollup package's events are named there, so they have None here. */
  function Name(ev: Event): (name: Option<string>) {
    match ev
    case DeriverIdle => Some("derivation-idle")
    case DeriverMore => Some("deriver-more")
    case ConfirmPipelineReset => Some("confirm-pipeline-reset")
    case DerivedAttributes(_) => Some("derived-attributes")
    case PipelineStep(_) => Some("pipeline-step")
    case _ => None
  }

  /** The events the derive package declares. */
  predicate DeclaredHere(ev: Event) {
    ev.DeriverIdle? || ev.DeriverMore? || ev.ConfirmPipelineReset? || ev.DerivedAttributes? || ev.PipelineStep?
  }

  /** Two events of the same type: of the same case, whatever they carry. */
  predicate SameType(a: Event, b: Event) {
    && (a.DeriverIdle? <==> b.DeriverIdle?)
    && (a.DeriverMore? <==> b.DeriverMore?)
    && (a.ConfirmPipelineReset? <==> b.ConfirmPipelineReset?)
    && (a.DerivedAttributes? <==> b.DerivedAttributes?)
    && (a.PipelineStep? <==> b.PipelineStep?)
  }

  /** Every declared event type has a name, and the name tells the type apart
      from every other declared type, independently of the payload. */
  lemma NameIdentifiesType(a: Event, b: Event)
    ensures Name(a).Some? <==> DeclaredHere(a)
    ensures DeclaredHere(a) && DeclaredHere(b) ==> (Name(a) == Name(b) <==> SameType(a, b))
  {
  }

  /** What the deriver may emit: idle, more, attributes, or one of the three
      error events, always carrying a cause. */
  predicate IsDeriverOutput(ev: Event) {
    || ev.DeriverIdle? || ev.DeriverMore? || ev.DerivedAttributes?
    || (ev.Reset? && ev.err.Some?)
    || (ev.EngineTemporaryError? && ev.err.Some?)
    || (ev.CriticalError? && ev.err.Some?)
  }
}
