/** The pipeline deriver: it receives one event at a time, makes at most one
    call into the derivation pipeline, and emits at most one event. */
module Deriver {
  import opened Nullable
  import opened Errors
  import opened Events

  /** What `DerivationPipeline.Step` returns: a possibly nil attributes
      pointer and a possibly nil error. */
  datatype StepOutcome = StepOutcome(attrib: Option<Attributes>, err: Option<Error>)

  /** The calls the deriver makes into the pipeline. */
  datatype PipelineCall = StepCall(pendingSafe: L2BlockRef) | ResetCall | ConfirmEngineResetCall

  /** The event the deriver emits for the result of one step: the first test
      that holds in the order io.EOF (by identity), EngineELSyncing, ErrReset,
      ErrTemporary, ErrCritical, NotEnoughData (each through the wrap chain),
      then any other error, then success with or without attributes. */
  function Classify(attrib: Option<Attributes>, err: Option<Error>): (ev: Event) {
    if err.Some? && IsIdentical(err.value, EOF) then DeriverIdle
    else if err.Some? && Is(err.value, EngineELSyncing) then DeriverIdle
    else if err.Some? && Is(err.value, ErrReset) then Reset(err)
    else if err.Some? && Is(err.value, ErrTemporary) then EngineTemporaryError(err)
    else if err.Some? && Is(err.value, ErrCritical) then CriticalError(err)
    else if err.Some? && Is(err.value, NotEnoughData) then DeriverMore
    else if err.Some? then EngineTemporaryError(err)
    else if attrib.Some? then DerivedAttributes(attrib.value)
    else DeriverMore
  }

  /** The error the deriver logs at error level for the result of one step:
      the error itself when it reaches the fallback branch, else nothing. */
  function UnexpectedError(err: Option<Error>): (logged: seq<Error>) {
    if err.Some? && !IsIdentical(err.value, EOF) && !Is(err.value, EngineELSyncing)
       && !Is(err.value, ErrReset) && !Is(err.value, ErrTemporary)
       && !Is(err.value, ErrCritical) && !Is(err.value, NotEnoughData)
    then [err.value]
    else []
  }

  /** Everything observable that handling events does: the calls into the
      pipeline, the events emitted, the errors logged as unexpected. */
  datatype Reaction = Reaction(calls: seq<PipelineCall>, emitted: seq<Event>, errorLog: seq<Error>)

  /** Handling one event, where `outcome` is what `Step` returns if the event
      makes the deriver call it. */
  function React(ev: Event, outcome: StepOutcome): (r: Reaction) {
    match ev
    case Reset(_) => Reaction([ResetCall], [], [])
    case PipelineStep(pendingSafe) =>
      Reaction([StepCall(pendingSafe)], [Classify(outcome.attrib, outcome.err)], UnexpectedError(outcome.err))
    case ConfirmPipelineReset => Reaction([ConfirmEngineResetCall], [], [])
    case _ => Reaction([], [], [])
  }

  /** The derivation pipeline as the deriver sees it: an opaque collaborator.
      It records the calls made into it and the errors logged through its
      logger; what `Step` returns is handed in by the caller. */
  class DerivationPipeline {
    ghost var calls: seq<PipelineCall>
    ghost var errorLog: seq<Error>

    constructor ()
      ensures calls == [] && errorLog == []
    {
      calls := [];
      errorLog := [];
    }

    method Reset()
      modifies this
      ensures calls == old(calls) + [ResetCall] && errorLog == old(errorLog)
    {
      calls := calls + [ResetCall];
    }

    method ConfirmEngineReset()
      modifies this
      ensures calls == old(calls) + [ConfirmEngineResetCall] && errorLog == old(errorLog)
    {
      calls := calls + [ConfirmEngineResetCall];
    }

    method Step(pendingSafe: L2BlockRef, outcome: StepOutcome) returns (attrib: Option<Attributes>, err: Option<Error>)
      modifies this
      ensures attrib == outcome.attrib && err == outcome.err
      ensures calls == old(calls) + [StepCall(pendingSafe)] && errorLog == old(errorLog)
    {
      calls := calls + [StepCall(pendingSafe)];
      attrib, err := outcome.attrib, outcome.err;
    }

    /** `log.Error("Derivation process error", "err", err)`. */
    method LogError(e: Error)
      modifies this
      ensures errorLog == old(errorLog) + [e] && calls == old(calls)
    {
      errorLog := errorLog + [e];
    }
  }

  /** An event emitter that keeps every event emitted into it, in order. */
  class Emitter {
    var emitted: seq<Event>

    constructor ()
      ensures emitted == []
    {
      emitted := [];
    }

    method Emit(ev: Event)
      modifies this
      ensures emitted == old(emitted) + [ev]
    {
      emitted := emitted + [ev];
    }
  }

  class PipelineDeriver {
    const pipeline: DerivationPipeline
    const emitter: Emitter

    constructor (pipeline: DerivationPipeline, emitter: Emitter)
      ensures this.pipeline == pipeline && this.emitter == emitter
    {
      this.pipeline := pipeline;
      this.emitter := emitter;
    }

    /** Handles one event. Every call into the pipeline, every emitted event
        and every error logged is the one `React` prescribes, and nothing
        else changes. */
    method OnEvent(ev: Event, outcome: StepOutcome)
      modifies pipeline, emitter
      ensures pipeline.calls == old(pipeline.calls) + React(ev, outcome).calls
      ensures emitter.emitted == old(emitter.emitted) + React(ev, outcome).emitted
      ensures pipeline.errorLog == old(pipeline.errorLog) + React(ev, outcome).errorLog
    {
      match ev
      case Reset(_) =>
        pipeline.Reset();
      case PipelineStep(pendingSafe) =>
        var attrib, err := pipeline.Step(pendingSafe, outcome);
        if err.Some? && IsIdentical(err.value, EOF) {
          emitter.Emit(DeriverIdle);
        } else if err.Some? && Is(err.value, EngineELSyncing) {
          emitter.Emit(DeriverIdle);
        } else if err.Some? && Is(err.value, ErrReset) {
          emitter.Emit(Reset(err));
        } else if err.Some? && Is(err.value, ErrTemporary) {
          emitter.Emit(EngineTemporaryError(err));
        } else if err.Some? && Is(err.value, ErrCritical) {
          emitter.Emit(CriticalError(err));
        } else if err.Some? && Is(err.value, NotEnoughData) {
          // no backoff for this error
          emitter.Emit(DeriverMore);
        } else if err.Some? {
          pipeline.LogError(err.value);
          emitter.Emit(EngineTemporaryError(err));
        } else if attrib.Some? {
          emitter.Emit(DerivedAttributes(attrib.value));
        } else {
          emitter.Emit(DeriverMore);
        }
      case ConfirmPipelineReset =>
        pipeline.ConfirmEngineReset();
      case _ =>
    }
  }
}
