# Pipeline deriver of the op-node derivation pipeline

This project models `PipelineDeriver` from `op-node/rollup/derive/deriver.go`. It is the
event-driven controller in front of the derivation pipeline. It receives one event at a time:

- a reset event: it resets the pipeline;
- a confirm-pipeline-reset event: it confirms the engine reset to the pipeline;
- a pipeline-step event: it runs one pipeline step and turns the result into one outbound event.

Any other event is ignored.

Files and modules:

- `nullable.dfy` (`Nullable`): `Option`, standing for Go's nil-able pointers and interface values.
- `errors.dfy` (`Errors`): error values as an identity plus the set of sentinel errors their wrap
  chain reaches. `errors.Is` is `Is` (identity or membership). `err == io.EOF` is `IsIdentical`
  (identity only). The precedence order of the sentinels is `Precedence`. `FirstMatch` and `Kind`
  give an independent, table-style reading of the classification.
- `events.dfy` (`Events`): every event as one closed datatype, and the `String()` names of the
  event types declared in this package.
- `deriver.dfy` (`Deriver`):
  - `Classify` is the pure classification of a step result `(attrib, err)`.
  - `React` is everything one event does: the pipeline calls, the emitted events and the errors
    logged as unexpected.
  - The classes `DerivationPipeline`, `Emitter` and `PipelineDeriver`. `PipelineDeriver.OnEvent` is
    the source's if/else chain written imperatively and proved against `React`.
- `properties.dfy` (`DeriverProperties`): the properties of the classification and of the reset
  handshake. `Replay` handles a whole script of events one after another.

The pipeline is an opaque collaborator. What its `Step` returns is handed to `OnEvent` as the
parameter `outcome`. `DerivationPipeline` records, in ghost fields, the calls made into it and the
errors logged through its logger. The emitter records every event emitted into it.

Three consequences of the code are worth knowing:

- Exhaustion is tested by identity with `io.EOF`. A wrapped `io.EOF` is therefore not idle. It
  falls through to the fallback and is logged and emitted as a temporary error, unless it also
  wraps a later sentinel, which then decides (`WrappedEofIsNotIdle`, `ClassifyFollowsKind`).
- Error categories are not mutually exclusive: one error may wrap several sentinels. The first
  match in the fixed order wins (`ResetTakesPrecedenceOverCritical`, `KindIsHighestPrecedenceMatch`).
- A step event that arrives between a reset and its confirmation is handled like any other. The
  deriver keeps no state that could tell the two cases apart.

## Model

| member | source | states |
|---|---|---|
| Errors.Wrap | op-node/rollup/derive/deriver.go:73-82 | a wrapping error reaches, through `errors.Is`, exactly the sentinels its cause reaches, and is identical to none of them |
| Errors.Rank | op-node/rollup/derive/deriver.go:70-85 | every sentinel has one place in the fixed order io.EOF, EngineELSyncing, ErrReset, ErrTemporary, ErrCritical, NotEnoughData |
| Errors.FirstMatch | op-node/rollup/derive/deriver.go:70-87 | the result is the position of a sentinel the error matches with no earlier sentinel matching, or none when no sentinel matches |
| Errors.KindIsHighestPrecedenceMatch | op-node/rollup/derive/deriver.go:70-87 | an error is in a sentinel's category if and only if it matches that sentinel and no sentinel earlier in the order |
| Errors.UnclassifiedIffNoMatch | op-node/rollup/derive/deriver.go:85-87 | an error is unclassified if and only if it matches none of the six sentinel tests |
| Events.NameIdentifiesType | op-node/rollup/derive/deriver.go:12-45 | each event type declared in the package has a constant name that tells it apart from the other declared types, whatever the payload |
| Deriver.PipelineDeriver.constructor | op-node/rollup/derive/deriver.go:55-61 | the deriver is bound to the given pipeline and emitter |
| Deriver.PipelineDeriver.OnEvent | op-node/rollup/derive/deriver.go:63-98 | the pipeline calls, emitted events and logged errors are exactly those `React` prescribes, appended to what was there; nothing else changes |
| DeriverProperties.StepEmitsExactlyOne | op-node/rollup/derive/deriver.go:67-94 | a step event calls `Step` once with the pending safe block and emits exactly one event, one the deriver may emit, whatever the step returns |
| DeriverProperties.ResetAndConfirmEmitNothing | op-node/rollup/derive/deriver.go:64-97 | a reset only calls `Reset`, a confirm only calls `ConfirmEngineReset`, any other non-step event does nothing; an event is emitted if and only if the event was a step |
| DeriverProperties.SuccessYieldsAttributesOrMore | op-node/rollup/derive/deriver.go:88-93 | with no error, attributes are emitted if and only if present, the same attributes; otherwise the deriver asks for more |
| DeriverProperties.ErrorNeverYieldsAttributes | op-node/rollup/derive/deriver.go:70-93 | with an error, attributes are never emitted and do not influence the emitted event |
| DeriverProperties.IdleIffEofOrSyncing | op-node/rollup/derive/deriver.go:70-75 | the deriver goes idle if and only if the error is io.EOF itself or wraps EngineELSyncing |
| DeriverProperties.WrappedEofIsNotIdle | op-node/rollup/derive/deriver.go:70-87 | an error that wraps io.EOF and nothing else satisfies `errors.Is` for io.EOF, yet yields the fallback temporary error and is logged as unexpected |
| DeriverProperties.ErrorEventsCarryCause | op-node/rollup/derive/deriver.go:76-87 | reset, temporary and critical events carry the step's error unchanged |
| DeriverProperties.ResetTakesPrecedenceOverCritical | op-node/rollup/derive/deriver.go:76-81 | an error wrapping ErrReset never yields a critical error, only idle or a reset event carrying it; if it also wraps ErrCritical and is neither io.EOF nor wraps EngineELSyncing, it yields the reset event |
| DeriverProperties.NotEnoughDataYieldsMore | op-node/rollup/derive/deriver.go:82-84 | an error in the not-enough-data category yields a more event, never a temporary error, and is not logged |
| DeriverProperties.UnknownErrorIsTemporary | op-node/rollup/derive/deriver.go:85-87 | an error matching no sentinel yields a temporary error carrying it and is logged as unexpected |
| DeriverProperties.LoggedIffUnclassified | op-node/rollup/derive/deriver.go:85-87 | an error is logged at error level if and only if it matches no sentinel |
| DeriverProperties.ClassifyFollowsKind | op-node/rollup/derive/deriver.go:70-93 | the if/else chain agrees, for every error, with the table from error category to event |
| DeriverProperties.OneEmitPerStep | op-node/rollup/derive/deriver.go:67-94 | over any sequence of events, the number of emitted events equals the number of step events, and the number of pipeline calls equals the number of step, reset and confirm events |
| DeriverProperties.StarvedStepsNeverBackOff | op-node/rollup/derive/deriver.go:82-84 | any number of not-enough-data steps in a row each yield a more event, and none is logged |
| DeriverProperties.HandshakeEmitsNothing | op-node/rollup/derive/deriver.go:64-97 | any sequence of resets and confirmations emits nothing and forwards each one to the pipeline, in order |
| DeriverProperties.ResetRoundTrip | op-node/rollup/derive/deriver.go:63-98 | a step asking for a reset, then a reset, then a confirmation: one reset event with the cause; the pipeline sees the step, the reset and the confirmation in that order |
| DeriverProperties.ResetHandshake | op-node/rollup/derive/deriver.go:55-98 | a deriver built on a fresh pipeline and emitter and driven through that handshake emits only the reset event and makes those three calls |

## Left out

- The internals of `DerivationPipeline` (`Step`, `Reset`, `ConfirmEngineReset`, `Origin`) are not part of this model. `Step`'s result is a parameter of `OnEvent`. `Reset` and `ConfirmEngineReset` are only recorded.
- `context.Context` (the `ctx` field and its use at line 69): the model has no cancellation.
- The trace and debug log calls (lines 68, 71, 74) and `Origin()` inside them: they have no effect on what is emitted. The error-level log call (line 86) is recorded as the pipeline's ghost `errorLog`.
- The contents of `eth.L2BlockRef` and `AttributesWithParent`: both pass through unchanged. The attributes are represented by a number standing for the pointer.
- The `String()` names of `rollup.ResetEvent`, `rollup.EngineTemporaryErrorEvent` and `rollup.CriticalErrorEvent`: those types are declared in the rollup package, which is not part of this model, so `Name` gives no name for them.
- The `errors.Is`/`Unwrap` machinery. The wrap chain is summarised by the set of sentinels it reaches. Custom `Is` methods on error types are not modelled.
- The event emitter's dispatch to other subscribers: the emitter only records the events.
