/** What the deriver promises about the event it emits for a step, about the
    reset handshake, and about any sequence of events handled one after another. */
module DeriverProperties {
  import opened Nullable
  import opened Errors
  import opened Events
  import opened Deriver

  // ---------------------------------------------------------------------------
  // One event

  /** A step event makes exactly one call, to `Step` with the pending safe
      block, and emits exactly one event, whatever the step returns. */
  lemma StepEmitsExactlyOne(pendingSafe: L2BlockRef, outcome: StepOutcome)
    ensures React(PipelineStep(pendingSafe), outcome).calls == [StepCall(pendingSafe)]
    ensures |React(PipelineStep(pendingSafe), outcome).emitted| == 1
    ensures IsDeriverOutput(React(PipelineStep(pendingSafe), outcome).emitted[0])
  {
  }

  /** A reset event only resets the pipeline, a confirm event only confirms
      the engine reset, and every other event does nothing at all. */
  lemma ResetAndConfirmEmitNothing(ev: Event, outcome: StepOutcome)
    ensures ev.Reset? ==> React(ev, outcome) == Reaction([ResetCall], [], [])
    ensures ev.ConfirmPipelineReset? ==> React(ev, outcome) == Reaction([ConfirmEngineResetCall], [], [])
    ensures !ev.Reset? && !ev.ConfirmPipelineReset? && !ev.PipelineStep? ==> React(ev, outcome) == Reaction([], [], [])
    ensures React(ev, outcome).emitted != [] <==> ev.PipelineStep?
  {
  }

  /** Without an error, present attributes are emitted as they are, and absent
      attributes ask for another step; nothing else can come out. */
  lemma SuccessYieldsAttributesOrMore(attrib: Option<Attributes>)
    ensures Classify(attrib, None).DerivedAttributes? <==> attrib.Some?
    ensures attrib.Some? ==> Classify(attrib, None).attributes == attrib.value
    ensures attrib.None? <==> Classify(attrib, None) == DeriverMore
  {
  }

  /** With an error, attributes are never emitted and play no part at all. */
  lemma ErrorNeverYieldsAttributes(attrib: Option<Attributes>, e: Error)
    ensures !Classify(attrib, Some(e)).DerivedAttributes?
    ensures Classify(attrib, Some(e)) == Classify(None, Some(e))
  {
  }

  /** The deriver goes idle exactly when the error is io.EOF itself or wraps
      EngineELSyncing. */
  lemma IdleIffEofOrSyncing(attrib: Option<Attributes>, err: Option<Error>)
    ensures Classify(attrib, err) == DeriverIdle <==>
            err.Some? && (IsIdentical(err.value, EOF) || Is(err.value, EngineELSyncing))
  {
  }

  /** io.EOF is compared by identity: an error that wraps it, and nothing of
      higher precedence, gets no idle event but the fallback temporary error. */
  lemma WrappedEofIsNotIdle(n: nat, attrib: Option<Attributes>)
    ensures Is(Wrap(n, SentinelError(EOF)), EOF)
    ensures Classify(attrib, Some(Wrap(n, SentinelError(EOF)))) == EngineTemporaryError(Some(Wrap(n, SentinelError(EOF))))
    ensures UnexpectedError(Some(Wrap(n, SentinelError(EOF)))) == [Wrap(n, SentinelError(EOF))]
  {
  }

  /** The reset, temporary and critical events carry the step's error as it
      was returned. */
  lemma ErrorEventsCarryCause(attrib: Option<Attributes>, err: Option<Error>)
    ensures var ev := Classify(attrib, err);
            (ev.Reset? || ev.EngineTemporaryError? || ev.CriticalError?) ==> err.Some? && ev.err == err
  {
  }

  /** An error wrapping ErrReset never gives a critical error, whatever else
      it wraps: the first match wins, so it goes idle or asks for a reset. */
  lemma ResetTakesPrecedenceOverCritical(attrib: Option<Attributes>, e: Error)
    requires Is(e, ErrReset)
    ensures !Classify(attrib, Some(e)).CriticalError?
    ensures Classify(attrib, Some(e)) == DeriverIdle || Classify(attrib, Some(e)) == Reset(Some(e))
    ensures Is(e, ErrCritical) && !Matches(e, EOF) && !Is(e, EngineELSyncing) ==> Classify(attrib, Some(e)) == Reset(Some(e))
  {
  }

  /** An error that says the pipeline lacks data, and matches nothing earlier,
      asks for another step at once and never for a backoff. */
  lemma NotEnoughDataYieldsMore(attrib: Option<Attributes>, e: Error)
    requires Kind(e) == InsufficientData
    ensures Classify(attrib, Some(e)) == DeriverMore
    ensures !Classify(attrib, Some(e)).EngineTemporaryError?
    ensures UnexpectedError(Some(e)) == []
  {
    KindIsHighestPrecedenceMatch(e, NotEnoughData);
    assert forall t :: Rank(t) < Rank(NotEnoughData) ==> !Matches(e, t);
    assert !Matches(e, EOF) && !Matches(e, EngineELSyncing) && !Matches(e, ErrReset);
    assert !Matches(e, ErrTemporary) && !Matches(e, ErrCritical);
  }

  /** An error matching none of the sentinels is logged as unexpected and gives
      a temporary error with that cause: never a critical error, never nothing. */
  lemma UnknownErrorIsTemporary(attrib: Option<Attributes>, e: Error)
    requires Kind(e) == Unclassified
    ensures Classify(attrib, Some(e)) == EngineTemporaryError(Some(e))
    ensures UnexpectedError(Some(e)) == [e]
  {
    UnclassifiedIffNoMatch(e);
    assert !Matches(e, EOF) && !Matches(e, EngineELSyncing) && !Matches(e, ErrReset);
    assert !Matches(e, ErrTemporary) && !Matches(e, ErrCritical) && !Matches(e, NotEnoughData);
  }

  /** An error is logged as unexpected exactly when it is Unclassified. */
  lemma {:induction false} LoggedIffUnclassified(e: Error)
    ensures UnexpectedError(Some(e)) != [] <==> Kind(e) == Unclassified
  {
    UnclassifiedIffNoMatch(e);
    if Kind(e) != Unclassified {
      var s :| Matches(e, s);
      assert s == EOF || Is(e, s);
    } else {
      assert !Matches(e, EOF) && !Matches(e, EngineELSyncing) && !Matches(e, ErrReset);
      assert !Matches(e, ErrTemporary) && !Matches(e, ErrCritical) && !Matches(e, NotEnoughData);
    }
  }

  // ---------------------------------------------------------------------------
  // The classification table, stated independently of the if-chain

  /** The event each category of failure calls for. */
  function Response(k: ErrorKind, e: Error): (ev: Event) {
    match k
    case Exhausted => DeriverIdle
    case ConsumerSyncing => DeriverIdle
    case ResetRequired => Reset(Some(e))
    case Temporary => EngineTemporaryError(Some(e))
    case Critical => CriticalError(Some(e))
    case InsufficientData => DeriverMore
    case Unclassified => EngineTemporaryError(Some(e))
  }

  /** The deriver's chain of tests gives, for every error, the event the
      category of its highest-precedence sentinel calls for. */
  lemma {:induction false} ClassifyFollowsKind(attrib: Option<Attributes>, e: Error)
    ensures Classify(attrib, Some(e)) == Response(Kind(e), e)
  {
    var r := FirstMatch(e, Precedence);
    if r.None? {
      UnknownErrorIsTemporary(attrib, e);
    } else {
      var s := Precedence[r.value];
      KindIsHighestPrecedenceMatch(e, s);
      assert Kind(e) == KindOf(s);
      assert forall t :: Rank(t) < Rank(s) ==> !Matches(e, t);
      assert Rank(s) > 0 ==> !Matches(e, EOF);
      assert Rank(s) > 1 ==> !Matches(e, EngineELSyncing);
      assert Rank(s) > 2 ==> !Matches(e, ErrReset);
      assert Rank(s) > 3 ==> !Matches(e, ErrTemporary);
      assert Rank(s) > 4 ==> !Matches(e, ErrCritical);
    }
  }

  // ---------------------------------------------------------------------------
  // A sequence of events

  /** One reaction followed by another. */
  function Then(a: Reaction, b: Reaction): (r: Reaction) {
    Reaction(a.calls + b.calls, a.emitted + b.emitted, a.errorLog + b.errorLog)
  }

  /** Handling the events of `script` one after another, each paired with what
      `Step` returns if that event makes the deriver call it. */
  function Replay(script: seq<(Event, StepOutcome)>): (r: Reaction) {
    if script == [] then Reaction([], [], [])
    else Then(Replay(script[..|script| - 1]), React(script[|script| - 1].0, script[|script| - 1].1))
  }

  /** The number of step events in `script`. */
  function StepCount(script: seq<(Event, StepOutcome)>): (n: nat) {
    if script == [] then 0
    else StepCount(script[..|script| - 1]) + (if script[|script| - 1].0.PipelineStep? then 1 else 0)
  }

  /** The number of step, reset and confirm events in `script`: the events
      that make the deriver call into the pipeline. */
  function CallCount(script: seq<(Event, StepOutcome)>): (n: nat) {
    if script == [] then 0
    else
      var ev := script[|script| - 1].0;
      CallCount(script[..|script| - 1]) + (if ev.PipelineStep? || ev.Reset? || ev.ConfirmPipelineReset? then 1 else 0)
  }

  /** Handling one more event extends the replay by that event's reaction. */
  lemma ReplaySnoc(script: seq<(Event, StepOutcome)>, ev: Event, outcome: StepOutcome)
    ensures Replay(script + [(ev, outcome)]) == Then(Replay(script), React(ev, outcome))
  {
  }

  /** Exactly one event is emitted per step event, and exactly one pipeline
      call is made per step, reset or confirm event. */
  lemma {:induction false} OneEmitPerStep(script: seq<(Event, StepOutcome)>)
    ensures |Replay(script).emitted| == StepCount(script)
    ensures |Replay(script).calls| == CallCount(script)
  {
    if script != [] {
      OneEmitPerStep(script[..|script| - 1]);
    }
  }

  /** However many steps in a row run short of data, each one asks for
      another step at once: nothing escalates to a backoff. */
  lemma {:induction false} StarvedStepsNeverBackOff(script: seq<(Event, StepOutcome)>)
    requires forall i :: 0 <= i < |script| ==> script[i].0.PipelineStep?
    requires forall i :: 0 <= i < |script| ==> script[i].1.err.Some? && Kind(script[i].1.err.value) == InsufficientData
    ensures |Replay(script).emitted| == |script|
    ensures forall i :: 0 <= i < |script| ==> Replay(script).emitted[i] == DeriverMore
    ensures Replay(script).errorLog == []
  {
    if script != [] {
      var n := |script| - 1;
      StarvedStepsNeverBackOff(script[..n]);
      NotEnoughDataYieldsMore(script[n].1.attrib, script[n].1.err.value);
    }
  }

  /** Resets and confirmations, in any number and order, emit nothing and only
      forward each one to the pipeline, in the same order. */
  lemma {:induction false} HandshakeEmitsNothing(script: seq<(Event, StepOutcome)>)
    requires forall i :: 0 <= i < |script| ==> script[i].0.Reset? || script[i].0.ConfirmPipelineReset?
    ensures Replay(script).emitted == [] && Replay(script).errorLog == []
    ensures |Replay(script).calls| == |script|
    ensures forall i :: 0 <= i < |script| ==>
              Replay(script).calls[i] == (if script[i].0.Reset? then ResetCall else ConfirmEngineResetCall)
  {
    if script != [] {
      HandshakeEmitsNothing(script[..|script| - 1]);
    }
  }

  /** A step whose error asks for a reset, followed by the reset and its
      confirmation: one reset event with the cause, and the pipeline sees the
      step, the reset and the confirmation in that order. */
  lemma ResetRoundTrip(pendingSafe: L2BlockRef, attrib: Option<Attributes>, e: Error, cause: Option<Error>, other: StepOutcome)
    requires Kind(e) == ResetRequired
    ensures var script := [(PipelineStep(pendingSafe), StepOutcome(attrib, Some(e))), (Reset(cause), other), (ConfirmPipelineReset, other)];
            Replay(script) == Reaction([StepCall(pendingSafe), ResetCall, ConfirmEngineResetCall], [Reset(Some(e))], [])
  {
    ClassifyFollowsKind(attrib, e);
    LoggedIffUnclassified(e);
    var step, reset, confirm := (PipelineStep(pendingSafe), StepOutcome(attrib, Some(e))), (Reset(cause), other), (ConfirmPipelineReset, other);
    ReplaySnoc([], step.0, step.1);
    ReplaySnoc([step], reset.0, reset.1);
    ReplaySnoc([step, reset], confirm.0, confirm.1);
    assert [] + [step] == [step];
    assert [step] + [reset] == [step, reset];
    assert [step, reset] + [confirm] == [step, reset, confirm];
  }

  // ---------------------------------------------------------------------------
  // The classes put together

  /** A deriver wired to a fresh pipeline and emitter, driven through a step
      that asks for a reset, then the reset and its confirmation. */
  method ResetHandshake(pendingSafe: L2BlockRef, e: Error, cause: Option<Error>)
    returns (emitted: seq<Event>, ghost calls: seq<PipelineCall>)
    requires Kind(e) == ResetRequired
    ensures emitted == [Reset(Some(e))]
    ensures calls == [StepCall(pendingSafe), ResetCall, ConfirmEngineResetCall]
  {
    var pipeline := new DerivationPipeline();
    var emitter := new Emitter();
    var deriver := new PipelineDeriver(pipeline, emitter);
    var none := StepOutcome(None, None);
    ClassifyFollowsKind(None, e);
    deriver.OnEvent(PipelineStep(pendingSafe), StepOutcome(None, Some(e)));
    deriver.OnEvent(Reset(cause), none);
    deriver.OnEvent(ConfirmPipelineReset, none);
    emitted, calls := emitter.emitted, pipeline.calls;
  }
}
