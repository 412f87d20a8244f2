/**
  How a raw Hermes run settles: what each cause makes of it, and exactly when it succeeds.
 */
module HermesExecutionOutcome {
  import opened Wrappers
  import opened Lines
  import opened Timers
  import opened HermesProtocol
  import opened HermesChunking
  import opened HermesTrace
  import opened HermesExecution
  import opened HermesExecutionSafety
  import opened HermesExecutionGuarantees
  import opened HermesExecutionHygiene

  /** The bytes spell a well-formed trace whose last event is `e`. */
  ghost predicate EndsIn(cfg: HermesProtocol.Config, bytes: seq<Byte>, e: RawEvent) {
    exists es :: IsTrace(cfg, bytes, es) && es[|es| - 1] == e
  }

  // -------------------------------------------------------------------- the parser's verdict

  /** A parser that has not failed holds what is left of the bytes, and any trace they spell. */
  lemma TraceIsAccepted(cfg: HermesProtocol.Config, chunks: seq<seq<Byte>>)
    requires AfterPushes(cfg, Fresh, chunks).error.None?
    ensures var st := AfterPushes(cfg, Fresh, chunks); var bytes := Flatten(chunks);
      && st.buffer == Tail(Split(bytes, LF))
      && forall es :: IsTrace(cfg, bytes, es) ==> st.accepted == es
  {
    var bytes := Flatten(chunks);
    PushesStayOpen(cfg, Fresh, chunks);
    PushesAreReference(cfg, Fresh, chunks);
    assert [] + bytes == bytes;
    var pieces := Split(bytes, LF);
    TakeLinesFrame(cfg, Fresh, Closed(pieces));
    hide Split, TakeLines, AfterPushes;
    assert Core(Fresh) == Fresh;
    forall es | IsTrace(cfg, bytes, es) ensures AfterPushes(cfg, Fresh, chunks).accepted == es {
      LinesComplete(cfg, Closed(pieces), es);
    }
  }

  /** What `finish` says of a parser that has not failed: success exactly for a trace, otherwise one of three errors. */
  lemma FinishVerdict(cfg: HermesProtocol.Config, chunks: seq<seq<Byte>>)
    requires AfterPushes(cfg, Fresh, chunks).error.None?
    ensures var end := Parse(cfg, chunks); var bytes := Flatten(chunks); var rest := Tail(Split(bytes, LF));
      && (end.error.None? <==> exists e :: EndsIn(cfg, bytes, e))
      && (end.error.None? ==> forall e :: EndsIn(cfg, bytes, e) <==> end.terminal == Some(e))
      && (end.error.Some? ==>
            end.error.value == if rest != [] then (if cfg.codec.validUtf8(rest) then TruncatedOutput else InvalidUtf8) else MissingTerminal)
  {
    hide AfterPushes, Split, EndsIn;
    var bytes := Flatten(chunks);
    var st, end := AfterPushes(cfg, Fresh, chunks), Parse(cfg, chunks);
    TraceIsAccepted(cfg, chunks);
    forall e | EndsIn(cfg, bytes, e) ensures st.terminal == Some(e) && Tail(Split(bytes, LF)) == [] {
      EndIsTerminal(cfg, chunks, e);
    }
    if end.error.None? { SuccessEnds(cfg, chunks); }
  }

  lemma EndIsTerminal(cfg: HermesProtocol.Config, chunks: seq<seq<Byte>>, e: RawEvent)
    requires AfterPushes(cfg, Fresh, chunks).error.None? && EndsIn(cfg, Flatten(chunks), e)
    ensures AfterPushes(cfg, Fresh, chunks).terminal == Some(e) && Tail(Split(Flatten(chunks), LF)) == []
  {
    hide AfterPushes, Split;
    var es :| IsTrace(cfg, Flatten(chunks), es) && es[|es| - 1] == e;
    TraceIsAccepted(cfg, chunks);
    ShapeOfPushes(cfg, chunks);
    TraceEndsWell(cfg, Flatten(chunks), es);
  }

  lemma SuccessEnds(cfg: HermesProtocol.Config, chunks: seq<seq<Byte>>)
    requires Parse(cfg, chunks).error.None?
    ensures Parse(cfg, chunks).terminal.Some? && EndsIn(cfg, Flatten(chunks), Parse(cfg, chunks).terminal.value)
    ensures Parse(cfg, chunks).terminal == AfterPushes(cfg, Fresh, chunks).terminal
  {
    hide AfterPushes, Split, IsTrace;
    ParseSound(cfg, chunks);
    ShapeOfPushes(cfg, chunks);
    TraceEndsWell(cfg, Flatten(chunks), Parse(cfg, chunks).accepted);
  }

  lemma TraceEndsWell(cfg: HermesProtocol.Config, bytes: seq<Byte>, es: seq<RawEvent>)
    requires IsTrace(cfg, bytes, es)
    ensures |es| > 0 && IsTerminal(es[|es| - 1].kind) && Tail(Split(bytes, LF)) == []
  {
  }

  lemma ShapeOfPushes(cfg: HermesProtocol.Config, chunks: seq<seq<Byte>>)
    ensures ParserShape(AfterPushes(cfg, Fresh, chunks))
  {
    PushesShape(cfg, Fresh, chunks);
  }

  lemma {:induction false} PushesShape(cfg: HermesProtocol.Config, st: ParserState, chunks: seq<seq<Byte>>)
    requires ParserShape(st)
    ensures ParserShape(AfterPushes(cfg, st, chunks))
    decreases |chunks|
  {
    hide ParserShape, AfterPush;
    if chunks != [] {
      PushShape(cfg, st, chunks[0]);
      PushesShape(cfg, AfterPush(cfg, st, chunks[0]), chunks[1..]);
    }
  }

  // -------------------------------------------------------------------------- completion

  /** This step brings the second of exit and end of stdout, the drain timer standing in for the latter. */
  predicate Completes(s: RunState, input: Input) {
    Enabled(s, input) &&
    match input
    case End => s.exit.Some? && !s.stdoutEnded
    case Exit(_) => s.stdoutEnded
    case Fire(id) => s.clock.armed[id].kind.Drain? && s.exit.Some?
    case _ => false
  }

  /** What a run that has not failed is settled with once exit and all of stdout are known. */
  ghost predicate RightSettlement(cfg: HermesProtocol.Config, bytes: seq<Byte>, exit: ExitInfo, settlement: Settlement) {
    var rest := Tail(Split(bytes, LF));
    if (exists e :: EndsIn(cfg, bytes, e)) then
      exists e :: EndsIn(cfg, bytes, e) &&
        settlement == if exit.signal.None? && exit.code.Some? && (e.kind.RunFailed? <==> exit.code.value != 0)
                      then Resolved(e, exit.code.value) else Rejected(ProcessExited)
    else settlement == Rejected(if rest == [] then MissingTerminal else if cfg.codec.validUtf8(rest) then TruncatedOutput else InvalidUtf8)
  }

  lemma CompletedRight(cfg: Settings, s: RunState)
    requires DataInv(cfg, s) && !Settled(s) && s.failure.None? && s.stdoutEnded && s.exit.Some? && s.parser.error.None?
    ensures RightSettlement(cfg.parser, Flatten(s.chunks), s.exit.value, MaybeComplete(cfg, s).settlement)
  {
    NoErrorBefore(cfg.parser, s.chunks);
    FinishVerdict(cfg.parser, s.chunks);
    hide AfterPushes, EndsIn, Split, Disarm, BeginFailure, ParserShape;
    FailsNow(cfg, s, ProcessExited);
    var e :| EndsIn(cfg.parser, Flatten(s.chunks), e);
    assert s.parser.terminal == Some(e);
  }

  /** With the process gone, a failure settles the run at once. */
  lemma FailsNow(cfg: Settings, s: RunState, code: ErrorCode)
    requires !Settled(s) && s.failure.None? && s.exit.Some?
    ensures BeginFailure(cfg, s, code).settlement == Rejected(code)
  {
    hide Disarm;
  }

  lemma NoErrorBefore(cfg: HermesProtocol.Config, chunks: seq<seq<Byte>>)
    requires Parse(cfg, chunks).error.None?
    ensures AfterPushes(cfg, Fresh, chunks).error.None?
  {
    hide AfterPushes;
  }

  lemma FinishedRight(cfg: Settings, s: RunState)
    requires DataInv(cfg, s) && !Settled(s) && s.failure.None? && !s.stdoutEnded && s.exit.Some? && s.parser.error.None?
    ensures RightSettlement(cfg.parser, Flatten(s.chunks), s.exit.value, FinishStdout(cfg, s).settlement)
  {
    var t := s.(stdoutEnded := true, parser := AfterFinish(cfg.parser, s.parser));
    FinishShape(cfg, s);
    FinishVerdict(cfg.parser, s.chunks);
    hide AfterPushes, EndsIn, Split, Disarm, AfterFinish, MaybeComplete, ParserShape, BeginFailure;
    if t.parser.error.Some? { FailsNow(cfg, t, t.parser.error.value); }
    if t.parser.error.None? { CompletedRight(cfg, t); }
  }

  /**
    Exactly when a run succeeds. One that has neither settled nor failed is settled by the step that brings
    the second of exit and end of stdout, in either order or by the drain timer: resolved with the last event of the trace
    that stdout spells and the exit code, if there is such a trace, no signal, and a code that is zero exactly unless that
    event reports a failure; otherwise rejected, as an inconsistent exit if there is a trace, else for the unfinished
    line or the missing terminal event.
   */
  lemma SettlesRight(cfg: Settings, launch: Launch, before: seq<Input>, last: Input)
    requires var s := After(cfg, launch, before); !Settled(s) && s.failure.None? && Completes(s, last)
    ensures var s, t := After(cfg, launch, before), After(cfg, launch, before + [last]);
            RightSettlement(cfg.parser, Flatten(s.chunks), if last.Exit? then last.info else s.exit.value, t.settlement)
  {
    hide After, Inv, RightSettlement, FinishStdout, MaybeComplete, SettleFailure, Disarm, DataInv, OnData, OnCancel, BeginFailure, FailImmediately;
    var s := After(cfg, launch, before);
    AfterSnoc(cfg, launch, before, last);
    Reachable(cfg, launch, before);
    DataParts(cfg, s);
    match last {
      case Exit(info) =>
        var exited := s.(exit := Some(info), clock := Disarm(s.clock, s.timers.run));
        DataIgnores(cfg, s, exited);
        CompletedRight(cfg, exited);
      case End =>
        DataIgnores(cfg, s, s.(clock := Disarm(s.clock, s.timers.drain)));
        FinishedRight(cfg, s.(clock := Disarm(s.clock, s.timers.drain)));
      case Fire(id) =>
        DataIgnores(cfg, s, s.(clock := Disarm(s.clock, Some(id))));
        FinishedRight(cfg, s.(clock := Disarm(s.clock, Some(id))));
    }
  }

  lemma AfterSnoc(cfg: Settings, launch: Launch, before: seq<Input>, last: Input)
    ensures After(cfg, launch, before + [last]) == Step(cfg, After(cfg, launch, before), last)
  {
    hide Step, Begin;
    ExecAppend(cfg, Begin(cfg, launch), before, [last]);
    assert [last][1..] == [];
  }

  lemma DataParts(cfg: Settings, s: RunState)
    requires Inv(cfg, s) && !Settled(s) && s.failure.None?
    ensures DataInv(cfg, s) && s.parser.error.None? && s.spawned && (s.exit.Some? ==> !s.stdoutEnded)
  {
    hide Parse, ParserShape, ClockInv;
  }

  lemma DataIgnores(cfg: Settings, s: RunState, t: RunState)
    requires DataInv(cfg, s) && t == s.(exit := t.exit, clock := t.clock)
    ensures DataInv(cfg, t)
  {
    hide Parse, ParserShape, AfterPushes;
  }

  // ---------------------------------------------------------------------------- failures

  /** A failure begins on a run that has none: it is remembered, and settles the run or terminates the process. */
  ghost predicate Began(s: RunState, t: RunState, code: ErrorCode) {
    && t.failure == Some(code) && t.forced == s.forced
    && (if s.exit.Some? then t.settlement == Rejected(code) && t.terminations == s.terminations
        else !Settled(t) && t.terminations == s.terminations + if s.timers.cleanup.None? then 1 else 0)
  }

  lemma BeginsRight(cfg: Settings, s: RunState, code: ErrorCode)
    requires !Settled(s) && s.failure.None? && s.spawned
    ensures Began(s, BeginFailure(cfg, s, code), code)
  {
    hide Disarm;
  }

  /** What the end of stdout makes of a run that has not failed and whose exit is still missing. */
  lemma EarlyEnd(cfg: Settings, s: RunState)
    requires !Settled(s) && s.failure.None? && s.spawned && s.exit.None?
    ensures var t := FinishStdout(cfg, s);
            if t.parser.error.Some? then Began(s, t, t.parser.error.value)
            else t.failure.None? && !Settled(t) && t.terminations == s.terminations && t.forced == s.forced
  {
    hide BeginFailure, AfterFinish, Began;
    var t := s.(stdoutEnded := true, parser := AfterFinish(cfg.parser, s.parser));
    if t.parser.error.Some? {
      BeginsRight(cfg, t, t.parser.error.value);
      BeganFrom(s, t, BeginFailure(cfg, t, t.parser.error.value), t.parser.error.value);
      ParserStays(cfg, t, t.parser.error.value);
    }
  }

  lemma BeganFrom(s: RunState, early: RunState, t: RunState, code: ErrorCode)
    requires Began(early, t, code)
    requires early.exit == s.exit && early.timers == s.timers && early.terminations == s.terminations && early.forced == s.forced
    ensures Began(s, t, code)
  {
  }

  lemma ParserStays(cfg: Settings, s: RunState, code: ErrorCode)
    ensures BeginFailure(cfg, s, code).parser == s.parser
  {
    hide Disarm;
  }

  lemma DataOutcome(cfg: Settings, s: RunState, chunk: Option<seq<Byte>>)
    requires !Settled(s) && s.failure.None? && s.spawned && s.parser.error.None?
    ensures var t := OnData(cfg, s, chunk);
            if chunk.None? then Began(s, t, InvalidUtf8)
            else if t.parser.error.Some? then Began(s, t, t.parser.error.value)
            else t.failure.None? && !Settled(t) && t.terminations == s.terminations && t.forced == s.forced
  {
    hide BeginFailure, AfterPush, Enqueue, Began;
    if chunk.None? {
      BeginsRight(cfg, s, InvalidUtf8);
    } else {
      var parser := AfterPush(cfg.parser, s.parser, chunk.value);
      var events := if |s.parser.accepted| <= |parser.accepted| then parser.accepted[|s.parser.accepted|..] else [];
      var (queued, closed) := Enqueue(s.queued, s.closed, events);
      var t := s.(parser := parser, queued := queued, closed := closed, chunks := s.chunks + [chunk.value]);
      if parser.error.Some? {
        BeginsRight(cfg, t, parser.error.value);
        BeganFrom(s, t, BeginFailure(cfg, t, parser.error.value), parser.error.value);
        ParserStays(cfg, t, parser.error.value);
      }
    }
  }

  /** The failure, if any, that a callback other than the completing one brings to a run that has none. */
  function Cause(s: RunState, input: Input, after: RunState): Option<ErrorCode>
    requires Enabled(s, input)
  {
    match input
    case Data(None) => Some(InvalidUtf8)
    case Data(Some(_)) => after.parser.error
    case End => if s.stdoutEnded then None else after.parser.error
    case StdinError => Some(StdinFailed)
    case Fire(id) => if s.clock.armed[id].kind.RunLimit? then Some(TimedOut) else None
    case _ => None
  }

  /**
    Every other callback on a run that has neither settled nor failed: a process error, or the end of a
    cancellation's patience, rejects it at once; six kinds of trouble begin a failure, which rejects it at
    once if the process is gone and otherwise terminates the process unless a cancellation has; a first
    cancellation before the terminal event terminates a process that is there; nothing else does anything of the kind.
   */
  lemma FailsFor(cfg: Settings, launch: Launch, before: seq<Input>, last: Input)
    requires var s := After(cfg, launch, before);
             !Settled(s) && s.failure.None? && Enabled(s, last) && !Completes(s, last)
    ensures var s, t := After(cfg, launch, before), After(cfg, launch, before + [last]);
      if last.ProcessError? then t.settlement == Rejected(SpawnFailed)
      else if last.Fire? && s.clock.armed[last.id].kind.Force? then t.settlement == Rejected(ProcessExited)
      else if Cause(s, last, t).Some? then Began(s, t, Cause(s, last, t).value)
      else
        && t.failure.None? && !Settled(t)
        && t.terminations == s.terminations + (if last.Cancel? && !s.cancellationRequested && s.parser.terminal.None? && s.exit.None? then 1 else 0)
        && t.forced == s.forced + if last.Fire? && s.clock.armed[last.id].kind.Cleanup? then 1 else 0
  {
    hide After, Inv, Began, OnData, FinishStdout, MaybeComplete, Disarm, DataInv, BeginFailure, StartCleanup;
    var s := After(cfg, launch, before);
    AfterSnoc(cfg, launch, before, last);
    Reachable(cfg, launch, before);
    DataParts(cfg, s);
    match last {
      case Data(chunk) => DataOutcome(cfg, s, chunk);
      case End =>
        var early := s.(clock := Disarm(s.clock, s.timers.drain));
        if !s.stdoutEnded {
          EarlyEnd(cfg, early);
          if FinishStdout(cfg, early).parser.error.Some? {
            BeganFrom(s, early, FinishStdout(cfg, early), FinishStdout(cfg, early).parser.error.value);
          }
        }
      case StdinError => BeginsRight(cfg, s, StdinFailed);
      case ProcessError =>
      case Exit(_) =>
      case Cancel => CleanupStarts(cfg, s.(cancellationRequested := true, process := Terminating));
      case Fire(id) =>
        var rung := s.(clock := Disarm(s.clock, Some(id)));
        BeginsRight(cfg, rung, TimedOut);
        BeganFrom(s, rung, BeginFailure(cfg, rung, TimedOut), TimedOut);
        KindsOfOpen(cfg, s, id);
      case Pass(_) =>
    }
  }

  lemma CleanupStarts(cfg: Settings, s: RunState)
    ensures var t := StartCleanup(cfg, s, true);
            t == s.(terminations := s.terminations + 1, timers := t.timers, clock := t.clock)
  {
  }

  /** Before a failure only cancellations have set cleanup and force timers, and a drain timer waits after an exit. */
  lemma KindsOfOpen(cfg: Settings, s: RunState, id: nat)
    requires Inv(cfg, s) && s.failure.None? && id in s.clock.armed
    ensures s.clock.armed[id].kind.Force? ==> s.clock.armed[id].kind == Force(true)
    ensures s.clock.armed[id].kind.Drain? ==> s.exit.Some?
  {
    assert Rings(s.clock, s.clock.armed[id].kind);
  }

  /**
    A failing run waits for its process: it is settled, with the failure it began with, by the exit, or by
    force; at once by a process error, as a failed spawn. Until then nothing changes its failure, only a
    first cancellation terminates the process again, and each cleanup timer that rings forces it.
   */
  lemma FailingWaits(cfg: Settings, launch: Launch, before: seq<Input>, last: Input)
    requires var s := After(cfg, launch, before); !Settled(s) && s.failure.Some? && Enabled(s, last)
    ensures var s, t := After(cfg, launch, before), After(cfg, launch, before + [last]);
      if last.ProcessError? then t.settlement == Rejected(SpawnFailed)
      else if last.Exit? then t.settlement == Rejected(s.failure.value)
      else if last.Fire? && s.clock.armed[last.id].kind.Force? then
        t.settlement == Rejected(if s.clock.armed[last.id].kind.byCancel then ProcessExited else s.failure.value)
      else
        && t.failure == s.failure && !Settled(t)
        && t.terminations == s.terminations + (if last.Cancel? && !s.cancellationRequested && s.parser.terminal.None? then 1 else 0)
        && t.forced == s.forced + if last.Fire? && s.clock.armed[last.id].kind.Cleanup? then 1 else 0
  {
    hide After, Inv, FinishStdout, MaybeComplete, Disarm, DataInv, BeginFailure, StartCleanup, AfterPush, Enqueue;
    var s := After(cfg, launch, before);
    AfterSnoc(cfg, launch, before, last);
    Reachable(cfg, launch, before);
    FailingParts(cfg, s);
    match last {
      case Data(chunk) => DataNotAgain(cfg, s, chunk);
      case End => FinishNotAgain(cfg, s.(clock := Disarm(s.clock, s.timers.drain)));
      case StdinError => NotAgain(cfg, s, StdinFailed);
      case Cancel => CleanupStarts(cfg, s.(cancellationRequested := true, process := Terminating));
      case Fire(id) =>
        var rung := s.(clock := Disarm(s.clock, Some(id)));
        NotAgain(cfg, rung, TimedOut);
        NoDrainWhileFailing(cfg, s, id);
      case _ =>
    }
  }

  lemma FailingParts(cfg: Settings, s: RunState)
    requires Inv(cfg, s) && !Settled(s) && s.failure.Some?
    ensures s.spawned && s.exit.None?
  {
    hide Parse, ParserShape, ClockInv;
  }

  lemma NoDrainWhileFailing(cfg: Settings, s: RunState, id: nat)
    requires Inv(cfg, s) && !Settled(s) && s.failure.Some? && id in s.clock.armed
    ensures !s.clock.armed[id].kind.Drain?
  {
    FailingParts(cfg, s);
    assert Rings(s.clock, s.clock.armed[id].kind);
    hide DataInv, LiveInv, EndInv;
  }

  lemma DataNotAgain(cfg: Settings, s: RunState, chunk: Option<seq<Byte>>)
    requires s.failure.Some?
    ensures var t := OnData(cfg, s, chunk);
            t.failure == s.failure && t.settlement == s.settlement && t.terminations == s.terminations && t.forced == s.forced
  {
    hide AfterPush, Enqueue;
  }

  lemma FinishNotAgain(cfg: Settings, s: RunState)
    requires s.failure.Some?
    ensures var t := FinishStdout(cfg, s);
            t.failure == s.failure && t.settlement == s.settlement && t.terminations == s.terminations && t.forced == s.forced
  {
    hide AfterFinish;
  }

  /** How a run begins: rejected input and a failed spawn settle it; a lost input begins a failure; otherwise it is open. */
  lemma LaunchOutcome(cfg: Settings, launch: Launch)
    ensures var s := Begin(cfg, launch);
      match launch
      case BadInput => s.settlement == Rejected(InvalidInput) && s.terminations == 0
      case SpawnThrows => s.settlement == Rejected(SpawnFailed) && s.terminations == 0
      case Spawned(stdinThrows) =>
        && s.spawned && !Settled(s) && s.failure == (if stdinThrows then Some(StdinFailed) else None)
        && s.terminations == (if stdinThrows then 1 else 0)
        && exists id :: id in s.clock.armed && s.clock.armed[id] == Alarm(RunLimit, cfg.run)
  {
    if launch.Spawned? {
      var s := Begin(cfg, launch);
      assert s.timers.run.value in s.clock.armed;
    }
  }

  // ------------------------------------------------------------------------ what was received

  /** The chunks that arrived while the run was open and stdout had not ended, oldest first. */
  function Received(cfg: Settings, launch: Launch, inputs: seq<Input>): seq<seq<Byte>>
    decreases |inputs|
  {
    if inputs == [] then []
    else
      var before, last := inputs[..|inputs| - 1], inputs[|inputs| - 1];
      Received(cfg, launch, before) +
      if last.Data? && last.chunk.Some? && Enabled(After(cfg, launch, before), last) then [last.chunk.value] else []
  }

  lemma StepReceives(cfg: Settings, s: RunState, input: Input)
    ensures Step(cfg, s, input).chunks ==
            s.chunks + if input.Data? && input.chunk.Some? && Enabled(s, input) then [input.chunk.value] else []
  {
    hide OnData, Disarm, BeginFailure, FinishStdout, MaybeComplete, SettleFailure;
    assert s.chunks + [] == s.chunks;
    match input {
      case Data(chunk) => if Enabled(s, input) { DataKeepsChunks(cfg, s, chunk); }
      case End => FinishKeepsChunks(cfg, s.(clock := Disarm(s.clock, s.timers.drain)));
      case StdinError => FailureKeepsChunks(cfg, s, StdinFailed);
      case ProcessError => FinishKeepsChunks(cfg, s.(failure := Some(SpawnFailed)));
      case Exit(info) => FinishKeepsChunks(cfg, s.(exit := Some(info), clock := Disarm(s.clock, s.timers.run)));
      case Fire(id) =>
        var rung := s.(clock := Disarm(s.clock, Some(id)));
        FailureKeepsChunks(cfg, rung, TimedOut);
        FinishKeepsChunks(cfg, rung);
        FinishKeepsChunks(cfg, rung.(failure := Some(ProcessExited), closed := true));
      case _ =>
    }
  }

  lemma DataKeepsChunks(cfg: Settings, s: RunState, chunk: Option<seq<Byte>>)
    ensures OnData(cfg, s, chunk).chunks == s.chunks + if chunk.Some? then [chunk.value] else []
  {
    hide AfterPush, Enqueue, BeginFailure;
    assert s.chunks + [] == s.chunks;
    FailureKeepsChunks(cfg, s, InvalidUtf8);
    if chunk.Some? {
      var parser := AfterPush(cfg.parser, s.parser, chunk.value);
      var events := if |s.parser.accepted| <= |parser.accepted| then parser.accepted[|s.parser.accepted|..] else [];
      var (queued, closed) := Enqueue(s.queued, s.closed, events);
      var t := s.(parser := parser, queued := queued, closed := closed, chunks := s.chunks + [chunk.value]);
      if parser.error.Some? { FailureKeepsChunks(cfg, t, parser.error.value); }
    }
  }

  lemma FailureKeepsChunks(cfg: Settings, s: RunState, code: ErrorCode)
    ensures BeginFailure(cfg, s, code).chunks == s.chunks
  {
    hide Disarm;
  }

  lemma FinishKeepsChunks(cfg: Settings, s: RunState)
    ensures FinishStdout(cfg, s).chunks == s.chunks && MaybeComplete(cfg, s).chunks == s.chunks && SettleFailure(s).chunks == s.chunks
  {
    hide Disarm, AfterFinish;
  }

  /** Nothing that arrives is lost, added or reordered before it reaches the parser. */
  lemma {:induction false} ChunksAreReceived(cfg: Settings, launch: Launch, inputs: seq<Input>)
    ensures After(cfg, launch, inputs).chunks == Received(cfg, launch, inputs)
    decreases |inputs|
  {
    hide Step, Begin;
    if inputs == [] {
      NothingReceived(cfg, launch);
    } else {
      var before, last := inputs[..|inputs| - 1], inputs[|inputs| - 1];
      assert inputs == before + [last];
      ChunksAreReceived(cfg, launch, before);
      AfterSnoc(cfg, launch, before, last);
      StepReceives(cfg, After(cfg, launch, before), last);
      hide After;
    }
  }

  lemma NothingReceived(cfg: Settings, launch: Launch)
    ensures Begin(cfg, launch).chunks == []
  {
  }

  // --------------------------------------------------------------------------- durations

  function Duration(cfg: Settings): TimerKind -> real {
    (kind: TimerKind) => match kind
      case RunLimit => cfg.run
      case Cleanup(_) => cfg.cleanup
      case Force(_) => cfg.force
      case Drain => cfg.drain
  }

  ghost predicate OnTime(cfg: Settings, s: RunState, t: RunState) {
    Timely(s.clock, t.clock, Duration(cfg)) && t.clock.now == s.clock.now
  }

  lemma OnTimeTwice(cfg: Settings, s: RunState, t: RunState, u: RunState)
    requires OnTime(cfg, s, t) && (OnTime(cfg, t, u) || u.clock == t.clock)
    ensures OnTime(cfg, s, u)
  {
    if OnTime(cfg, t, u) { TimelyTwice(s.clock, t.clock, u.clock, Duration(cfg)); }
  }

  lemma ClearingOnTime(cfg: Settings, s: RunState)
    ensures OnTime(cfg, s, s) && OnTime(cfg, s, ClearTimers(s)) && OnTime(cfg, s, SettleFailure(s))
    ensures OnTime(cfg, s, StartCleanup(cfg, s, true)) && OnTime(cfg, s, StartCleanup(cfg, s, false))
  {
  }

  lemma FailureOnTime(cfg: Settings, s: RunState, code: ErrorCode)
    ensures OnTime(cfg, s, BeginFailure(cfg, s, code)) && OnTime(cfg, s, FailImmediately(s, code))
  {
    var failing := s.(failure := Some(code), closed := true, clock := Disarm(Disarm(s.clock, s.timers.run), s.timers.drain));
    assert OnTime(cfg, s, failing);
    hide OnTime, SettleFailure, StartCleanup, Disarm;
    ClearingOnTime(cfg, s);
    ClearingOnTime(cfg, failing);
    ClearingOnTime(cfg, failing.(process := Terminating));
    ClearingOnTime(cfg, s.(failure := Some(code)));
    OnTimeTwice(cfg, s, s, s.(failure := Some(code)));
    OnTimeTwice(cfg, s, s.(failure := Some(code)), SettleFailure(s.(failure := Some(code))));
    OnTimeTwice(cfg, s, failing, SettleFailure(failing));
    OnTimeTwice(cfg, s, failing, failing.(process := Terminating));
    OnTimeTwice(cfg, s, failing.(process := Terminating), StartCleanup(cfg, failing.(process := Terminating), false));
  }

  lemma CompletionOnTime(cfg: Settings, s: RunState)
    ensures OnTime(cfg, s, MaybeComplete(cfg, s))
  {
    FailureOnTime(cfg, s, ProcessExited);
    ClearingOnTime(cfg, s);
    hide BeginFailure;
  }

  lemma FinishOnTime(cfg: Settings, s: RunState)
    ensures OnTime(cfg, s, FinishStdout(cfg, s))
  {
    hide OnTime, BeginFailure, MaybeComplete, AfterFinish;
    var t := s.(stdoutEnded := true, parser := AfterFinish(cfg.parser, s.parser));
    ClearingOnTime(cfg, s);
    OnTimeTwice(cfg, s, s, t);
    CompletionOnTime(cfg, t);
    OnTimeTwice(cfg, s, t, MaybeComplete(cfg, t));
    if t.parser.error.Some? {
      FailureOnTime(cfg, t, t.parser.error.value);
      OnTimeTwice(cfg, s, t, BeginFailure(cfg, t, t.parser.error.value));
    }
  }

  lemma DataOnTime(cfg: Settings, s: RunState, chunk: Option<seq<Byte>>)
    ensures OnTime(cfg, s, OnData(cfg, s, chunk))
  {
    hide OnTime, BeginFailure, AfterPush, Enqueue;
    FailureOnTime(cfg, s, InvalidUtf8);
    if chunk.Some? {
      var parser := AfterPush(cfg.parser, s.parser, chunk.value);
      var events := if |s.parser.accepted| <= |parser.accepted| then parser.accepted[|s.parser.accepted|..] else [];
      var (queued, closed) := Enqueue(s.queued, s.closed, events);
      var t := s.(parser := parser, queued := queued, closed := closed, chunks := s.chunks + [chunk.value]);
      ClearingOnTime(cfg, s);
      OnTimeTwice(cfg, s, s, t);
      if parser.error.Some? {
        FailureOnTime(cfg, t, parser.error.value);
        OnTimeTwice(cfg, s, t, BeginFailure(cfg, t, parser.error.value));
      }
    }
  }

  lemma DisarmedOnTime(cfg: Settings, s: RunState, handle: Option<nat>)
    ensures OnTime(cfg, s, s.(clock := Disarm(s.clock, handle)))
  {
  }

  lemma EndOnTime(cfg: Settings, s: RunState)
    ensures OnTime(cfg, s, OnEnd(cfg, s))
  {
    hide OnTime, FinishStdout, Disarm;
    ClearingOnTime(cfg, s);
    var early := s.(clock := Disarm(s.clock, s.timers.drain));
    DisarmedOnTime(cfg, s, s.timers.drain);
    FinishOnTime(cfg, early);
    OnTimeTwice(cfg, s, early, FinishStdout(cfg, early));
  }

  lemma ExitOnTime(cfg: Settings, s: RunState, info: ExitInfo)
    ensures OnTime(cfg, s, OnExit(cfg, s, info))
  {
    hide SettleFailure, MaybeComplete, Disarm, OnTime;
    ClearingOnTime(cfg, s);
    var exited := s.(exit := Some(info), clock := Disarm(s.clock, s.timers.run));
    DisarmedOnTime(cfg, s, s.timers.run);
    OnTimeTwice(cfg, s, s.(clock := Disarm(s.clock, s.timers.run)), exited);
    ClearingOnTime(cfg, exited);
    CompletionOnTime(cfg, exited);
    ArmedOnTime(cfg, exited);
    OnTimeTwice(cfg, s, exited, SettleFailure(exited));
    OnTimeTwice(cfg, s, exited, MaybeComplete(cfg, exited));
    var waiting := exited.(timers := s.timers.(drain := Some(exited.clock.nextId)), clock := Arm(exited.clock, Drain, cfg.drain));
    OnTimeTwice(cfg, s, exited, waiting);
  }

  lemma ArmedOnTime(cfg: Settings, s: RunState)
    ensures forall t: RunState :: t.clock == Arm(s.clock, Drain, cfg.drain) ==> OnTime(cfg, s, t)
    ensures forall t: RunState, c :: t.clock == Arm(s.clock, Force(c), cfg.force) ==> OnTime(cfg, s, t)
  {
  }

  lemma FireOnTime(cfg: Settings, s: RunState, id: nat)
    requires id in s.clock.armed
    ensures OnTime(cfg, s, OnFire(cfg, s, id))
  {
    hide SettleFailure, BeginFailure, FinishStdout, Disarm, OnTime;
    var rung := s.(clock := Disarm(s.clock, Some(id)));
    DisarmedOnTime(cfg, s, Some(id));
    ArmedOnTime(cfg, rung);
    FailureOnTime(cfg, rung, TimedOut);
    FinishOnTime(cfg, rung);
    ClearingOnTime(cfg, rung);
    var failed := rung.(failure := Some(ProcessExited), closed := true);
    OnTimeTwice(cfg, s, rung, failed);
    ClearingOnTime(cfg, failed);
    OnTimeTwice(cfg, s, failed, SettleFailure(failed));
    OnTimeTwice(cfg, s, rung, SettleFailure(rung));
    OnTimeTwice(cfg, s, rung, FinishStdout(cfg, rung));
    OnTimeTwice(cfg, s, rung, BeginFailure(cfg, rung, TimedOut));
    if s.clock.armed[id].kind.Cleanup? { OnTimeTwice(cfg, s, rung, OnFire(cfg, s, id)); }
  }

  lemma CancelOnTime(cfg: Settings, s: RunState)
    ensures OnTime(cfg, s, OnCancel(cfg, s))
  {
    hide OnTime, StartCleanup;
    ClearingOnTime(cfg, s);
    var asked := s.(cancellationRequested := true);
    OnTimeTwice(cfg, s, s, asked);
    OnTimeTwice(cfg, s, s, asked.(process := Terminating));
    ClearingOnTime(cfg, asked.(process := Terminating));
    OnTimeTwice(cfg, s, asked.(process := Terminating), StartCleanup(cfg, asked.(process := Terminating), true));
  }

  /** Whatever happens, a timer that is armed afterwards was armed before or has just been set for exactly its duration. */
  lemma TimersKeepTime(cfg: Settings, s: RunState, input: Input)
    ensures Timely(s.clock, Step(cfg, s, input).clock, Duration(cfg))
  {
    hide OnData, OnEnd, OnExit, OnCancel, OnFire, BeginFailure, FailImmediately, Duration;
    ClearingOnTime(cfg, s);
    match input {
      case Data(chunk) => DataOnTime(cfg, s, chunk);
      case End => EndOnTime(cfg, s);
      case StdinError => FailureOnTime(cfg, s, StdinFailed);
      case ProcessError => FailureOnTime(cfg, s, SpawnFailed);
      case Exit(info) => ExitOnTime(cfg, s, info);
      case Cancel => CancelOnTime(cfg, s);
      case Fire(id) => if Enabled(s, input) { FireOnTime(cfg, s, id); }
      case Pass(_) =>
    }
  }
}
