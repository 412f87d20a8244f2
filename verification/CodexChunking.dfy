/**
  The Codex run's event log and stdout: what is reported comes from the text received, and does
  not depend on how that text was cut into chunks.
 */
module CodexChunking {
  import opened Wrappers
  import opened Lines
  import opened Events
  import opened CodexLifecycle
  import opened CodexSafety
  import opened CodexGuarantees
  import P = StreamParsing
  import C = StreamChunking
  import M = CodexMapping

  // ------------------------------------------------------------- chunking does not matter

  /** The part of the state a consumer of the run sees, and what still decides it while the run goes on. */
  ghost predicate SameLog(s: RunState, t: RunState) {
    && s.out.queued == t.out.queued && s.out.completion == t.out.completion && s.out.closed == t.out.closed
    && s.out.kit.terminal == t.out.kit.terminal
    && (!Terminated(s) ==> s.mapper == t.mapper && s.malformed == t.malformed && s.out.kit == t.out.kit)
  }

  ghost predicate Sound(cfg: Config, s: RunState) {
    OutboxInv(cfg.ctx, s.out)
  }

  lemma FailSame(cfg: Config, s: RunState, t: RunState, f: Failure)
    requires SameLog(s, t) && Sound(cfg, s) && Sound(cfg, t)
    ensures SameLog(FailAndTerminate(cfg, s, f), FailAndTerminate(cfg, t, f))
    ensures Sound(cfg, FailAndTerminate(cfg, s, f)) && Extends(s.out, FailAndTerminate(cfg, s, f).out)
  {
    TerminateOut(cfg, Finish(cfg, s, Failed(f)));
    TerminateOut(cfg, Finish(cfg, t, Failed(f)));
    hide TerminateProcess;
    ConcludeKeeps(cfg.ctx, s.out, Failed(f));
    ConcludeKeeps(cfg.ctx, t.out, Failed(f));
    hide OutboxInv;
  }

  /** An ended run shows nothing of a further failure. */
  lemma AlreadyFailed(cfg: Config, s: RunState)
    requires Sound(cfg, s)
    ensures Terminated(s) ==> SameLog(FailAndTerminate(cfg, s, TooManyMalformed), s)
  {
    ConcludeKeeps(cfg.ctx, s.out, Failed(TooManyMalformed));
    TerminateOut(cfg, Finish(cfg, s, Failed(TooManyMalformed)));
    hide OutboxInv, Conclude, TerminateProcess;
  }

  lemma TerminateOut(cfg: Config, s: RunState)
    ensures TerminateProcess(cfg, s).out == s.out
  {
  }

  lemma MessageSame(cfg: Config, s: RunState, t: RunState, m: M.Message)
    requires SameLog(s, t) && Sound(cfg, s) && Sound(cfg, t)
    ensures SameLog(TakeMessage(cfg, s, m), TakeMessage(cfg, t, m))
    ensures Sound(cfg, TakeMessage(cfg, s, m)) && Extends(s.out, TakeMessage(cfg, s, m).out)
  {
    var body := M.Mapped(cfg.safe, s.mapper, m).1;
    if !Terminated(s) && body.Some? { DeliverKeeps(cfg.ctx, s.out, body.value); }
    hide OutboxInv, Clear;
  }

  lemma {:induction false} MessagesSame(cfg: Config, s: RunState, t: RunState, ms: seq<M.Message>)
    requires SameLog(s, t) && Sound(cfg, s) && Sound(cfg, t)
    ensures SameLog(TakeMessages(cfg, s, ms), TakeMessages(cfg, t, ms))
    ensures Sound(cfg, TakeMessages(cfg, s, ms)) && Extends(s.out, TakeMessages(cfg, s, ms).out)
    decreases |ms|
  {
    if ms != [] {
      hide SameLog, Sound, TakeMessage;
      MessageSame(cfg, s, t, ms[0]);
      SameLogSound(cfg, TakeMessage(cfg, s, ms[0]), t, ms[0]);
      MessagesSame(cfg, TakeMessage(cfg, s, ms[0]), TakeMessage(cfg, t, ms[0]), ms[1..]);
    }
  }

  lemma SameLogSound(cfg: Config, s: RunState, t: RunState, m: M.Message)
    requires Sound(cfg, t)
    ensures Sound(cfg, TakeMessage(cfg, t, m))
  {
    var body := M.Mapped(cfg.safe, t.mapper, m).1;
    if !Terminated(t) && body.Some? { DeliverKeeps(cfg.ctx, t.out, body.value); }
    hide OutboxInv;
  }

  lemma OutcomeSame(cfg: Config, s: RunState, t: RunState, o: P.Outcome<M.Message>)
    requires SameLog(s, t) && Sound(cfg, s) && Sound(cfg, t)
    ensures SameLog(TakeOutcome(cfg, s, o), TakeOutcome(cfg, t, o))
    ensures Sound(cfg, TakeOutcome(cfg, s, o)) && Sound(cfg, TakeOutcome(cfg, t, o)) && Extends(s.out, TakeOutcome(cfg, s, o).out)
  {
    hide OutboxInv, FailAndTerminate, TakeMessages;
    assert SameLog(t, t) && SameLog(s, s);
    match o {
      case Messages(ms) => MessagesSame(cfg, s, t, ms); MessagesSame(cfg, t, t, ms);
      case OversizedLine => FailSame(cfg, s, t, LineOversized); FailSame(cfg, t, t, LineOversized);
      case MessageLimitReached => FailSame(cfg, s, t, TooManyMessages); FailSame(cfg, t, t, TooManyMessages);
      case TruncatedFinalLine => FailSame(cfg, s, t, StreamTruncated); FailSame(cfg, t, t, StreamTruncated);
      case _ => MalformedSame(cfg, s, t); MalformedSame(cfg, t, t);
    }
  }

  lemma MalformedSame(cfg: Config, s: RunState, t: RunState)
    requires SameLog(s, t) && Sound(cfg, s) && Sound(cfg, t)
    ensures SameLog(TakeMalformed(cfg, s), TakeMalformed(cfg, t))
    ensures Sound(cfg, TakeMalformed(cfg, s)) && Extends(s.out, TakeMalformed(cfg, s).out)
  {
    hide OutboxInv, FailAndTerminate;
    FailSame(cfg, s.(malformed := s.malformed + 1), t.(malformed := t.malformed + 1), TooManyMalformed);
    AlreadyFailed(cfg, s.(malformed := s.malformed + 1));
    AlreadyFailed(cfg, t.(malformed := t.malformed + 1));
  }

  /** Outcomes act on the log alone, and on an ended run not at all. */
  lemma {:induction false} OutcomesSame(cfg: Config, s: RunState, t: RunState, os: seq<P.Outcome<M.Message>>)
    requires SameLog(s, t) && Sound(cfg, s) && Sound(cfg, t)
    ensures SameLog(TakeOutcomes(cfg, s, os), TakeOutcomes(cfg, t, os))
    ensures Sound(cfg, TakeOutcomes(cfg, s, os)) && Extends(s.out, TakeOutcomes(cfg, s, os).out)
    decreases |os|
  {
    if os != [] {
      hide SameLog, Sound, TakeOutcome;
      OutcomeSame(cfg, s, t, os[0]);
      OutcomesSame(cfg, TakeOutcome(cfg, s, os[0]), TakeOutcome(cfg, t, os[0]), os[1..]);
    }
  }

  lemma {:induction false} OutcomesAppend(cfg: Config, s: RunState, xs: seq<P.Outcome<M.Message>>, ys: seq<P.Outcome<M.Message>>)
    ensures TakeOutcomes(cfg, s, xs + ys) == TakeOutcomes(cfg, TakeOutcomes(cfg, s, xs), ys)
    decreases |xs|
  {
    hide TakeOutcome;
    if xs == [] {
      assert xs + ys == ys;
    } else {
      assert (xs + ys)[1..] == xs[1..] + ys;
      OutcomesAppend(cfg, TakeOutcome(cfg, s, xs[0]), xs[1..], ys);
    }
  }

  // ------------------------------------------------------------------ feeding stdout

  function Chunks(chunks: seq<P.Text>): (inputs: seq<Input>)
    ensures |inputs| == |chunks| && forall i :: 0 <= i < |chunks| ==> inputs[i] == StdoutData(chunks[i])
  {
    seq(|chunks|, i requires 0 <= i < |chunks| => StdoutData(chunks[i]))
  }

  ghost predicate Listening(s: RunState) {
    s.listening && !s.stdoutEnded
  }

  lemma {:induction false} OutcomesGrow(cfg: P.Config<M.Message>, st: P.ParserState<M.Message>, lines: seq<P.Text>)
    ensures st.outcomes <= P.TakeLines(cfg, st, lines).outcomes
    decreases |lines|
  {
    if lines != [] { OutcomesGrow(cfg, P.TakeLine(cfg, st, lines[0]), lines[1..]); }
  }

  lemma PushGrows(cfg: P.Config<M.Message>, st: P.ParserState<M.Message>, chunk: P.Text)
    ensures st.outcomes <= P.AfterPush(cfg, st, chunk).outcomes
  {
    OutcomesGrow(cfg, st, Closed(Split(st.buffer + chunk, P.LF)));
  }

  lemma {:induction false} PushesGrow(cfg: P.Config<M.Message>, st: P.ParserState<M.Message>, chunks: seq<P.Text>)
    ensures st.outcomes <= P.AfterPushes(cfg, st, chunks).outcomes
    decreases |chunks|
  {
    hide P.AfterPush;
    if chunks != [] {
      PushGrows(cfg, st, chunks[0]);
      PushesGrow(cfg, P.AfterPush(cfg, st, chunks[0]), chunks[1..]);
    }
  }

  /** One chunk: the log becomes what the reported outcomes make of it, whatever the timers do. */
  lemma DataSame(cfg: Config, s: RunState, text: P.Text)
    requires Inv(cfg, s) && Listening(s)
    ensures var t := Step(cfg, s, StdoutData(text)); var parser := P.AfterPush(ParserConfig(cfg), s.parser, text);
            && Inv(cfg, t) && Listening(t)
            && SameLog(t, TakeOutcomes(cfg, s, Reported(s.parser, parser)))
            && (!Terminated(t) ==> t.parser == parser)
  {
    hide Inv, P.AfterPush, TakeOutcomes, OutboxInv;
    var parser := P.AfterPush(ParserConfig(cfg), s.parser, text);
    var ready := ArmInactivity(cfg, ClearStartup(s));
    var os := Reported(s.parser, parser);
    InvParts(cfg, s);
    ClearStartupKeeps(cfg, s);
    InactivityKeeps(cfg, ClearStartup(s));
    ReadyIsSame(cfg, s);
    StepPreserves(cfg, s, StdoutData(text));
    TakeChunkKeeps(cfg, ready, text);
    hide Core, ArmInactivity, ClearStartup;
    OutcomesSame(cfg, ready.(parser := parser), s, os);
    if Terminated(s) {
      assert SameLog(s, s);
      OutcomesSame(cfg, s, s, os);
    } else {
      OutcomesKeepParser(cfg, ready.(parser := parser), os);
    }
  }

  lemma InvParts(cfg: Config, s: RunState)
    requires Inv(cfg, s)
    ensures Core(cfg, s) && Sound(cfg, s) && (s.listening ==> s.phase.Live?)
  {
  }

  lemma ReadyIsSame(cfg: Config, s: RunState)
    ensures var ready := ArmInactivity(cfg, ClearStartup(s)); ready == s.(bells := ready.bells)
  {
    hide Set, Clear;
  }

  lemma TerminateParser(cfg: Config, s: RunState)
    ensures TerminateProcess(cfg, s).parser == s.parser
    ensures forall body :: Finish(cfg, s, body).parser == s.parser
  {
  }

  lemma {:induction false} MessagesKeepParser(cfg: Config, s: RunState, ms: seq<M.Message>)
    ensures TakeMessages(cfg, s, ms).parser == s.parser
    decreases |ms|
  {
    hide M.Mapped, Deliver, Clear;
    if ms != [] { MessagesKeepParser(cfg, TakeMessage(cfg, s, ms[0]), ms[1..]); }
  }

  lemma {:induction false} OutcomesKeepParser(cfg: Config, s: RunState, os: seq<P.Outcome<M.Message>>)
    ensures TakeOutcomes(cfg, s, os).parser == s.parser
    decreases |os|
  {
    hide Finish, TerminateProcess;
    if os != [] {
      match os[0] {
        case Messages(ms) => MessagesKeepParser(cfg, s, ms);
        case OversizedLine => FailKeepsParser(cfg, s, LineOversized);
        case MessageLimitReached => FailKeepsParser(cfg, s, TooManyMessages);
        case TruncatedFinalLine => FailKeepsParser(cfg, s, StreamTruncated);
        case _ => FailKeepsParser(cfg, s.(malformed := s.malformed + 1), TooManyMalformed);
      }
      OutcomesKeepParser(cfg, TakeOutcome(cfg, s, os[0]), os[1..]);
    }
  }

  lemma FailKeepsParser(cfg: Config, s: RunState, f: Failure)
    ensures FailAndTerminate(cfg, s, f).parser == s.parser
  {
    TerminateParser(cfg, Finish(cfg, s, Failed(f)));
  }

  lemma ExecFirst(cfg: Config, s: RunState, chunks: seq<P.Text>)
    requires chunks != []
    ensures Exec(cfg, s, Chunks(chunks)) == Exec(cfg, Step(cfg, s, StdoutData(chunks[0])), Chunks(chunks[1..]))
  {
    hide Step;
    assert Chunks(chunks)[1..] == Chunks(chunks[1..]);
  }

  lemma ReportedInParts(a: P.ParserState<M.Message>, b: P.ParserState<M.Message>, c: P.ParserState<M.Message>)
    requires a.outcomes <= b.outcomes <= c.outcomes
    ensures Reported(a, c) == Reported(a, b) + Reported(b, c)
  {
  }

  /** Any number of chunks: the log is what all reported outcomes, concatenated, make of it. */
  lemma {:induction false} FeedIsOutcomes(cfg: Config, s: RunState, chunks: seq<P.Text>)
    requires Inv(cfg, s) && Listening(s)
    ensures SameLog(Exec(cfg, s, Chunks(chunks)),
                    TakeOutcomes(cfg, s, Reported(s.parser, P.AfterPushes(ParserConfig(cfg), s.parser, chunks))))
    decreases |chunks|
  {
    var pc := ParserConfig(cfg);
    var all := P.AfterPushes(pc, s.parser, chunks);
    InvParts(cfg, s);
    hide Inv, Step, TakeOutcome, P.AfterPush, Sound;
    if chunks == [] {
      assert Reported(s.parser, all) == [];
    } else {
      var t := Step(cfg, s, StdoutData(chunks[0]));
      var first := P.AfterPush(pc, s.parser, chunks[0]);
      DataSame(cfg, s, chunks[0]);
      ExecFirst(cfg, s, chunks);
      PushGrows(pc, s.parser, chunks[0]);
      PushesGrow(pc, first, chunks[1..]);
      hide Reported, Exec, TakeOutcomes, SameLog;
      ReportedInParts(s.parser, first, all);
      OutcomesAppend(cfg, s, Reported(s.parser, first), Reported(first, all));
      FeedRest(cfg, s, t, chunks);
    }
  }

  lemma FeedRest(cfg: Config, s: RunState, t: RunState, chunks: seq<P.Text>)
    requires Inv(cfg, t) && Listening(t) && Sound(cfg, s) && chunks != []
    requires var first := P.AfterPush(ParserConfig(cfg), s.parser, chunks[0]);
             SameLog(t, TakeOutcomes(cfg, s, Reported(s.parser, first))) && (!Terminated(t) ==> t.parser == first)
    ensures var pc := ParserConfig(cfg); var first := P.AfterPush(pc, s.parser, chunks[0]);
            SameLog(Exec(cfg, t, Chunks(chunks[1..])),
                    TakeOutcomes(cfg, TakeOutcomes(cfg, s, Reported(s.parser, first)),
                                 Reported(first, P.AfterPushes(pc, first, chunks[1..]))))
    decreases |chunks|, 0
  {
    var pc := ParserConfig(cfg);
    var first := P.AfterPush(pc, s.parser, chunks[0]);
    var mid := TakeOutcomes(cfg, s, Reported(s.parser, first));
    var rest := Reported(first, P.AfterPushes(pc, first, chunks[1..]));
    InvParts(cfg, t);
    hide Inv, Step, TakeOutcome, P.AfterPush, OutboxInv;
    assert SameLog(s, s);
    OutcomesSame(cfg, s, s, Reported(s.parser, first));
    OutcomesSame(cfg, t, mid, rest);
    if Terminated(t) {
      ExecKeeps(cfg, t, Chunks(chunks[1..]));
      InvParts(cfg, Exec(cfg, t, Chunks(chunks[1..])));
      OutcomesSame(cfg, mid, mid, rest);
    } else {
      FeedIsOutcomes(cfg, t, chunks[1..]);
    }
  }

  // --------------------------------------------------------------- reachable parsers

  ghost predicate ParserOpen(cfg: Config, s: RunState) {
    C.Open(ParserConfig(cfg), s.parser)
  }

  /** This step brings the second of exit and end of stdout, the drain timer standing in for the latter. */
  predicate Finalizes(s: RunState, input: Input) {
    Enabled(s, input) &&
    match input
    case StdoutEnd => s.exitInfo.Some?
    case Exit(_) => s.stdoutEnded
    case Fire(id) => s.bells.clock.armed[id].kind == Drain && s.exitInfo.Some?
    case _ => false
  }

  /** What a step does to the parser: stdout of a run that has not ended is pushed, its end is flushed, nothing else. */
  lemma ParserStep(cfg: Config, s: RunState, input: Input)
    ensures Step(cfg, s, input).parser ==
            if Terminated(s) then s.parser
            else if input.StdoutData? && Enabled(s, input) then P.AfterPush(ParserConfig(cfg), s.parser, input.text)
            else if Finalizes(s, input) then P.AfterFlush(s.parser)
            else s.parser
  {
    hide P.AfterPush, P.AfterFlush, Finish, TerminateProcess, Set, Clear, TakeOutcomes;
    var pc := ParserConfig(cfg);
    match input {
      case StdoutData(text) =>
        var ready := ArmInactivity(cfg, ClearStartup(s));
        var parser := P.AfterPush(pc, s.parser, text);
        OutcomesKeepParser(cfg, ready.(parser := parser), Reported(s.parser, parser));
      case StdoutEnd => FinalizeParser(cfg, s.(stdoutEnded := true, bells := Clear(s.bells, Drain)));
      case Exit(info) =>
        var exited := ClearStartup(s).(exitInfo := Some(info));
        FinalizeParser(cfg, if s.stdoutEnded then exited else exited.(bells := Set(exited.bells, Drain, cfg.drain)));
      case Fire(id) =>
        if Enabled(s, input) { FireParser(cfg, s, id); }
      case StdinError => FailKeepsParser(cfg, s.(stdinFailed := true), PromptLost); hide FailAndTerminate;
      case Cancel(who, reason) => TerminateParser(cfg, s.(cancel := Cancellation(true, true, who, reason)));
      case Iterate(launch) => StartKeepsParser(cfg, s, Passed, launch);
      case GateResolved(result, launch) => StartKeepsParser(cfg, s, result, launch); hide OnGate;
      case ProcessError => TerminateParser(cfg, ClearStartup(s));
      case _ =>
    }
  }

  lemma LaunchKeepsParser(cfg: Config, s: RunState, launch: Launch)
    ensures LaunchProcess(cfg, s, launch).parser == s.parser
  {
    hide Set, Clear, Deliver;
  }

  lemma StartKeepsParser(cfg: Config, s: RunState, result: GateResult, launch: Launch)
    ensures OnIterate(cfg, s, launch).parser == s.parser && OnGate(cfg, s, result, launch).parser == s.parser
  {
    LaunchKeepsParser(cfg, s, launch);
    hide LaunchProcess, Conclude, ClearAll;
  }

  lemma FireParser(cfg: Config, s: RunState, id: nat)
    requires id in s.bells.clock.armed
    ensures OnFire(cfg, s, id).parser ==
            if !Terminated(s) && s.bells.clock.armed[id].kind == Drain && s.exitInfo.Some? then P.AfterFlush(s.parser) else s.parser
  {
    hide TryFinalize, FailAndTerminate, P.AfterFlush;
    var rung := s.(bells := s.bells.(clock := Timers.Disarm(s.bells.clock, Some(id))));
    FinalizeParser(cfg, rung.(stdoutEnded := true));
    FailKeepsParser(cfg, rung, StartupSilence);
    FailKeepsParser(cfg, rung, TookTooLong);
    FailKeepsParser(cfg, rung, WentSilent);
  }

  lemma FinalizeParser(cfg: Config, s: RunState)
    ensures TryFinalize(cfg, s).parser ==
            if s.exitInfo.Some? && s.stdoutEnded && !Terminated(s) then P.AfterFlush(s.parser) else s.parser
  {
    hide TakeOutcomes, Conclude, ClearAll, P.AfterFlush;
    var parser := P.AfterFlush(s.parser);
    OutcomesKeepParser(cfg, s.(parser := parser), Reported(s.parser, parser));
  }

  lemma StaysOpen(cfg: Config, s: RunState, input: Input)
    requires ParserOpen(cfg, s)
    ensures ParserOpen(cfg, Step(cfg, s, input))
  {
    hide P.AfterPush, Step, C.Open;
    ParserStep(cfg, s, input);
    if input.StdoutData? { C.PushIsReference(ParserConfig(cfg), s.parser, input.text); }
    assert C.Open(ParserConfig(cfg), P.AfterFlush(s.parser)) by { FlushedIsOpen(cfg, s); }
  }

  lemma FlushedIsOpen(cfg: Config, s: RunState)
    ensures C.Open(ParserConfig(cfg), P.AfterFlush(s.parser))
  {
  }

  lemma {:induction false} ParserStaysOpen(cfg: Config, s: RunState, inputs: seq<Input>)
    requires ParserOpen(cfg, s)
    ensures ParserOpen(cfg, Exec(cfg, s, inputs))
    decreases |inputs|
  {
    if inputs != [] {
      hide Step, ParserOpen;
      StaysOpen(cfg, s, inputs[0]);
      ParserStaysOpen(cfg, Step(cfg, s, inputs[0]), inputs[1..]);
    }
  }

  /**
    From any reachable moment while stdout is attached: two ways of cutting the same text into
    chunks leave the same event log, terminal event and completion, as long as every closed line is
    within the line limit and the unfinished one at most one code unit over it. Kills and timers
    are not part of the claim.
   */
  lemma LogIsChunkIndependent(cfg: Config, inputs: seq<Input>, chunks: seq<P.Text>, others: seq<P.Text>)
    requires var s := After(cfg, inputs); Listening(s) && C.ChunkSafe(ParserConfig(cfg), s.parser, Flatten(chunks))
    requires Flatten(chunks) == Flatten(others)
    ensures var s := After(cfg, inputs);
            var a, b := Exec(cfg, s, Chunks(chunks)).out, Exec(cfg, s, Chunks(others)).out;
            a.queued == b.queued && a.completion == b.completion && a.closed == b.closed
  {
    var s := After(cfg, inputs);
    var pc := ParserConfig(cfg);
    Reachable(cfg, inputs);
    ParserStaysOpen(cfg, Initial(), inputs);
    hide Exec, Inv, C.ChunkSafe;
    C.PushesAreReference(pc, s.parser, chunks);
    C.PushesAreReference(pc, s.parser, others);
    FeedIsOutcomes(cfg, s, chunks);
    FeedIsOutcomes(cfg, s, others);
  }
}
