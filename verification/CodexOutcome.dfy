/**
  How a Codex run ends: what each cause makes of it, and that there is no other.
 */
module CodexOutcome {
  import opened Wrappers
  import opened Timers
  import opened Events
  import opened CodexLifecycle
  import opened CodexSafety
  import opened CodexGuarantees
  import opened CodexChunking
  import opened CodexStory
  import opened StreamOutcomes
  import P = StreamParsing
  import M = CodexMapping

  // ---------------------------------------------------------------------------- success

  /** Some line of stdout carried this message. */
  ghost predicate Reports(os: seq<P.Outcome<M.Message>>, m: M.Message) {
    exists k :: 0 <= k < |os| && os[k].Messages? && m in os[k].messages
  }

  lemma {:induction false} ItemIsReported(os: seq<P.Outcome<M.Message>>, n: nat, m: M.Message)
    requires n < |Items(os)| && Items(os)[n] == Said(m)
    ensures Reports(os, m)
    decreases |os|
  {
    var first := ItemsOf(os[0]);
    if n < |first| {
      assert os[0].Messages? && m == os[0].messages[n];
    } else {
      ItemIsReported(os[1..], n - |first|, m);
      var k :| 0 <= k < |os[1..]| && os[1..][k].Messages? && m in os[1..][k].messages;
      assert os[k + 1] == os[1..][k];
    }
  }

  /**
    A run that completes successfully does so because some stdout line said so, with that summary:
    no exit code, timer, cancellation or error can produce a success.
   */
  lemma CompletedMeansReported(cfg: Config, inputs: seq<Input>)
    ensures var s := After(cfg, inputs);
            s.out.completion.Some? && s.out.completion.value.body.RunCompleted? ==>
              Reports(s.parser.outcomes, M.ResultSuccess(s.out.completion.value.body.summary))
  {
    hide After, Inv, Reports, Emitted, Messages, Items, Fed;
    var s := After(cfg, inputs);
    var items := Items(s.parser.outcomes);
    AfterStory(cfg, inputs);
    if s.handle.Some? {
      LogIsTold(cfg, inputs);
      var n := FirstEnd(items);
      if n < |items| && EndBody(items, n).value.RunCompleted? {
        ItemIsReported(s.parser.outcomes, n, M.ResultSuccess(EndBody(items, n).value.summary));
      }
    }
  }

  // ----------------------------------------------------------------------- cancellation

  /** The first cancellation of a run, by whom and why. */
  function FirstCancel(inputs: seq<Input>): Option<(CancelledBy, Option<string>)> {
    if inputs == [] then None
    else
      var last := inputs[|inputs| - 1];
      var first := FirstCancel(inputs[..|inputs| - 1]);
      if first.None? && last.Cancel? then Some((last.who, last.reason)) else first
  }

  /** What the run remembers of cancellations is the first one, and a running one has acted on it. */
  ghost predicate Remembers(s: RunState, first: Option<(CancelledBy, Option<string>)>) {
    && (if first.None? then s.cancel == Cancellation(false, false, System, None)
        else s.cancel.recorded && s.cancel.who == first.value.0 && s.cancel.reason == first.value.1)
    && (s.handle.Some? && s.cancel.recorded && !Terminated(s) ==> s.cancel.requested)
    && (s.stdinFailed ==> s.handle.Some? && Terminated(s))
  }

  /** The cancellation and process fields after a step. */
  lemma StepRemembers(cfg: Config, s: RunState, input: Input)
    requires Inv(cfg, s) && Story(cfg, s)
    ensures var t := Step(cfg, s, input);
      && t.cancel == (if input.Cancel? && !s.cancel.recorded
                      then Cancellation(true, s.cancel.requested || (!s.phase.Idle? && !Terminated(s)), input.who, input.reason)
                      else s.cancel)
      && (s.handle.Some? || input.Cancel? ==> t.handle == s.handle)
      && (t.handle.Some? && s.handle.None? ==> !s.cancel.recorded)
      && (t.stdinFailed && !s.stdinFailed ==> t.handle.Some? && Terminated(t))
      && (Terminated(s) ==> Terminated(t))
  {
    hide Story, Set, Clear, OutboxInv, BellsInv, TryFinalize, FailAndTerminate, Conclude, TerminateProcess, OnData, LaunchProcess;
    StepPreserves(cfg, s, input);
    if !Enabled(s, input) { return; }
    match input {
      case Iterate(launch) => LaunchRemembers(cfg, s, launch);
      case GateResolved(result, launch) => LaunchRemembers(cfg, s, launch);
      case Cancel(who, reason) => TerminateTouches(cfg, s.(cancel := Cancellation(true, true, who, reason)));
      case StdoutData(text) => DataRemembers(cfg, s, text);
      case StdoutEnd => FinalizeRemembers(cfg, s.(stdoutEnded := true, bells := Clear(s.bells, Drain)));
      case Exit(info) =>
        var exited := ClearStartup(s).(exitInfo := Some(info));
        FinalizeRemembers(cfg, if s.stdoutEnded then exited else exited.(bells := Set(exited.bells, Drain, cfg.drain)));
      case StdinError => FailRemembers(cfg, s.(stdinFailed := true), PromptLost);
      case ProcessError =>
      case Fire(id) => FireRemembers(cfg, s, id);
      case _ =>
    }
  }

  /** The fields this is about. */
  predicate SameMemory(s: RunState, t: RunState) {
    t.cancel == s.cancel && t.handle == s.handle && t.stdinFailed == s.stdinFailed
  }

  lemma FailRemembers(cfg: Config, s: RunState, f: Failure)
    ensures SameMemory(s, FailAndTerminate(cfg, s, f)) && Terminated(FailAndTerminate(cfg, s, f))
  {
    TerminateTouches(cfg, Finish(cfg, s, Failed(f)));
    hide TerminateProcess;
  }

  lemma {:induction false} MessagesRemember(cfg: Config, s: RunState, ms: seq<M.Message>)
    ensures SameMemory(s, TakeMessages(cfg, s, ms))
    decreases |ms|
  {
    hide M.Mapped, Deliver, Clear;
    if ms != [] { MessagesRemember(cfg, TakeMessage(cfg, s, ms[0]), ms[1..]); }
  }

  lemma {:induction false} OutcomesRemember(cfg: Config, s: RunState, os: seq<P.Outcome<M.Message>>)
    ensures SameMemory(s, TakeOutcomes(cfg, s, os))
    decreases |os|
  {
    hide FailAndTerminate, TakeMessages;
    if os != [] {
      match os[0] {
        case Messages(ms) => MessagesRemember(cfg, s, ms);
        case OversizedLine => FailRemembers(cfg, s, LineOversized);
        case MessageLimitReached => FailRemembers(cfg, s, TooManyMessages);
        case TruncatedFinalLine => FailRemembers(cfg, s, StreamTruncated);
        case _ => FailRemembers(cfg, s.(malformed := s.malformed + 1), TooManyMalformed);
      }
      OutcomesRemember(cfg, TakeOutcome(cfg, s, os[0]), os[1..]);
    }
  }

  lemma DataRemembers(cfg: Config, s: RunState, text: P.Text)
    ensures SameMemory(s, OnData(cfg, s, text))
  {
    hide TakeOutcomes, P.AfterPush, Set, Clear;
    var ready := ArmInactivity(cfg, ClearStartup(s));
    var parser := P.AfterPush(ParserConfig(cfg), ready.parser, text);
    OutcomesRemember(cfg, ready.(parser := parser), Reported(ready.parser, parser));
  }

  lemma FinalizeRemembers(cfg: Config, s: RunState)
    ensures SameMemory(s, TryFinalize(cfg, s))
  {
    hide TakeOutcomes, P.AfterFlush, Conclude, ClearAll;
    OutcomesRemember(cfg, s.(parser := P.AfterFlush(s.parser)), Reported(s.parser, P.AfterFlush(s.parser)));
  }

  lemma FireRemembers(cfg: Config, s: RunState, id: nat)
    requires id in s.bells.clock.armed
    ensures SameMemory(s, OnFire(cfg, s, id))
  {
    hide TryFinalize, FailAndTerminate;
    var rung := s.(bells := s.bells.(clock := Disarm(s.bells.clock, Some(id))));
    FinalizeRemembers(cfg, rung.(stdoutEnded := true));
    FailRemembers(cfg, rung, StartupSilence);
    FailRemembers(cfg, rung, TookTooLong);
    FailRemembers(cfg, rung, WentSilent);
  }

  lemma LaunchRemembers(cfg: Config, s: RunState, launch: Launch)
    ensures var t := LaunchProcess(cfg, s, launch);
      && t.cancel == s.cancel && (t.stdinFailed && !s.stdinFailed ==> t.handle.Some? && Terminated(t))
  {
    hide Set, Clear, Deliver, Conclude, FailAndTerminate;
    if launch.Spawned? {
      var live := s.(phase := Live, liveAt := s.bells.clock.now, bells := Set(s.bells, MaxDuration, cfg.maxDuration),
                     os := s.os.(spawns := s.os.spawns + 1));
      FailRemembers(cfg, Supervise(cfg, live, launch.pid).(stdinFailed := true), PromptLost);
    }
  }

  lemma {:induction false} CancelIsHistory(cfg: Config, inputs: seq<Input>)
    ensures Remembers(After(cfg, inputs), FirstCancel(inputs))
    decreases |inputs|
  {
    hide After, Inv, Story, Step;
    if inputs == [] {
      NothingYet(cfg);
    } else {
      var before, last := inputs[..|inputs| - 1], inputs[|inputs| - 1];
      assert inputs == before + [last];
      CancelIsHistory(cfg, before);
      AfterSnoc(cfg, before, last);
      AfterStory(cfg, before);
      StepRemembers(cfg, After(cfg, before), last);
      SpawnedIsLive(cfg, After(cfg, before));
    }
  }

  lemma SpawnedIsLive(cfg: Config, s: RunState)
    requires Inv(cfg, s)
    ensures s.handle.Some? ==> s.phase.Live?
  {
  }

  // ------------------------------------------------------------------------- the endings

  ghost predicate EndsWith(out: Outbox, body: Body) {
    out.completion.Some? && out.completion.value.body == body
  }

  function AsBody(f: Failure): Body {
    RunFailed(f.code, f.message)
  }

  /** How a run ends that nothing has ended when exit and end of stdout are both in. */
  lemma FinalizedBody(cfg: Config, s: RunState)
    requires Story(cfg, s) && s.handle.Some? && OutboxInv(cfg.ctx, s.out) && !Terminated(s) && Final(s)
    ensures EndsWith(TryFinalize(cfg, s).out,
                     if !P.IsBlank(s.parser.buffer) then AsBody(StreamTruncated)
                     else if s.cancel.requested then RunCancelled(s.cancel.who, s.cancel.reason)
                     else if s.exitInfo.value.code == Some(0) then AsBody(ResultMissing)
                     else AsBody(ExitedWith(s.exitInfo.value.code)))
  {
    hide Story, OutboxInv, Conclude, ClearAll, P.IsBlank, FailAndTerminate;
    var parser := P.AfterFlush(s.parser);
    var now := s.(parser := parser);
    var os := Reported(s.parser, parser);
    RestIsReported(s.parser);
    if P.IsBlank(s.parser.buffer) {
      assert os == [] && TakeOutcomes(cfg, now, os) == now;
      StillOpen(cfg, s);
      var body := if s.cancel.requested then RunCancelled(s.cancel.who, s.cancel.reason)
                  else Failed(if s.exitInfo.value.code == Some(0) then ResultMissing else ExitedWith(s.exitInfo.value.code));
      Concluded(cfg.ctx, s.out, body);
    } else {
      assert os == [P.TruncatedFinalLine] && os[1..] == [];
      assert TakeOutcomes(cfg, now, os) == FailAndTerminate(cfg, now, StreamTruncated);
      FailEnds(cfg, now, StreamTruncated);
    }
  }

  lemma StillOpen(cfg: Config, s: RunState)
    requires OutboxInv(cfg.ctx, s.out) && !Terminated(s)
    ensures s.out.kit.terminal.None?
  {
  }

  lemma FailEnds(cfg: Config, s: RunState, f: Failure)
    requires OutboxInv(cfg.ctx, s.out) && !Terminated(s)
    ensures EndsWith(FailAndTerminate(cfg, s, f).out, AsBody(f)) && Terminated(FailAndTerminate(cfg, s, f))
  {
    Concluded(cfg.ctx, s.out, Failed(f));
    TerminateTouches(cfg, Finish(cfg, s, Failed(f)));
    hide TerminateProcess, OutboxInv;
  }

  /** The cause, other than stdout, for which an input ends a run that has a process; `None` if it does not. */
  function Cause(s: RunState, input: Input, cancelled: Option<(CancelledBy, Option<string>)>): Option<Body>
    requires Enabled(s, input)
  {
    if Finalizes(s, input) then
      var code := if input.Exit? then input.info.code else s.exitInfo.value.code;
      if !P.IsBlank(s.parser.buffer) then Some(AsBody(StreamTruncated))
      else if cancelled.Some? then Some(RunCancelled(cancelled.value.0, cancelled.value.1))
      else if code == Some(0) then Some(AsBody(ResultMissing))
      else Some(AsBody(ExitedWith(code)))
    else match input
      case StdinError => Some(AsBody(PromptLost))
      case ProcessError => Some(AsBody(ProcessCrashed))
      case Fire(id) =>
        (match s.bells.clock.armed[id].kind
         case Startup => Some(AsBody(StartupSilence))
         case MaxDuration => Some(AsBody(TookTooLong))
         case Inactivity => Some(AsBody(WentSilent))
         case _ => None)
      case _ => None
  }

  /**
    Every ending but stdout's own. A run with a process that has not ended is ended by the next callback
    exactly if that is a stdin or process error, one of three timers, or the second of exit and end of
    stdout (the drain timer standing in for the latter). In the last case an unfinished line makes it
    truncated; otherwise the first cancellation decides, with its origin and reason; otherwise the exit
    code: a missing result for 0, an unexpected exit for any other and for none.
   */
  lemma EndsBecause(cfg: Config, inputs: seq<Input>, last: Input)
    requires var s := After(cfg, inputs);
             s.handle.Some? && s.out.completion.None? && !last.StdoutData? && Enabled(s, last)
    ensures var s, t := After(cfg, inputs), After(cfg, inputs + [last]);
            var cause := Cause(s, last, FirstCancel(inputs));
            if cause.Some? then EndsWith(t.out, cause.value) else t.out.completion.None?
  {
    var s := After(cfg, inputs);
    AfterSnoc(cfg, inputs, last);
    AfterStory(cfg, inputs);
    CancelIsHistory(cfg, inputs);
    Core1(cfg, s);
    hide After, Story, Inv, OutboxInv, Set, Clear, TryFinalize, FailAndTerminate, Conclude, TerminateProcess, P.IsBlank, LaunchProcess;
    match last {
      case StdoutEnd =>
        var now := s.(stdoutEnded := true, bells := Clear(s.bells, Drain));
        QuietStory(cfg, s, now);
        if s.exitInfo.Some? { FinalizedBody(cfg, now); } else { NotYet(cfg, now); }
      case Exit(info) =>
        var exited := ClearStartup(s).(exitInfo := Some(info));
        var now := if s.stdoutEnded then exited else exited.(bells := Set(exited.bells, Drain, cfg.drain));
        QuietStory(cfg, s, now);
        if s.stdoutEnded { FinalizedBody(cfg, now); } else { NotYet(cfg, now); }
      case StdinError => FailEnds(cfg, s.(stdinFailed := true), PromptLost);
      case ProcessError => Concluded(cfg.ctx, s.out, Failed(ProcessCrashed));
      case Fire(id) => FireEnds(cfg, s, id, FirstCancel(inputs));
      case Cancel(who, reason) => CancelStory(cfg, s, who, reason); hide OnCancel;
      case _ =>
    }
  }

  lemma Core1(cfg: Config, s: RunState)
    requires Inv(cfg, s)
    ensures OutboxInv(cfg.ctx, s.out) && (Terminated(s) <==> s.out.completion.Some?)
    ensures s.handle.Some? ==> s.phase.Live?
  {
  }

  lemma NotYet(cfg: Config, s: RunState)
    requires s.exitInfo.None? || !s.stdoutEnded
    ensures TryFinalize(cfg, s) == s
  {
  }

  lemma FireEnds(cfg: Config, s: RunState, id: nat, cancelled: Option<(CancelledBy, Option<string>)>)
    requires Story(cfg, s) && s.handle.Some? && OutboxInv(cfg.ctx, s.out) && s.out.completion.None? && !Terminated(s)
    requires Enabled(s, Fire(id)) && Remembers(s, cancelled)
    ensures var cause := Cause(s, Fire(id), cancelled); var t := OnFire(cfg, s, id);
            if cause.Some? then EndsWith(t.out, cause.value) else t.out.completion.None?
  {
    hide Story, OutboxInv, TryFinalize, FailAndTerminate, P.IsBlank;
    var rung := s.(bells := s.bells.(clock := Disarm(s.bells.clock, Some(id))));
    FailEnds(cfg, rung, StartupSilence);
    FailEnds(cfg, rung, TookTooLong);
    FailEnds(cfg, rung, WentSilent);
    var now := rung.(stdoutEnded := true);
    QuietStory(cfg, s, now);
    if s.exitInfo.Some? { FinalizedBody(cfg, now); } else { NotYet(cfg, now); }
  }

  /**
    The outcome of a run that was left to exit: with stdout ending on a complete line and no terminal event
    before, the first cancellation ends it as cancelled, by whom and why; without one it fails, as a
    missing result exactly for exit code 0.
   */
  lemma ExitDecides(cfg: Config, inputs: seq<Input>, last: Input)
    requires var s := After(cfg, inputs);
             s.handle.Some? && s.out.completion.None? && Finalizes(s, last) && P.IsBlank(s.parser.buffer)
    ensures var out := After(cfg, inputs + [last]).out;
            var code := if last.Exit? then last.info.code else After(cfg, inputs).exitInfo.value.code;
      && out.completion.Some?
      && match FirstCancel(inputs)
         case Some((who, reason)) => out.completion.value.body == RunCancelled(who, reason)
         case None =>
           && out.completion.value.body.RunFailed?
           && out.completion.value.body.code == if code == Some(0) then "CODEX_RESULT_MISSING" else "CODEX_PROCESS_EXITED"
  {
    EndsBecause(cfg, inputs, last);
    hide After, P.IsBlank, Step;
  }

  // -------------------------------------------------------------------------- the start

  /** What launching makes of the log: nothing but a failure if there is no process, else the start, and a lost prompt. */
  function LaunchLog(launch: Launch): seq<Body> {
    match launch
    case SpawnThrows => [AsBody(NotStarted)]
    case Spawned(_, writeThrows) => if writeThrows then [RunStarted, AsBody(PromptLost)] else [RunStarted]
  }

  /** What the gate's answer makes of the log when no process is to be started; `None` if one is. */
  function GateLog(result: GateResult, cancelled: Option<(CancelledBy, Option<string>)>): Option<seq<Body>> {
    if cancelled.Some? then Some([RunCancelled(cancelled.value.0, cancelled.value.1)])
    else match result
      case Passed => None
      case GateThrew => Some([AsBody(NotPrepared)])
      case Refused(true, _) => Some([RunCancelled(System, None)])
      case Refused(false, failure) => Some([AsBody(if failure.Some? then failure.value else GateRefused)])
  }

  /**
    How a run starts. Its first iteration ends a cancelled run, waits for the gate if there is one, and
    otherwise spawns; the gate's answer ends the run or spawns.
   */
  lemma StartDecides(cfg: Config, inputs: seq<Input>, last: Input)
    requires var s := After(cfg, inputs); (s.phase.Idle? && last.Iterate?) || (s.phase.Gating? && last.GateResolved?)
    ensures var s, t := After(cfg, inputs), After(cfg, inputs + [last]); var cancelled := FirstCancel(inputs);
            if last.Iterate? && cancelled.None? && cfg.hasGate then t == s.(phase := Gating)
            else
              var refusal := if last.Iterate? then GateLog(Passed, cancelled) else GateLog(last.result, cancelled);
              if refusal.Some? then Bodies(t.out.queued) == refusal.value && t.os.spawns == 0
              else Bodies(t.out.queued) == LaunchLog(if last.Iterate? then last.launch else last.gateLaunch) && t.os.spawns == 1
  {
    var s := After(cfg, inputs);
    AfterSnoc(cfg, inputs, last);
    AfterStory(cfg, inputs);
    CancelIsHistory(cfg, inputs);
    Untouched(cfg, s);
    var launch := if last.Iterate? then last.launch else last.gateLaunch;
    LaunchTells(cfg, s, launch);
    hide After, Story, Inv, LaunchProcess, ClearAll, Conclude, OutboxInv, Bodies;
    Alone(cfg, s.out, RunCancelled(s.cancel.who, s.cancel.reason));
    Alone(cfg, s.out, AsBody(NotPrepared));
    if last.GateResolved? && last.result.Refused? {
      Alone(cfg, s.out, AsBody(if last.result.failure.Some? then last.result.failure.value else GateRefused));
    }
  }

  lemma Untouched(cfg: Config, s: RunState)
    requires Inv(cfg, s) && (s.phase.Idle? || s.phase.Gating?)
    ensures s.handle.None? && !Terminated(s) && s.out.queued == [] && s.os == OsLog(0, 0, 0) && OutboxInv(cfg.ctx, s.out)
  {
  }

  lemma Alone(cfg: Config, out: Outbox, body: Body)
    requires OutboxInv(cfg.ctx, out) && out.kit.terminal.None? && out.queued == [] && IsTerminal(body)
    ensures Bodies(Conclude(cfg.ctx, out, body).queued) == [body]
  {
    DeliverBodies(cfg.ctx, out, body);
    assert [] + [body] == [body];
  }

  lemma LaunchTells(cfg: Config, s: RunState, launch: Launch)
    requires Story(cfg, s) && s.handle.None? && OutboxInv(cfg.ctx, s.out) && !Terminated(s) && s.out.queued == [] && s.os.spawns == 0
    ensures Bodies(LaunchProcess(cfg, s, launch).out.queued) == LaunchLog(launch)
    ensures LaunchProcess(cfg, s, launch).os.spawns == 1
  {
    hide Set, Clear, Conclude, Deliver, OutboxInv, Bodies;
    if launch.SpawnThrows? {
      Alone(cfg, s.out, AsBody(NotStarted));
    } else {
      var live := s.(phase := Live, liveAt := s.bells.clock.now, bells := Set(s.bells, MaxDuration, cfg.maxDuration),
                     os := s.os.(spawns := s.os.spawns + 1));
      var ready := Supervise(cfg, live, launch.pid).(stdinFailed := true);
      DeliverKeeps(cfg.ctx, s.out, RunStarted);
      DeliverBodies(cfg.ctx, s.out, RunStarted);
      NothingQueued(s.out);
      DeliverBodies(cfg.ctx, ready.out, AsBody(PromptLost));
      TerminateTouches(cfg, Finish(cfg, ready, Failed(PromptLost)));
      SpawnsOnce(cfg, Finish(cfg, ready, Failed(PromptLost)));
      hide TerminateProcess;
      assert [RunStarted] + [AsBody(PromptLost)] == [RunStarted, AsBody(PromptLost)];
    }
  }

  lemma SpawnsOnce(cfg: Config, s: RunState)
    ensures TerminateProcess(cfg, s).os.spawns == s.os.spawns
  {
  }
}
