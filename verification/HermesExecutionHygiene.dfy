/**
  Which timers of a raw Hermes run outlive its settlement: none, unless a cancellation was accepted
  while a failure's cleanup was already under way.
 */
module HermesExecutionHygiene {
  import opened Wrappers
  import opened Timers
  import opened HermesProtocol
  import opened HermesTrace
  import opened HermesExecution
  import opened HermesExecutionSafety
  import opened HermesExecutionGuarantees

  predicate NamedByFields(f: Fields, id: nat) {
    Some(id) in {f.run, f.cleanup, f.force, f.drain}
  }

  /** Armed, but its handle has been overwritten. */
  predicate Stray(s: RunState, id: nat) {
    id in s.clock.armed && !NamedByFields(s.timers, id)
  }

  // ------------------------------------------------------- what settling leaves behind

  /** If `t` is settled, it has the armed timers of `s` except those the fields of `s` name. */
  ghost predicate Clears(s: RunState, t: RunState) {
    Settled(t) ==> forall id :: id in t.clock.armed <==> Stray(s, id)
  }

  lemma SettleClears(s: RunState)
    requires !Settled(s)
    ensures Clears(s, SettleFailure(s)) && Settled(SettleFailure(s)) && Clears(s, ClearTimers(s))
  {
  }

  /** Disarming a named timer beforehand makes no difference. */
  lemma ClearsEarlier(s: RunState, early: RunState, t: RunState, named: Option<nat>)
    requires early.clock == Disarm(s.clock, named) && early.timers == s.timers && (named.Some? ==> NamedByFields(s.timers, named.value))
    requires Clears(early, t)
    ensures Clears(s, t)
  {
  }

  lemma FailureClears(cfg: Settings, s: RunState, code: ErrorCode)
    requires !Settled(s)
    ensures Clears(s, BeginFailure(cfg, s, code)) && Clears(s, FailImmediately(s, code))
  {
    hide SettleFailure;
    SettleClears(s.(failure := Some(code)));
    var run := s.(clock := Disarm(s.clock, s.timers.run));
    var failing := s.(failure := Some(code), closed := true, clock := Disarm(run.clock, s.timers.drain));
    SettleClears(failing);
    ClearsEarlier(run, failing, SettleFailure(failing), s.timers.drain);
    ClearsEarlier(s, run, SettleFailure(failing), s.timers.run);
  }

  lemma CompletionClears(cfg: Settings, s: RunState)
    requires !Settled(s)
    ensures Clears(s, MaybeComplete(cfg, s))
  {
    hide BeginFailure;
    FailureClears(cfg, s, ProcessExited);
  }

  lemma FinishStdoutClears(cfg: Settings, s: RunState)
    requires !Settled(s)
    ensures Clears(s, FinishStdout(cfg, s))
  {
    hide BeginFailure, MaybeComplete, AfterFinish;
    var t := s.(stdoutEnded := true, parser := AfterFinish(cfg.parser, s.parser));
    if t.parser.error.Some? { FailureClears(cfg, t, t.parser.error.value); }
    CompletionClears(cfg, t);
  }

  lemma DataClears(cfg: Settings, s: RunState, chunk: Option<seq<Byte>>)
    requires !Settled(s)
    ensures Clears(s, OnData(cfg, s, chunk))
  {
    hide BeginFailure, AfterPush, Enqueue;
    FailureClears(cfg, s, InvalidUtf8);
    if chunk.Some? {
      var parser := AfterPush(cfg.parser, s.parser, chunk.value);
      var events := if |s.parser.accepted| <= |parser.accepted| then parser.accepted[|s.parser.accepted|..] else [];
      var (queued, closed) := Enqueue(s.queued, s.closed, events);
      if parser.error.Some? {
        FailureClears(cfg, s.(parser := parser, queued := queued, closed := closed, chunks := s.chunks + [chunk.value]), parser.error.value);
      }
    }
  }

  lemma ExitClears(cfg: Settings, s: RunState, info: ExitInfo)
    requires !Settled(s)
    ensures Clears(s, OnExit(cfg, s, info))
  {
    hide SettleFailure, MaybeComplete;
    var exited := s.(exit := Some(info), clock := Disarm(s.clock, s.timers.run));
    SettleClears(exited);
    CompletionClears(cfg, exited);
    ClearsEarlier(s, exited, SettleFailure(exited), s.timers.run);
    ClearsEarlier(s, exited, MaybeComplete(cfg, exited), s.timers.run);
  }

  lemma EndClears(cfg: Settings, s: RunState)
    requires !Settled(s)
    ensures Clears(s, OnEnd(cfg, s))
  {
    hide FinishStdout;
    var early := s.(clock := Disarm(s.clock, s.timers.drain));
    FinishStdoutClears(cfg, early);
    ClearsEarlier(s, early, FinishStdout(cfg, early), s.timers.drain);
  }

  lemma FireClears(cfg: Settings, s: RunState, id: nat)
    requires !Settled(s) && id in s.clock.armed
    ensures Clears(s.(clock := Disarm(s.clock, Some(id))), OnFire(cfg, s, id))
  {
    hide BeginFailure, FinishStdout, SettleFailure;
    var rung := s.(clock := Disarm(s.clock, Some(id)));
    FailureClears(cfg, rung, TimedOut);
    FinishStdoutClears(cfg, rung);
    SettleClears(rung);
    SettleClears(rung.(failure := Some(ProcessExited), closed := true));
  }

  /**
    Exactly what survives settlement: the step that settles a run disarms every timer but the stray
    ones, so it leaves none if and only if no timer other than the one now firing was stray.
   */
  lemma StraysSurvive(cfg: Settings, s: RunState, input: Input)
    requires !Settled(s) && Settled(Step(cfg, s, input))
    ensures var t := Step(cfg, s, input);
            && (forall id :: id in t.clock.armed <==> Stray(s, id) && input != Fire(id))
            && (t.clock.armed == map[] <==> forall id :: Stray(s, id) ==> input == Fire(id))
  {
    hide Inv, OnData, OnEnd, OnExit, OnFire, BeginFailure, FailImmediately, NamedByFields;
    match input {
      case Data(chunk) => DataClears(cfg, s, chunk);
      case End => EndClears(cfg, s);
      case StdinError => FailureClears(cfg, s, StdinFailed);
      case ProcessError => FailureClears(cfg, s, SpawnFailed);
      case Exit(info) => ExitClears(cfg, s, info);
      case Cancel =>
      case Fire(id) => FireClears(cfg, s, id);
      case Pass(to) =>
    }
  }

  // ------------------------------------------------------------- when there are no strays

  /** With one cleanup chain at most, every cleanup or force timer is named, and forcing comes after cleanup. */
  ghost predicate Tidy(s: RunState) {
    && (s.terminations == 0 <==> s.timers.cleanup.None?)
    && (s.terminations == 0 ==> s.timers.force.None?)
    && (s.terminations > 0 ==> s.failure.Some? || s.cancellationRequested)
    && (s.terminations > 1 ==> s.cancellationRequested)
    && s.terminations <= 2
    && (s.terminations <= 1 ==>
          && (forall id :: !Stray(s, id))
          && (forall id | id in s.clock.armed && s.clock.armed[id].kind.Cleanup? :: s.timers.cleanup == Some(id) && s.timers.force.None?)
          && (forall id | id in s.clock.armed && s.clock.armed[id].kind.Force? :: s.timers.force == Some(id))
          && (Settled(s) ==> s.clock.armed == map[]))
  }

  lemma TidyDisarm(s: RunState, named: Option<nat>)
    requires Tidy(s)
    ensures Tidy(s.(clock := Disarm(s.clock, named)))
  {
    var t := s.(clock := Disarm(s.clock, named));
    forall id ensures Stray(t, id) ==> Stray(s, id) { }
    if Settled(s) && s.terminations <= 1 { assert t.clock.armed == map[]; }
  }

  lemma TidySettle(s: RunState)
    requires Tidy(s) && !Settled(s)
    ensures Tidy(SettleFailure(s)) && Tidy(FailImmediately(s, SpawnFailed)) && Tidy(FailImmediately(s, InvalidInput))
  {
    hide NamedByFields;
    SettleClears(s);
    SettleClears(s.(failure := Some(SpawnFailed)));
    SettleClears(s.(failure := Some(InvalidInput)));
  }

  lemma TidyCleanup(cfg: Settings, s: RunState, byCancel: bool)
    requires Tidy(s) && Sound(s.clock) && !Settled(s) && s.terminations <= 1
    requires s.failure.Some? || s.cancellationRequested
    requires s.terminations == 1 ==> s.cancellationRequested
    ensures Tidy(StartCleanup(cfg, s, byCancel))
  {
    var t := StartCleanup(cfg, s, byCancel);
    if t.terminations <= 1 {
      forall id ensures !Stray(t, id) { assert !Stray(s, id); }
    }
  }

  /** Recording a failure, closing the queue and moving on in the process's life leave the timers alone. */
  lemma TidyAnyway(s: RunState, t: RunState)
    requires Tidy(s) && !Settled(s) && !Settled(t)
    requires t.clock == s.clock && t.timers == s.timers && t.terminations == s.terminations
    requires t.cancellationRequested == s.cancellationRequested && (s.failure.Some? ==> t.failure.Some?)
    ensures Tidy(t)
  {
    forall id ensures Stray(t, id) == Stray(s, id) { }
  }

  lemma TidyFailure(cfg: Settings, s: RunState, code: ErrorCode)
    requires Tidy(s) && Sound(s.clock)
    ensures Tidy(BeginFailure(cfg, s, code))
  {
    if !Settled(s) && s.failure.None? {
      NoChainYet(s);
      hide Tidy, SettleFailure, StartCleanup;
      var failed := s.(failure := Some(code), closed := true);
      TidyAnyway(s, failed);
      TidyDisarm(failed, s.timers.run);
      var run := failed.(clock := Disarm(s.clock, s.timers.run));
      TidyDisarm(run, s.timers.drain);
      var failing := run.(clock := Disarm(run.clock, s.timers.drain));
      TidySettle(failing);
      TidyAnyway(failing, failing.(process := Terminating));
      if s.timers.cleanup.None? { TidyCleanup(cfg, failing.(process := Terminating), false); }
    }
  }

  lemma NoChainYet(s: RunState)
    requires Tidy(s)
    ensures s.timers.cleanup.None? <==> s.terminations == 0
  {
  }

  lemma TidyCompletion(cfg: Settings, s: RunState)
    requires Tidy(s) && Sound(s.clock)
    ensures Tidy(MaybeComplete(cfg, s))
  {
    hide BeginFailure, NamedByFields;
    TidyFailure(cfg, s, ProcessExited);
    if !Settled(s) { CompletionClears(cfg, s); }
  }

  lemma TidyFinish(cfg: Settings, s: RunState)
    requires Tidy(s) && Sound(s.clock) && !Settled(s)
    ensures Tidy(FinishStdout(cfg, s))
  {
    hide Tidy, BeginFailure, MaybeComplete, AfterFinish;
    var t := s.(stdoutEnded := true, parser := AfterFinish(cfg.parser, s.parser));
    TidyAnyway(s, t);
    if t.parser.error.Some? { TidyFailure(cfg, t, t.parser.error.value); } else { TidyCompletion(cfg, t); }
  }

  lemma TidyData(cfg: Settings, s: RunState, chunk: Option<seq<Byte>>)
    requires Tidy(s) && Sound(s.clock) && !Settled(s)
    ensures Tidy(OnData(cfg, s, chunk))
  {
    hide Tidy, BeginFailure, AfterPush, Enqueue;
    if chunk.None? {
      TidyFailure(cfg, s, InvalidUtf8);
    } else {
      var parser := AfterPush(cfg.parser, s.parser, chunk.value);
      var events := if |s.parser.accepted| <= |parser.accepted| then parser.accepted[|s.parser.accepted|..] else [];
      var (queued, closed) := Enqueue(s.queued, s.closed, events);
      var t := s.(parser := parser, queued := queued, closed := closed, chunks := s.chunks + [chunk.value]);
      TidyAnyway(s, t);
      if parser.error.Some? { TidyFailure(cfg, t, parser.error.value); }
    }
  }

  lemma TidyEnd(cfg: Settings, s: RunState)
    requires Tidy(s) && Sound(s.clock)
    ensures Tidy(OnEnd(cfg, s))
  {
    hide Tidy, FinishStdout;
    TidyDisarm(s, s.timers.drain);
    if !s.stdoutEnded && !Settled(s) { TidyFinish(cfg, s.(clock := Disarm(s.clock, s.timers.drain))); }
  }

  /** No drain timer is armed before the exit, so setting one strands nothing. */
  lemma TidyDrain(cfg: Settings, s: RunState)
    requires Tidy(s) && Sound(s.clock) && !Settled(s) && !Rings(s.clock, Drain) && NamedBy(s.clock, s.timers.drain, Drain)
    requires s.timers.drain.Some? ==> s.timers.drain.value !in s.clock.armed
    ensures Tidy(s.(timers := s.timers.(drain := Some(s.clock.nextId)), clock := Arm(s.clock, Drain, cfg.drain)))
  {
    var t := s.(timers := s.timers.(drain := Some(s.clock.nextId)), clock := Arm(s.clock, Drain, cfg.drain));
    if s.terminations <= 1 {
      forall id ensures !Stray(t, id) { assert !Stray(s, id); }
    }
  }

  lemma TidyExit(cfg: Settings, s: RunState, info: ExitInfo)
    requires Tidy(s) && ClockInv(s) && s.exit.None?
    ensures Tidy(OnExit(cfg, s, info))
  {
    if !Settled(s) {
      NoDrainBeforeExit(s);
      var exited := s.(exit := Some(info), clock := Disarm(s.clock, s.timers.run));
      hide Tidy, SettleFailure, MaybeComplete;
      TidyDisarm(s, s.timers.run);
      TidyAnyway(s.(clock := Disarm(s.clock, s.timers.run)), exited);
      if s.failure.Some? { TidySettle(exited); } else if s.stdoutEnded { TidyCompletion(cfg, exited); } else { TidyDrain(cfg, exited); }
    }
  }

  lemma NoDrainBeforeExit(s: RunState)
    requires ClockInv(s) && s.exit.None?
    ensures var c := Disarm(s.clock, s.timers.run);
            !Rings(c, Drain) && NamedBy(c, s.timers.drain, Drain) && (s.timers.drain.Some? ==> s.timers.drain.value !in c.armed)
  {
    assert !Rings(s.clock, Drain);
    assert forall id | id in s.clock.armed :: s.clock.armed[id].kind != Drain;
  }

  lemma TidyCancel(cfg: Settings, s: RunState)
    requires Tidy(s) && Sound(s.clock)
    ensures Tidy(OnCancel(cfg, s))
  {
    if !Settled(s) && !s.cancellationRequested && s.parser.terminal.None? {
      var requested := s.(cancellationRequested := true);
      TidyRequested(s, requested);
      TidyRequested(s, requested.(process := Terminating));
      if s.spawned && s.exit.None? {
        TidyCleanup(cfg, requested.(process := Terminating), true);
      }
      hide Tidy, StartCleanup;
    }
  }

  lemma TidyRequested(s: RunState, t: RunState)
    requires Tidy(s) && !Settled(s) && !s.cancellationRequested && t == s.(cancellationRequested := true, process := t.process)
    ensures Tidy(t) && s.terminations <= 1
  {
    forall id ensures Stray(t, id) == Stray(s, id) { }
  }

  /** The cleanup timer of the only chain fires: nothing had set a force timer before it. */
  lemma TidyForce(cfg: Settings, s: RunState, id: nat)
    requires Tidy(s) && Sound(s.clock) && id in s.clock.armed && s.clock.armed[id].kind.Cleanup?
    ensures Tidy(OnFire(cfg, s, id))
  {
    var t := OnFire(cfg, s, id);
    if s.terminations <= 1 {
      forall other ensures !Stray(t, other) { assert !Stray(s, other); }
    }
  }

  lemma TidyFire(cfg: Settings, s: RunState, id: nat)
    requires Tidy(s) && Sound(s.clock) && id in s.clock.armed
    requires s.clock.armed[id].kind.Drain? ==> !Settled(s)
    ensures Tidy(OnFire(cfg, s, id))
  {
    var rung := s.(clock := Disarm(s.clock, Some(id)));
    match s.clock.armed[id].kind {
      case Cleanup(_) => TidyForce(cfg, s, id);
      case _ =>
        hide Tidy, BeginFailure, FinishStdout, SettleFailure;
        TidyDisarm(s, Some(id));
        TidyFailure(cfg, rung, TimedOut);
        if !Settled(s) {
          TidyFinish(cfg, rung);
          TidySettle(rung);
          var failed := rung.(failure := Some(ProcessExited), closed := true);
          TidyAnyway(rung, failed);
          TidySettle(failed);
        }
    }
  }

  lemma TidyPass(s: RunState, to: real)
    requires Tidy(s)
    ensures Tidy(s.(clock := s.clock.(now := to)))
  {
    forall id ensures Stray(s.(clock := s.clock.(now := to)), id) == Stray(s, id) { }
  }

  lemma SettledRingsNoDrain(s: RunState, id: nat)
    requires ClockInv(s) && id in s.clock.armed && s.clock.armed[id].kind.Drain?
    ensures !Settled(s)
  {
    assert Rings(s.clock, Drain);
  }

  lemma TidyStep(cfg: Settings, s: RunState, input: Input)
    requires Inv(cfg, s) && Tidy(s)
    ensures Tidy(Step(cfg, s, input))
  {
    hide Tidy, OnData, OnEnd, OnExit, OnCancel, OnFire, BeginFailure, FailImmediately, Parse, ParserShape;
    if Enabled(s, input) {
      match input {
        case Data(chunk) => TidyData(cfg, s, chunk);
        case End => TidyEnd(cfg, s);
        case StdinError => TidyFailure(cfg, s, StdinFailed);
        case ProcessError => if Settled(s) { SettledFailsNoMore(s); } else { TidySettle(s); }
        case Exit(info) => TidyExit(cfg, s, info);
        case Cancel => TidyCancel(cfg, s);
        case Fire(id) =>
          if s.clock.armed[id].kind.Drain? { SettledRingsNoDrain(s, id); }
          TidyFire(cfg, s, id);
        case Pass(to) => TidyPass(s, to);
      }
    }
  }

  lemma TidyBegin(cfg: Settings, launch: Launch)
    ensures Tidy(Begin(cfg, launch))
  {
    assert Tidy(Blank);
    match launch {
      case BadInput => TidySettle(Blank);
      case SpawnThrows => TidySettle(Blank);
      case Spawned(stdinThrows) =>
        var running := Blank.(spawned := true, process := Running);
        assert Tidy(running);
        if stdinThrows { TidyFailure(cfg, running, StdinFailed); }
    }
  }

  lemma {:induction false} TidyExec(cfg: Settings, s: RunState, inputs: seq<Input>)
    requires Inv(cfg, s) && Tidy(s)
    ensures Tidy(Exec(cfg, s, inputs))
    decreases |inputs|
  {
    if inputs != [] {
      hide Inv, Tidy, Step;
      StepKeeps(cfg, s, inputs[0]);
      TidyStep(cfg, s, inputs[0]);
      TidyExec(cfg, Step(cfg, s, inputs[0]), inputs[1..]);
    }
  }

  /**
    A run asks its process to terminate at most twice, the second time only for a cancellation; if
    it asked at most once, no timer is ever stray, and none is armed once the run has settled.
   */
  lemma OneChainLeavesNothing(cfg: Settings, launch: Launch, inputs: seq<Input>)
    ensures var s := After(cfg, launch, inputs);
            && s.terminations <= 2 && (s.terminations == 2 ==> s.cancellationRequested)
            && (s.terminations <= 1 ==> forall id :: !Stray(s, id))
            && (s.terminations <= 1 && Settled(s) ==> s.clock.armed == map[])
  {
    AfterIsTidy(cfg, launch, inputs);
  }

  lemma AfterIsTidy(cfg: Settings, launch: Launch, inputs: seq<Input>)
    ensures Tidy(After(cfg, launch, inputs))
  {
    hide Inv, Tidy, Begin, Exec;
    BeginKeeps(cfg, launch);
    TidyBegin(cfg, launch);
    TidyExec(cfg, Begin(cfg, launch), inputs);
  }

  /** With a cleanup timer set once, no failure starts another chain. */
  lemma OnlyCancelStartsAnother(cfg: Settings, s: RunState, input: Input)
    requires s.timers.cleanup.Some? && !input.Cancel?
    ensures Step(cfg, s, input).terminations == s.terminations
  {
    hide OnData, OnFire, Disarm, AfterFinish;
    match input {
      case Data(chunk) => DataStartsNone(cfg, s, chunk);
      case Fire(id) => if Enabled(s, input) { FireStartsNone(cfg, s, id); }
      case _ =>
    }
  }

  lemma DataStartsNone(cfg: Settings, s: RunState, chunk: Option<seq<Byte>>)
    requires s.timers.cleanup.Some?
    ensures OnData(cfg, s, chunk).terminations == s.terminations
  {
    hide Disarm, AfterPush, Enqueue;
  }

  lemma FireStartsNone(cfg: Settings, s: RunState, id: nat)
    requires s.timers.cleanup.Some? && id in s.clock.armed
    ensures OnFire(cfg, s, id).terminations == s.terminations
  {
    hide Disarm, Arm, FinishStdout;
    FinishStartsNone(cfg, s.(clock := Disarm(s.clock, Some(id))));
  }

  lemma FinishStartsNone(cfg: Settings, s: RunState)
    requires s.timers.cleanup.Some?
    ensures FinishStdout(cfg, s).terminations == s.terminations
  {
    hide Disarm, Arm, AfterFinish;
  }

  /** The second chain begins exactly when a cancellation is accepted while a failing process has not exited. */
  lemma SecondChainIsLateCancel(cfg: Settings, launch: Launch, inputs: seq<Input>, input: Input)
    ensures var s := After(cfg, launch, inputs);
            s.terminations == 1 ==>
              (Step(cfg, s, input).terminations == 2 <==>
                 input.Cancel? && !Settled(s) && s.failure.Some? && !s.cancellationRequested
                 && s.parser.terminal.None? && s.exit.None?)
  {
    var s := After(cfg, launch, inputs);
    Reachable(cfg, launch, inputs);
    OneChainLeavesNothing(cfg, launch, inputs);
    AfterIsTidy(cfg, launch, inputs);
    hide After, ClockInv, DataInv, EndInv, Stray;
    if s.terminations == 1 && !input.Cancel? {
      OnlyCancelStartsAnother(cfg, s, input);
      hide Step;
    }
  }

  /** And it can leave a timer: the forgotten cleanup timer of the failure is still armed after the run has settled. */
  lemma LateCancelLeaks(cfg: Settings, info: ExitInfo)
    ensures var s := After(cfg, Spawned(false), [StdinError, Cancel, Exit(info)]);
            Settled(s) && s.terminations == 2 && exists id :: id in s.clock.armed && s.clock.armed[id].kind == Cleanup(false)
  {
    var start := Begin(cfg, Spawned(false));
    var failed := Step(cfg, start, StdinError);
    assert failed.clock.armed.Keys == {1} && failed.clock.armed[1].kind == Cleanup(false);
    var cancelled := Step(cfg, failed, Cancel);
    assert cancelled.clock.armed.Keys == {1, 2} && cancelled.timers.cleanup == Some(2) && cancelled.clock.armed[1].kind == Cleanup(false);
    var settled := Step(cfg, cancelled, Exit(info));
    assert 1 in settled.clock.armed;
    ThreeSteps(cfg, start, StdinError, Cancel, Exit(info));
  }

  lemma ThreeSteps(cfg: Settings, s: RunState, a: Input, b: Input, c: Input)
    ensures Exec(cfg, s, [a, b, c]) == Step(cfg, Step(cfg, Step(cfg, s, a), b), c)
  {
    hide Step;
    assert [a, b, c][1..] == [b, c] && [b, c][1..] == [c] && [c][1..] == [];
    assert Exec(cfg, s, [a, b, c]) == Exec(cfg, Step(cfg, s, a), [b, c]) == Exec(cfg, Step(cfg, Step(cfg, s, a), b), [c]);
  }
}
