/**
  What the raw Hermes run promises: it settles in bounded time, once, and successfully only for
  a cleanly parsed trace and a matching exit.
 */
module HermesExecutionGuarantees {
  import opened Wrappers
  import opened Lines
  import opened Timers
  import opened HermesProtocol
  import opened HermesTrace
  import opened HermesExecution
  import opened HermesExecutionSafety

  /** What one step may do to the outcome: nothing, once there is one. */
  ghost predicate Keeps(cfg: Settings, s: RunState, t: RunState) {
    && Inv(cfg, t) && s.queued <= t.queued
    && (Settled(s) ==> t.settlement == s.settlement && t.queued == s.queued && t.closed)
  }

  lemma SettledStays(cfg: Settings, s: RunState, input: Input)
    requires Inv(cfg, s) && Settled(s)
    ensures var t := Step(cfg, s, input); t.settlement == s.settlement && t.queued == s.queued && t.closed
  {
    hide BeginFailure, MaybeComplete, FinishStdout, ClearTimers, AfterPush, Parse, ParserShape;
    if Enabled(s, input) && input.Fire? {
      assert Rings(s.clock, s.clock.armed[input.id].kind);
    }
  }

  lemma StepKeeps(cfg: Settings, s: RunState, input: Input)
    requires Inv(cfg, s)
    ensures Keeps(cfg, s, Step(cfg, s, input))
  {
    if Settled(s) { SettledStays(cfg, s, input); }
    hide Inv, OnData, OnEnd, OnExit, OnCancel, OnFire, BeginFailure, FailImmediately;
    if Enabled(s, input) {
      match input {
        case Data(chunk) => DataKeeps(cfg, s, chunk);
        case End => EndKeeps(cfg, s);
        case StdinError => ErrorKeeps(cfg, s);
        case ProcessError => ErrorKeeps(cfg, s);
        case Exit(info) => ExitKeeps(cfg, s, info);
        case Cancel => CancelKeeps(cfg, s);
        case Fire(id) => FireKeeps(cfg, s, id);
        case Pass(to) => PassKeeps(cfg, s, to);
      }
    }
  }

  lemma ErrorKeeps(cfg: Settings, s: RunState)
    requires Inv(cfg, s)
    ensures Inv(cfg, FailImmediately(s, SpawnFailed)) && FailImmediately(s, SpawnFailed).queued == s.queued
    ensures !Settled(s) ==> Inv(cfg, BeginFailure(cfg, s, StdinFailed)) && BeginFailure(cfg, s, StdinFailed).queued == s.queued
  {
    hide BeginFailure, FailImmediately, SettleFailure, Parse, ParserShape, NamedBy, ChainAlive;
    if !Settled(s) {
      LiveIsTimely(cfg, s);
      ForceSettleKeeps(cfg, s, SpawnFailed);
      if s.failure.None? { BeginFailureKeeps(cfg, s, StdinFailed); } else { NotAgain(cfg, s, StdinFailed); }
    } else {
      SettledFailsNoMore(s);
    }
  }

  lemma SettledFailsNoMore(s: RunState)
    requires Settled(s)
    ensures FailImmediately(s, SpawnFailed) == s
  {
  }

  lemma PassKeeps(cfg: Settings, s: RunState, to: real)
    requires Inv(cfg, s) && MayPass(s.clock, to)
    ensures Inv(cfg, s.(clock := s.clock.(now := to)))
  {
    hide Parse, ParserShape;
    var t := s.(clock := s.clock.(now := to));
    if ChainAlive(cfg, s.clock) {
      var id :| Link(cfg, s.clock, id);
      assert Link(cfg, t.clock, id);
    }
    if Rings(t.clock, Drain) {
      assert Rings(s.clock, Drain);
    }
    if Settled(s) {
      assert !Rings(s.clock, RunLimit) && !Rings(s.clock, Drain);
    }
  }

  lemma BeginKeeps(cfg: Settings, launch: Launch)
    ensures Inv(cfg, Begin(cfg, launch))
  {
    assert Ready(cfg, Blank);
    match launch {
      case BadInput => ForceSettleKeeps(cfg, Blank, InvalidInput);
      case SpawnThrows => ForceSettleKeeps(cfg, Blank, SpawnFailed);
      case Spawned(stdinThrows) =>
        var running := Blank.(spawned := true, process := Running);
        assert Ready(cfg, running);
        if stdinThrows {
          BeginFailureKeeps(cfg, running, StdinFailed);
          RunTimerKeeps(cfg, BeginFailure(cfg, running, StdinFailed));
        }
    }
  }

  lemma RunTimerKeeps(cfg: Settings, s: RunState)
    requires Inv(cfg, s) && !Settled(s) && s.failure.Some? && !Rings(s.clock, RunLimit)
    ensures Inv(cfg, s.(timers := s.timers.(run := Some(s.clock.nextId)), clock := Arm(s.clock, RunLimit, cfg.run)))
  {
    hide Parse, ParserShape;
    var t := s.(timers := s.timers.(run := Some(s.clock.nextId)), clock := Arm(s.clock, RunLimit, cfg.run));
    var id :| Link(cfg, s.clock, id);
    assert Link(cfg, t.clock, id);
  }

  lemma {:induction false} ExecKeeps(cfg: Settings, s: RunState, inputs: seq<Input>)
    requires Inv(cfg, s)
    ensures Keeps(cfg, s, Exec(cfg, s, inputs))
    decreases |inputs|
  {
    if inputs != [] {
      hide Inv, Step;
      StepKeeps(cfg, s, inputs[0]);
      ExecKeeps(cfg, Step(cfg, s, inputs[0]), inputs[1..]);
    }
  }

  lemma {:induction false} ExecAppend(cfg: Settings, s: RunState, xs: seq<Input>, ys: seq<Input>)
    ensures Exec(cfg, s, xs + ys) == Exec(cfg, Exec(cfg, s, xs), ys)
    decreases |xs|
  {
    hide Step;
    if xs == [] {
      assert xs + ys == ys;
    } else {
      assert (xs + ys)[1..] == xs[1..] + ys;
      ExecAppend(cfg, Step(cfg, s, xs[0]), xs[1..], ys);
    }
  }

  /** Every reachable state satisfies the invariant. */
  lemma Reachable(cfg: Settings, launch: Launch, inputs: seq<Input>)
    ensures Inv(cfg, After(cfg, launch, inputs))
  {
    hide Inv, Begin, Exec;
    BeginKeeps(cfg, launch);
    ExecKeeps(cfg, Begin(cfg, launch), inputs);
  }

  function Bound(cfg: Settings): real {
    if cfg.cleanup + cfg.force < cfg.drain then cfg.run + cfg.drain else cfg.run + cfg.cleanup + cfg.force
  }

  /**
    Bounded settlement, for every interleaving: while the completion is unsettled some timer is armed
    for a moment no later than the bound, so time cannot get past start + max(R + C + F, R + D)
    without the run settling. Between exit and settlement no failure is pending.
   */
  lemma SettlesInTime(cfg: Settings, launch: Launch, inputs: seq<Input>)
    ensures var s := After(cfg, launch, inputs);
            !Settled(s) ==>
              && s.clock.now <= Bound(cfg)
              && (exists id :: id in s.clock.armed && s.clock.armed[id].deadline <= Bound(cfg))
              && (s.exit.Some? ==> s.failure.None?)
  {
    Reachable(cfg, launch, inputs);
    hide Exec, Begin, Parse, ParserShape, DataInv;
    var s := After(cfg, launch, inputs);
    if !Settled(s) {
      if s.exit.Some? {
        assert s.timers.drain.value in s.clock.armed;
      } else if s.failure.None? {
        assert s.timers.run.value in s.clock.armed;
      } else {
        var id :| Link(cfg, s.clock, id);
        assert id in s.clock.armed;
      }
    }
  }

  /** The completion settles once: nothing that happens later changes it, or delivers another event. */
  lemma SettlesOnce(cfg: Settings, launch: Launch, inputs: seq<Input>, later: seq<Input>)
    requires Settled(After(cfg, launch, inputs))
    ensures var s, t := After(cfg, launch, inputs), After(cfg, launch, inputs + later);
            t.settlement == s.settlement && t.queued == s.queued && t.closed
  {
    Reachable(cfg, launch, inputs);
    ExecAppend(cfg, Begin(cfg, launch), inputs, later);
    ExecKeeps(cfg, After(cfg, launch, inputs), later);
    hide Inv, Exec, Begin;
  }

  /**
    What success means: stdout ended, and the bytes received spell a well-formed trace that was
    delivered event by event with the terminal event last; the process exited without a signal,
    with a non-zero code exactly if that event reports a failure.
   */
  lemma ResolvedIsSound(cfg: Settings, launch: Launch, inputs: seq<Input>)
    requires After(cfg, launch, inputs).settlement.Resolved?
    ensures var s := After(cfg, launch, inputs); var outcome := s.settlement;
      && IsTrace(cfg.parser, Flatten(s.chunks), s.queued) && |Flatten(s.chunks)| <= cfg.parser.maxTotalBytes
      && s.closed && s.queued[|s.queued| - 1] == outcome.terminalEvent
      && s.exit == Some(ExitInfo(Some(outcome.exitCode), None))
      && (outcome.terminalEvent.kind.RunFailed? <==> outcome.exitCode != 0)
  {
    Reachable(cfg, launch, inputs);
    hide Exec, Begin, AfterPushes, IsTrace;
    var s := After(cfg, launch, inputs);
    ParseSound(cfg.parser, s.chunks);
    assert WellFormed(cfg.parser, s.queued) by { TraceIsWellFormed(cfg.parser, Flatten(s.chunks), s.queued); }
  }

  lemma TraceIsWellFormed(cfg: HermesProtocol.Config, s: seq<Byte>, es: seq<RawEvent>)
    requires IsTrace(cfg, s, es)
    ensures WellFormed(cfg, es)
  {
  }

  /** Whatever happens, what a consumer has been given is a well-formed trace cut short; until a failure it is all that the parser accepted. */
  lemma DeliveredIsOrderly(cfg: Settings, launch: Launch, inputs: seq<Input>)
    ensures var s := After(cfg, launch, inputs);
            && s.queued <= s.parser.accepted && WellFormedPrefix(cfg.parser, s.queued)
            && (s.failure.None? ==> s.queued == s.parser.accepted)
  {
    Reachable(cfg, launch, inputs);
    hide Exec, Begin;
    var s := After(cfg, launch, inputs);
    EventsArePrefix(cfg.parser, Fresh, s.chunks);
    hide AfterPushes;
    assert WellFormedPrefix(cfg.parser, s.parser.accepted);
  }

  /** Once the parser has its terminal event, cancelling does nothing at all. */
  lemma CancelAfterTerminalIsIgnored(cfg: Settings, launch: Launch, inputs: seq<Input>, later: seq<Input>)
    requires After(cfg, launch, inputs).parser.terminal.Some?
    ensures After(cfg, launch, inputs + [Cancel] + later) == After(cfg, launch, inputs + later)
  {
    hide Begin;
    var s := After(cfg, launch, inputs);
    ExecAppend(cfg, Begin(cfg, launch), inputs, later);
    ExecAppend(cfg, Begin(cfg, launch), inputs, [Cancel]);
    ExecAppend(cfg, Begin(cfg, launch), inputs + [Cancel], later);
    assert Exec(cfg, s, [Cancel]) == Exec(cfg, Step(cfg, s, Cancel), [Cancel][1..]);
  }
}
