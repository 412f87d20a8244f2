/**
  The promises of the normalised Hermes run, spelled out.
 */
module HermesRunningGuarantees {
  import opened Wrappers
  import opened Lines
  import opened Events
  import H = HermesProtocol
  import T = HermesExecution
  import S = HermesExecutionSafety
  import G = HermesExecutionGuarantees
  import opened HermesTrace
  import opened HermesRunning
  import opened HermesRunningSafety

  lemma {:induction false} ExecAppend(cfg: Config, j: Joint, xs: seq<Input>, ys: seq<Input>)
    ensures Exec(cfg, j, xs + ys) == Exec(cfg, Exec(cfg, j, xs), ys)
    decreases |xs|
  {
    hide Step;
    if xs == [] {
      assert xs + ys == ys;
    } else {
      assert (xs + ys)[1..] == xs[1..] + ys;
      ExecAppend(cfg, Step(cfg, j, xs[0]), xs[1..], ys);
    }
  }

  /** A finished generator neither yields nor completes again. */
  lemma DoneStep(cfg: Config, j: Joint, input: Input)
    requires Inv(cfg, j) && j.runner.phase.Done?
    ensures Step(cfg, j, input).runner == j.runner
  {
    hide S.Inv, T.Step, WellFormedLog, FromRaw;
  }

  lemma {:induction false} DoneStays(cfg: Config, j: Joint, inputs: seq<Input>)
    requires Inv(cfg, j) && j.runner.phase.Done?
    ensures Exec(cfg, j, inputs).runner == j.runner
    decreases |inputs|
  {
    if inputs != [] {
      hide Inv, Step;
      DoneStep(cfg, j, inputs[0]);
      StepKeeps(cfg, j, inputs[0]);
      DoneStays(cfg, Step(cfg, j, inputs[0]), inputs[1..]);
    }
  }

  /**
    At any moment the events handed out are one well-formed log; the completion has a value exactly
    when the generator has ended, which is the terminal event handed out last; and then nothing
    changes any more.
   */
  lemma OneTerminal(cfg: Config, inputs: seq<Input>, later: seq<Input>)
    ensures var r := After(cfg, inputs).runner;
      && WellFormedLog(cfg.ctx, r.yielded)
      && (r.completion.Some? <==> r.phase.Done?)
      && (r.phase.Done? ==>
            && r.yielded != [] && r.yielded[|r.yielded| - 1] == r.completion.value && IsTerminal(r.completion.value.body)
            && After(cfg, inputs + later).runner == r)
      && (!r.phase.Done? ==> forall i :: 0 <= i < |r.yielded| ==> !IsTerminal(r.yielded[i].body))
  {
    hide Exec, S.Inv;
    Reachable(cfg, inputs);
    ExecAppend(cfg, Created, inputs, later);
    var j := After(cfg, inputs);
    if j.runner.phase.Done? {
      DoneStays(cfg, j, later);
    } else if j.runner.phase.Streaming? || j.runner.phase.Awaiting? {
      NoTerminalYielded(cfg, j);
    }
    hide Translated;
  }

  /**
    A run is reported completed only if the raw run resolved with a raw completion, its process
    exited with code 0 and no signal, and all of stdout spelled one well-formed trace; the log is
    that trace, translated event by event.
   */
  lemma CompletedIsSound(cfg: Config, launchAndInputs: seq<Input>)
    requires var r := After(cfg, launchAndInputs).runner; r.completion.Some? && r.completion.value.body.RunCompleted?
    ensures var j := After(cfg, launchAndInputs);
      && j.raw.Some? && j.raw.value.settlement.Resolved?
      && var raw := j.raw.value;
      && raw.settlement.terminalEvent.kind == H.RunCompleted
      && raw.exit == Some(T.ExitInfo(Some(0), None))
      && IsTrace(cfg.transport.parser, Flatten(raw.chunks), raw.queued)
      && |j.runner.yielded| == |raw.queued|
      && forall i :: 0 <= i < |raw.queued| ==>
           Conveys(cfg.decode, raw.queued[i], j.runner.yielded[i].body) && j.runner.yielded[i].sequence == i
  {
    hide Exec, Conveys;
    var j := After(cfg, launchAndInputs);
    OneTerminal(cfg, launchAndInputs, []);
    Reachable(cfg, launchAndInputs);
    assert FromRaw(cfg, j, H.RunCompleted);
    RawSuccess(cfg, j.raw.value);
    hide Translated, S.Inv;
    forall i | 0 <= i < |j.raw.value.queued| ensures Conveys(cfg.decode, j.raw.value.queued[i], j.runner.yielded[i].body) {
      TranslationConveys(cfg.decode, j.raw.value.queued[i]);
    }
  }

  lemma RawSuccess(cfg: Config, raw: T.RunState)
    requires S.Inv(cfg.transport, raw) && raw.settlement.Resolved? && raw.settlement.terminalEvent.kind == H.RunCompleted
    ensures raw.exit == Some(T.ExitInfo(Some(0), None))
    ensures IsTrace(cfg.transport.parser, Flatten(raw.chunks), raw.queued)
  {
    hide H.AfterPushes, IsTrace, S.ClockInv, S.LiveInv;
    ParseSound(cfg.transport.parser, raw.chunks);
  }

  /** Once the raw terminal event has been seen, cancelling changes nothing whatever follows. */
  lemma CancelAfterRawTerminal(cfg: Config, inputs: seq<Input>, who: CancelledBy, reason: Option<string>, later: seq<Input>)
    requires After(cfg, inputs).runner.rawTerminalSeen
    ensures After(cfg, inputs + [Cancel(who, reason)] + later) == After(cfg, inputs + later)
  {
    var j := After(cfg, inputs);
    ExecAppend(cfg, Created, inputs, later);
    ExecAppend(cfg, Created, inputs, [Cancel(who, reason)]);
    ExecAppend(cfg, Created, inputs + [Cancel(who, reason)], later);
    assert Exec(cfg, j, [Cancel(who, reason)]) == Exec(cfg, Step(cfg, j, Cancel(who, reason)), [Cancel(who, reason)][1..]);
    hide T.Step;
  }

  /** And a cancelled outcome after that moment is the raw run's own: it resolved with a raw cancellation. */
  lemma CancelledAfterRawTerminal(cfg: Config, inputs: seq<Input>)
    requires var r := After(cfg, inputs).runner;
             r.rawTerminalSeen && r.completion.Some? && r.completion.value.body.RunCancelled?
    ensures var j := After(cfg, inputs);
            && j.raw.Some? && j.raw.value.settlement.Resolved?
            && j.raw.value.settlement.terminalEvent.kind == H.RunCancelled
            && Conveys(cfg.decode, j.raw.value.settlement.terminalEvent, j.runner.completion.value.body)
  {
    hide Exec, Conveys;
    var j := After(cfg, inputs);
    OneTerminal(cfg, inputs, []);
    Reachable(cfg, inputs);
    assert FromRaw(cfg, j, H.RunCancelled);
    ResolvedQueue(cfg, j.raw.value);
    TranslationConveys(cfg.decode, j.raw.value.settlement.terminalEvent);
    hide Translated, S.Inv;
  }

  // ----------------------------------------------------------------------- termination

  /** Resumptions a consumer needs once the raw run has settled. */
  function Measure(j: Joint): nat {
    if j.raw.None? then 0
    else match j.runner.phase
      case Streaming => (if j.taken < |j.raw.value.queued| then |j.raw.value.queued| - j.taken else 0) + 3
      case Awaiting => 2
      case AwaitingAfterMappingError(_) => 1
      case _ => 0
  }

  lemma ResumeProgress(cfg: Config, j: Joint)
    requires Inv(cfg, j) && j.raw.Some? && T.Settled(j.raw.value) && !j.runner.phase.Done?
    ensures var k := Resumed(cfg, j);
            && k.raw.Some? && T.Settled(k.raw.value) && Measure(k) < Measure(j)
  {
    hide T.Step, Translated;
    G.SettledStays(cfg.transport, j.raw.value, T.Input.Cancel);
    SettledIsClosed(cfg, j.raw.value);
    hide S.Inv;
  }

  lemma SettledIsClosed(cfg: Config, raw: T.RunState)
    requires S.Inv(cfg.transport, raw) && T.Settled(raw)
    ensures raw.closed
  {
    hide S.ClockInv, S.LiveInv, Parse;
  }

  /**
    Termination: once the raw run has settled, which it does in bounded time, a consumer that keeps
    asking reaches the end of the stream after at most as many steps as events remain, plus three.
   */
  lemma {:induction false} ResumesFinish(cfg: Config, j: Joint, resumes: seq<Input>)
    requires Inv(cfg, j) && j.raw.Some? && T.Settled(j.raw.value)
    requires |resumes| >= Measure(j) && forall i :: 0 <= i < |resumes| ==> resumes[i] == Resume
    ensures Exec(cfg, j, resumes).runner.phase.Done? && Exec(cfg, j, resumes).runner.completion.Some?
    decreases |resumes|
  {
    if j.runner.phase.Done? {
      DoneStays(cfg, j, resumes);
      hide S.Inv, Translated;
    } else {
      PendingHasMeasure(cfg, j);
      hide Inv, Resumed, Measure;
      ResumeProgress(cfg, j);
      StepKeeps(cfg, j, Resume);
      assert Step(cfg, j, resumes[0]) == Resumed(cfg, j);
      ResumesFinish(cfg, Resumed(cfg, j), resumes[1..]);
    }
  }

  lemma PendingHasMeasure(cfg: Config, j: Joint)
    requires Inv(cfg, j) && j.raw.Some? && !j.runner.phase.Done?
    ensures Measure(j) > 0
  {
    hide S.Inv, Translated;
  }
}
