/**
  What the normalised Hermes run promises, for every interleaving of consumer, cancellation and
  raw run.
 */
module HermesRunningSafety {
  import opened Wrappers
  import opened Lines
  import opened Events
  import H = HermesProtocol
  import T = HermesExecution
  import S = HermesExecutionSafety
  import Timers
  import G = HermesExecutionGuarantees
  import opened HermesTrace
  import opened HermesRunning

  /** The first `n` raw events have been translated, numbered and yielded, one for one. */
  ghost predicate Relayed(cfg: Config, queued: seq<H.RawEvent>, yielded: seq<Event>, n: nat) {
    && n <= |queued| && n <= |yielded|
    && forall i :: 0 <= i < n ==>
        Translated(cfg.decode, queued[i]).Some?
        && yielded[i] == Stamp(cfg.ctx, i, Translated(cfg.decode, queued[i]).value)
  }

  /** Raw events that were relayed and not kept back: all taken ones but the terminal. */
  function RelayedCount(j: Joint): nat {
    if j.runner.rawTerminalSeen && j.taken > 0 then j.taken - 1 else j.taken
  }

  /** The generator is still producing: nothing terminal has been numbered. */
  ghost predicate Producing(cfg: Config, j: Joint) {
    && j.raw.Some? && j.runner.kit == Kit(|j.runner.yielded|, None) && j.runner.completion.None?
    && j.taken <= |j.raw.value.queued|
    && |j.runner.yielded| == RelayedCount(j) && Relayed(cfg, j.raw.value.queued, j.runner.yielded, RelayedCount(j))
    && (forall i :: 0 <= i < RelayedCount(j) ==> !H.IsTerminal(j.raw.value.queued[i].kind))
    && (j.runner.rawTerminalSeen <==> j.taken > 0 && H.IsTerminal(j.raw.value.queued[j.taken - 1].kind))
    && (j.runner.phase.Awaiting? ==> j.raw.value.closed && j.taken == |j.raw.value.queued|)
  }

  ghost predicate Ended(cfg: Config, j: Joint) {
    var r := j.runner;
    && |r.yielded| > 0 && r.completion == Some(r.yielded[|r.yielded| - 1]) && r.kit.terminal == r.completion
    && IsTerminal(r.completion.value.body)
    && (if j.raw.None? then |r.yielded| == 1 else Relayed(cfg, j.raw.value.queued, r.yielded, |r.yielded| - 1))
    && (r.completion.value.body.RunCompleted? ==> FromRaw(cfg, j, H.RunCompleted))
    && (r.completion.value.body.RunCancelled? && r.rawTerminalSeen ==> FromRaw(cfg, j, H.RunCancelled))
  }

  /** The whole log is the translation of a resolved raw run that ended with this kind of event. */
  ghost predicate FromRaw(cfg: Config, j: Joint, kind: H.RawType) {
    && j.raw.Some? && j.raw.value.settlement.Resolved? && j.raw.value.settlement.terminalEvent.kind == kind
    && |j.runner.yielded| == |j.raw.value.queued|
    && Relayed(cfg, j.raw.value.queued, j.runner.yielded, |j.raw.value.queued|)
  }

  ghost predicate Inv(cfg: Config, j: Joint) {
    && WellFormedLog(cfg.ctx, j.runner.yielded)
    && (j.raw.Some? ==> S.Inv(cfg.transport, j.raw.value))
    && match j.runner.phase
       case NotStarted => j == Joint(Idle.(cancellationRequested := j.runner.cancellationRequested,
                                           cancelledBy := j.runner.cancelledBy, cancelReason := j.runner.cancelReason), None, 0)
       case Streaming => Producing(cfg, j)
       case Awaiting => Producing(cfg, j)
       case AwaitingAfterMappingError(failed) =>
         && j.raw.Some? && j.runner.completion.None? && j.runner.kit.terminal == Some(failed)
         && failed == Stamp(cfg.ctx, |j.runner.yielded|, InvalidPayload)
         && Relayed(cfg, j.raw.value.queued, j.runner.yielded, |j.runner.yielded|)
         && forall i :: 0 <= i < |j.runner.yielded| ==> !IsTerminal(j.runner.yielded[i].body)
       case Done => Ended(cfg, j)
  }

  // ------------------------------------------------------------------- the raw run moves

  /** Nothing but arriving data touches the queue, and nothing reopens it. */
  ghost predicate SameQueue(s: T.RunState, t: T.RunState) {
    t.queued == s.queued && (s.closed ==> t.closed)
  }

  lemma FailureKeepsQueue(cfg: T.Settings, s: T.RunState, code: H.ErrorCode)
    ensures SameQueue(s, T.BeginFailure(cfg, s, code)) && SameQueue(s, T.FailImmediately(s, code))
    ensures SameQueue(s, T.SettleFailure(s))
  {
    hide Timers.Disarm;
  }

  lemma CompletionKeepsQueue(cfg: T.Settings, s: T.RunState)
    ensures SameQueue(s, T.MaybeComplete(cfg, s))
  {
    hide Timers.Disarm, T.BeginFailure;
    FailureKeepsQueue(cfg, s, H.ProcessExited);
  }

  lemma FinishKeepsQueue(cfg: T.Settings, s: T.RunState)
    ensures SameQueue(s, T.FinishStdout(cfg, s))
  {
    hide T.MaybeComplete, T.BeginFailure, H.AfterFinish;
    var t := s.(stdoutEnded := true, parser := H.AfterFinish(cfg.parser, s.parser));
    if t.parser.error.Some? { FailureKeepsQueue(cfg, t, t.parser.error.value); } else { CompletionKeepsQueue(cfg, t); }
  }

  lemma FireKeepsQueue(cfg: T.Settings, s: T.RunState, id: nat)
    requires id in s.clock.armed
    ensures SameQueue(s, T.OnFire(cfg, s, id))
  {
    hide T.FinishStdout, T.BeginFailure, T.SettleFailure;
    var rung := s.(clock := Timers.Disarm(s.clock, Some(id)));
    FailureKeepsQueue(cfg, rung, H.TimedOut);
    FailureKeepsQueue(cfg, rung.(failure := Some(H.ProcessExited), closed := true), H.ProcessExited);
    FinishKeepsQueue(cfg, rung);
  }

  lemma ExitKeepsQueue(cfg: T.Settings, s: T.RunState, info: T.ExitInfo)
    ensures SameQueue(s, T.OnExit(cfg, s, info))
  {
    hide T.MaybeComplete, T.SettleFailure;
    var exited := s.(exit := Some(info), clock := Timers.Disarm(s.clock, s.timers.run));
    FailureKeepsQueue(cfg, exited, H.ProcessExited);
    CompletionKeepsQueue(cfg, exited);
  }

  lemma ClosedData(cfg: T.Settings, s: T.RunState, chunk: Option<seq<H.Byte>>)
    requires s.closed
    ensures SameQueue(s, T.OnData(cfg, s, chunk))
  {
    hide T.Enqueue, T.BeginFailure, H.AfterPush;
    if chunk.None? {
      FailureKeepsQueue(cfg, s, H.InvalidUtf8);
    } else {
      var parser := H.AfterPush(cfg.parser, s.parser, chunk.value);
      S.EnqueueClosed(s.queued, if |s.parser.accepted| <= |parser.accepted| then parser.accepted[|s.parser.accepted|..] else []);
      if parser.error.Some? {
        FailureKeepsQueue(cfg, s.(parser := parser, chunks := s.chunks + [chunk.value], closed := true), parser.error.value);
      }
    }
  }

  /** A closed raw queue stays as it is. */
  lemma ClosedStays(cfg: T.Settings, s: T.RunState, input: T.Input)
    requires s.closed
    ensures T.Step(cfg, s, input).queued == s.queued && T.Step(cfg, s, input).closed
  {
    hide T.OnData, T.OnExit, T.OnFire, T.FinishStdout, T.BeginFailure, T.FailImmediately;
    if T.Enabled(s, input) {
      match input {
        case Data(chunk) => ClosedData(cfg, s, chunk);
        case End => FinishKeepsQueue(cfg, s.(clock := Timers.Disarm(s.clock, s.timers.drain)));
        case StdinError => FailureKeepsQueue(cfg, s, H.StdinFailed);
        case ProcessError => FailureKeepsQueue(cfg, s, H.SpawnFailed);
        case Exit(info) => ExitKeepsQueue(cfg, s, info);
        case Fire(id) => FireKeepsQueue(cfg, s, id);
        case _ =>
      }
    }
  }

  lemma RelayedGrows(cfg: Config, queued: seq<H.RawEvent>, more: seq<H.RawEvent>, yielded: seq<Event>, n: nat)
    requires Relayed(cfg, queued, yielded, n) && queued <= more
    ensures Relayed(cfg, more, yielded, n)
  {
  }

  lemma RawStepKeeps(cfg: Config, j: Joint, input: T.Input)
    requires Inv(cfg, j) && j.raw.Some?
    ensures Inv(cfg, j.(raw := Some(T.Step(cfg.transport, j.raw.value, input))))
  {
    hide T.Step, S.Inv, Translated;
    var raw := j.raw.value;
    var next := T.Step(cfg.transport, raw, input);
    G.StepKeeps(cfg.transport, raw, input);
    if raw.closed { ClosedStays(cfg.transport, raw, input); }
    var k := j.(raw := Some(next));
    match j.runner.phase {
      case Done =>
        if FromRaw(cfg, j, H.RunCompleted) { assert FromRaw(cfg, k, H.RunCompleted); }
        if FromRaw(cfg, j, H.RunCancelled) { assert FromRaw(cfg, k, H.RunCancelled); }
      case Streaming => RelayedGrows(cfg, raw.queued, next.queued, j.runner.yielded, RelayedCount(j));
      case Awaiting => RelayedGrows(cfg, raw.queued, next.queued, j.runner.yielded, RelayedCount(j));
      case _ =>
    }
  }

  lemma ForwardKeeps(cfg: Config, j: Joint, cancel: bool)
    requires Inv(cfg, j)
    ensures Inv(cfg, j.(raw := Forward(cfg, j.raw, cancel)))
  {
    hide Inv, T.Step;
    if cancel && j.raw.Some? { RawStepKeeps(cfg, j, T.Input.Cancel); }
    assert j.(raw := j.raw) == j;
  }

  // --------------------------------------------------------------------- ending the run

  /** Numbering and yielding one more event keeps the log well formed. */
  lemma YieldKeepsLog(cfg: Config, log: seq<Event>, body: Body)
    requires WellFormedLog(cfg.ctx, log) && forall i :: 0 <= i < |log| ==> !IsTerminal(log[i].body)
    ensures WellFormedLog(cfg.ctx, log + [Stamp(cfg.ctx, |log|, body)])
  {
  }

  lemma NoTerminalYielded(cfg: Config, j: Joint)
    requires Producing(cfg, j)
    ensures forall i :: 0 <= i < |j.runner.yielded| ==> !IsTerminal(j.runner.yielded[i].body)
  {
    forall i | 0 <= i < |j.runner.yielded| ensures !IsTerminal(j.runner.yielded[i].body) {
      KindsMatch(cfg.decode, j.raw.value.queued[i]);
    }
  }

  /** Translation keeps the kind of event. */
  lemma KindsMatch(d: Decoder, e: H.RawEvent)
    requires Translated(d, e).Some?
    ensures var body := Translated(d, e).value;
      && (IsTerminal(body) <==> H.IsTerminal(e.kind))
      && (body.RunCompleted? <==> e.kind.RunCompleted?) && (body.RunCancelled? <==> e.kind.RunCancelled?)
  {
  }

  /** Ending a producing run by itself, with a failure or its own cancellation. */
  lemma FinishKeeps(cfg: Config, j: Joint, body: Body)
    requires Inv(cfg, j) && Producing(cfg, j) && IsTerminal(body) && !body.RunCompleted?
    requires body.RunCancelled? ==> !j.runner.rawTerminalSeen
    ensures Inv(cfg, j.(runner := FinishWith(cfg, j.runner, body)))
  {
    hide Translated, S.Inv;
    NoTerminalYielded(cfg, j);
    YieldKeepsLog(cfg, j.runner.yielded, body);
  }

  lemma CatchKeeps(cfg: Config, j: Joint, mappingError: bool)
    requires Inv(cfg, j) && Producing(cfg, j)
    ensures Inv(cfg, j.(runner := Catch(cfg, j.runner, mappingError).0))
  {
    hide S.Inv, Translated, FinishWith;
    if j.runner.cancellationRequested && !j.runner.rawTerminalSeen {
      FinishKeeps(cfg, j, RunCancelled(j.runner.cancelledBy, j.runner.cancelReason));
    } else if mappingError {
      NoTerminalYielded(cfg, j);
    } else {
      FinishKeeps(cfg, j, TransportFailed);
    }
  }

  /** The queue of a resolved raw run ends with its terminal event, and only there. */
  lemma ResolvedQueue(cfg: Config, raw: T.RunState)
    requires S.Inv(cfg.transport, raw) && raw.settlement.Resolved?
    ensures |raw.queued| > 0 && raw.queued[|raw.queued| - 1] == raw.settlement.terminalEvent
    ensures H.IsTerminal(raw.settlement.terminalEvent.kind)
  {
    hide S.ClockInv, S.LiveInv, Parse;
  }

  lemma ResolvedKeeps(cfg: Config, j: Joint, body: Body)
    requires Inv(cfg, j) && j.runner.phase.Awaiting? && j.raw.value.settlement.Resolved?
    requires Translated(cfg.decode, j.raw.value.settlement.terminalEvent) == Some(body)
    ensures Inv(cfg, j.(runner := FinishWith(cfg, j.runner, body)))
  {
    ResolvedQueue(cfg, j.raw.value);
    KindsMatch(cfg.decode, j.raw.value.settlement.terminalEvent);
    NoTerminalYielded(cfg, j);
    YieldKeepsLog(cfg, j.runner.yielded, body);
    hide Translated, S.Inv;
    var k := j.(runner := FinishWith(cfg, j.runner, body));
    assert Relayed(cfg, k.raw.value.queued, k.runner.yielded, |k.raw.value.queued|);
  }

  // ---------------------------------------------------------------------------- steps

  lemma TakeKeeps(cfg: Config, j: Joint)
    requires Inv(cfg, j) && j.runner.phase.Streaming? && j.taken < |j.raw.value.queued|
    ensures var (r, cancel) := OnRaw(cfg, j.runner, j.raw.value.queued[j.taken]);
            Inv(cfg, Joint(r, j.raw, j.taken + 1))
  {
    var e := j.raw.value.queued[j.taken];
    TerminalIsLast(cfg, j.raw.value, j.taken);
    hide S.Inv;
    if !H.IsTerminal(e.kind) {
      var body := Translated(cfg.decode, e);
      if body.None? {
        CatchKeeps(cfg, j, true);
        TakenIsFree(cfg, j.(runner := Catch(cfg, j.runner, true).0), j.taken + 1);
      } else {
        KindsMatch(cfg.decode, e);
        NoTerminalYielded(cfg, j);
        YieldKeepsLog(cfg, j.runner.yielded, body.value);
        RelayOne(cfg, j);
      }
      hide Translated, Catch;
    }
  }

  /** Nothing is taken after a terminal raw event. */
  lemma TerminalIsLast(cfg: Config, raw: T.RunState, i: nat)
    requires S.Inv(cfg.transport, raw) && i < |raw.queued|
    ensures forall k :: 0 <= k < i ==> !H.IsTerminal(raw.queued[k].kind)
  {
    hide S.ClockInv, S.LiveInv, S.EndInv, Parse;
    forall k | 0 <= k < i ensures !H.IsTerminal(raw.queued[k].kind) {
      assert raw.queued[k] == raw.parser.accepted[k];
    }
  }

  /** Outside the loop the count of taken events no longer matters. */
  lemma TakenIsFree(cfg: Config, j: Joint, taken: nat)
    requires Inv(cfg, j) && (j.runner.phase.Done? || j.runner.phase.AwaitingAfterMappingError?)
    ensures Inv(cfg, j.(taken := taken))
  {
    hide S.Inv, Translated;
    var k := j.(taken := taken);
    if FromRaw(cfg, j, H.RunCompleted) { assert FromRaw(cfg, k, H.RunCompleted); }
    if FromRaw(cfg, j, H.RunCancelled) { assert FromRaw(cfg, k, H.RunCancelled); }
  }

  lemma RelayOne(cfg: Config, j: Joint)
    requires Inv(cfg, j) && j.runner.phase.Streaming? && j.taken < |j.raw.value.queued|
    requires !H.IsTerminal(j.raw.value.queued[j.taken].kind) && Translated(cfg.decode, j.raw.value.queued[j.taken]).Some?
    requires forall k :: 0 <= k < j.taken ==> !H.IsTerminal(j.raw.value.queued[k].kind)
    requires var body := Translated(cfg.decode, j.raw.value.queued[j.taken]).value;
             !IsTerminal(body) && WellFormedLog(cfg.ctx, j.runner.yielded + [Stamp(cfg.ctx, |j.runner.yielded|, body)])
    ensures Inv(cfg, Joint(OnRaw(cfg, j.runner, j.raw.value.queued[j.taken]).0, j.raw, j.taken + 1))
    ensures !OnRaw(cfg, j.runner, j.raw.value.queued[j.taken]).1
    ensures OnRaw(cfg, j.runner, j.raw.value.queued[j.taken]).0.phase.Streaming?
  {
    hide Translated, S.Inv;
    var queued := j.raw.value.queued;
    var k := Joint(OnRaw(cfg, j.runner, queued[j.taken]).0, j.raw, j.taken + 1);
    assert !j.runner.rawTerminalSeen;
    assert k.runner.yielded == j.runner.yielded + [Stamp(cfg.ctx, j.taken, Translated(cfg.decode, queued[j.taken]).value)];
    assert Relayed(cfg, queued, k.runner.yielded, j.taken + 1);
    assert Producing(cfg, k);
  }

  lemma ResumeKeeps(cfg: Config, j: Joint)
    requires Inv(cfg, j)
    ensures Inv(cfg, Resumed(cfg, j))
  {
    hide S.Inv, Translated, OnRaw, Catch, T.Step, FinishWith;
    if j.raw.Some? {
      var raw := j.raw.value;
      if j.runner.phase.Streaming? && j.taken < |raw.queued| {
        TakeKeeps(cfg, j);
        var (r, cancel) := OnRaw(cfg, j.runner, raw.queued[j.taken]);
        hide Inv;
        ForwardKeeps(cfg, Joint(r, j.raw, j.taken + 1), cancel);
      } else if j.runner.phase.Awaiting? && T.Settled(raw) {
        SettledKeeps(cfg, j);
      } else if j.runner.phase.AwaitingAfterMappingError? {
        AfterErrorKeeps(cfg, j);
      }
    }
  }

  lemma SettledKeeps(cfg: Config, j: Joint)
    requires Inv(cfg, j) && j.runner.phase.Awaiting? && T.Settled(j.raw.value)
    ensures var (r, cancel) := OnSettled(cfg, j.runner, j.raw.value.settlement);
            Inv(cfg, Joint(r, Forward(cfg, j.raw, cancel), j.taken))
  {
    hide S.Inv, Translated, Catch, FinishWith, Forward;
    var (r, cancel) := OnSettled(cfg, j.runner, j.raw.value.settlement);
    var settlement := j.raw.value.settlement;
    if settlement.Resolved? && Translated(cfg.decode, settlement.terminalEvent).Some? {
      ResolvedKeeps(cfg, j, Translated(cfg.decode, settlement.terminalEvent).value);
    } else {
      CatchKeeps(cfg, j, settlement.Resolved?);
    }
    hide Inv;
    ForwardKeeps(cfg, Joint(r, j.raw, j.taken), cancel);
  }

  lemma AfterErrorKeeps(cfg: Config, j: Joint)
    requires Inv(cfg, j) && j.runner.phase.AwaitingAfterMappingError?
    ensures Inv(cfg, j.(runner := OnSettled(cfg, j.runner, j.raw.value.settlement).0))
  {
    hide S.Inv, Translated;
    YieldKeepsLog(cfg, j.runner.yielded, InvalidPayload);
  }

  lemma StartKeeps(cfg: Config, j: Joint, startThrows: bool, launch: T.Launch)
    requires Inv(cfg, j) && j.runner.phase.NotStarted?
    ensures Inv(cfg, Step(cfg, j, Start(startThrows, launch)))
  {
    hide S.Inv, T.Begin, Translated;
    G.BeginKeeps(cfg.transport, launch);
  }

  lemma CancelKeeps(cfg: Config, j: Joint, who: CancelledBy, reason: Option<string>)
    requires Inv(cfg, j)
    ensures Inv(cfg, Step(cfg, j, Cancel(who, reason)))
  {
    hide S.Inv, T.Step, Translated, Forward;
    var (r, cancel) := RecordCancellation(j.runner, who, reason);
    var k := Joint(r, j.raw, j.taken);
    if FromRaw(cfg, j, H.RunCompleted) { assert FromRaw(cfg, k, H.RunCompleted); }
    assert Inv(cfg, k);
    hide Inv;
    ForwardKeeps(cfg, k, cancel);
  }

  lemma StepKeeps(cfg: Config, j: Joint, input: Input)
    requires Inv(cfg, j)
    ensures Inv(cfg, Step(cfg, j, input))
  {
    hide Inv, Begin, Resumed, RecordCancellation, Forward, T.Step;
    match input {
      case Cancel(who, reason) => CancelKeeps(cfg, j, who, reason);
      case Start(startThrows, launch) => if j.runner.phase.NotStarted? { StartKeeps(cfg, j, startThrows, launch); }
      case Resume => ResumeKeeps(cfg, j);
      case Raw(raw) => if j.raw.Some? { RawStepKeeps(cfg, j, raw); }
    }
  }

  lemma {:induction false} ExecKeeps(cfg: Config, j: Joint, inputs: seq<Input>)
    requires Inv(cfg, j)
    ensures Inv(cfg, Exec(cfg, j, inputs))
    decreases |inputs|
  {
    if inputs != [] {
      hide Inv, Step;
      StepKeeps(cfg, j, inputs[0]);
      ExecKeeps(cfg, Step(cfg, j, inputs[0]), inputs[1..]);
    }
  }

  /** Every reachable state satisfies the invariant. */
  lemma Reachable(cfg: Config, inputs: seq<Input>)
    ensures Inv(cfg, After(cfg, inputs))
  {
    ExecKeeps(cfg, Created, inputs);
  }
}
