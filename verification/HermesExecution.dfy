/**
  One raw Hermes process run as a state machine: spawn, stdout bytes and end, stdin and process
  errors, exit, cancellation, four kinds of timers and the passing of time, in any order.

  Timer fields may be overwritten while the timer they named is still armed, so the armed timers
  live on the clock and not in the fields.
 */
module HermesExecution {
  import opened Wrappers
  import opened Timers
  import opened HermesProtocol

  const MAX_RUN_MS: Millis := 600_000.0
  const CLEANUP_GRACE_MS: Millis := 500.0
  const FORCE_TERMINATION_MS: Millis := 2_000.0
  const POST_EXIT_DRAIN_MS: Millis := 1_000.0

  /** A configured duration as JavaScript may hold it. */
  datatype DurationOption = Unset | NotFinite | Finite(ms: real)

  /** A configured duration can only shorten the built-in one; a negative or non-finite one is ignored. */
  function BoundedDuration(value: DurationOption, maximum: Millis): (ms: Millis)
    ensures ms <= maximum
    ensures value.Finite? && 0.0 <= value.ms ==> ms <= value.ms
    ensures ms == maximum || value == Finite(ms)
  {
    if value.Finite? && value.ms >= 0.0 then (if value.ms < maximum then value.ms else maximum) else maximum
  }

  datatype Settings = Settings(parser: HermesProtocol.Config, run: Millis, cleanup: Millis, force: Millis, drain: Millis)

  /** A cleanup or force timer remembers whether a cancellation or a failure set it. */
  datatype TimerKind = RunLimit | Cleanup(byCancel: bool) | Force(byCancel: bool) | Drain

  datatype ProcessState = Starting | Running | Terminating | Exited | Failed

  datatype ExitInfo = ExitInfo(code: Option<int>, signal: Option<string>)

  /** The completion promise. */
  datatype Settlement = Unsettled | Resolved(terminalEvent: RawEvent, exitCode: int) | Rejected(code: ErrorCode)

  datatype Fields = Fields(run: Option<nat>, cleanup: Option<nat>, force: Option<nat>, drain: Option<nat>)

  datatype RunState = RunState(
    parser: ParserState, queued: seq<RawEvent>, closed: bool, settlement: Settlement,
    process: ProcessState, spawned: bool, failure: Option<ErrorCode>, exit: Option<ExitInfo>, stdoutEnded: bool,
    timers: Fields, clock: Clock<TimerKind>, cancellationRequested: bool,
    chunks: seq<seq<Byte>>, terminations: nat, forced: nat)

  predicate Settled(s: RunState) {
    !s.settlement.Unsettled?
  }

  // -------------------------------------------------------------------- shared steps

  function ClearTimers(s: RunState): RunState {
    s.(clock := Disarm(Disarm(Disarm(Disarm(s.clock, s.timers.run), s.timers.cleanup), s.timers.force), s.timers.drain))
  }

  function SettleFailure(s: RunState): RunState {
    if Settled(s) then s
    else ClearTimers(s.(settlement := Rejected(if s.failure.Some? then s.failure.value else ProcessExited),
                        process := Failed, closed := true))
  }

  function FailImmediately(s: RunState, code: ErrorCode): RunState {
    if Settled(s) then s else SettleFailure(s.(failure := Some(code)))
  }

  /** Ask the process to terminate and set the cleanup timer that leads to the forced phase. */
  function StartCleanup(cfg: Settings, s: RunState, byCancel: bool): RunState {
    s.(terminations := s.terminations + 1, timers := s.timers.(cleanup := Some(s.clock.nextId)),
       clock := Arm(s.clock, Cleanup(byCancel), cfg.cleanup))
  }

  function BeginFailure(cfg: Settings, s: RunState, code: ErrorCode): RunState {
    if Settled(s) || s.failure.Some? then s
    else
      var failing := s.(failure := Some(code), closed := true,
                        clock := Disarm(Disarm(s.clock, s.timers.run), s.timers.drain));
      if !s.spawned || s.exit.Some? then SettleFailure(failing)
      else
        var terminating := failing.(process := Terminating);
        if s.timers.cleanup.Some? then terminating else StartCleanup(cfg, terminating, false)
  }

  function ValidExit(terminal: RawEvent, code: int): bool {
    (terminal.kind.RunFailed? && code != 0) || (!terminal.kind.RunFailed? && code == 0)
  }

  function MaybeComplete(cfg: Settings, s: RunState): RunState {
    if Settled(s) || s.failure.Some? || !s.stdoutEnded || s.exit.None? then s
    else
      var terminal, exit := s.parser.terminal, s.exit.value;
      if terminal.None? || exit.code.None? || exit.signal.Some? then BeginFailure(cfg, s, ProcessExited)
      else if !ValidExit(terminal.value, exit.code.value) then BeginFailure(cfg, s, ProcessExited)
      else ClearTimers(s.(settlement := Resolved(terminal.value, exit.code.value), process := Exited, closed := true))
  }

  /** Queue the events in order; a terminal one closes the queue, and a closed queue drops the rest. */
  function Enqueue(queued: seq<RawEvent>, closed: bool, events: seq<RawEvent>): (seq<RawEvent>, bool)
    decreases |events|
  {
    if events == [] then (queued, closed)
    else Enqueue(if closed then queued else queued + [events[0]], closed || IsTerminal(events[0].kind), events[1..])
  }

  // ----------------------------------------------------------------------- callbacks

  datatype Launch = BadInput | SpawnThrows | Spawned(stdinThrows: bool)

  datatype Input =
    | Data(chunk: Option<seq<Byte>>)
    | End
    | StdinError
    | ProcessError
    | Exit(info: ExitInfo)
    | Cancel
    | Fire(id: nat)
    | Pass(to: real)

  /** At most one exit, no data after the end of stdout, no stream callback once the run has settled. */
  predicate Enabled(s: RunState, input: Input) {
    match input
    case Data(_) => s.spawned && !Settled(s) && !s.stdoutEnded
    case End => s.spawned && !Settled(s)
    case StdinError => s.spawned && !Settled(s)
    case ProcessError => s.spawned
    case Exit(_) => s.spawned && s.exit.None?
    case Cancel => true
    case Fire(id) => Due(s.clock, id)
    case Pass(to) => MayPass(s.clock, to)
  }

  const Blank := RunState(Fresh, [], false, Unsettled, Starting, false, None, None, false,
                          Fields(None, None, None, None), Start(), false, [], 0, 0)

  /** The constructor: validate, spawn, send the input, set the run timer whatever became of the input. */
  function Begin(cfg: Settings, launch: Launch): RunState {
    match launch
    case BadInput => FailImmediately(Blank, InvalidInput)
    case SpawnThrows => FailImmediately(Blank, SpawnFailed)
    case Spawned(stdinThrows) =>
      var running := Blank.(spawned := true, process := Running);
      var sent := if stdinThrows then BeginFailure(cfg, running, StdinFailed) else running;
      sent.(timers := sent.timers.(run := Some(sent.clock.nextId)), clock := Arm(sent.clock, RunLimit, cfg.run))
  }

  function OnData(cfg: Settings, s: RunState, chunk: Option<seq<Byte>>): RunState {
    if chunk.None? then BeginFailure(cfg, s, InvalidUtf8)
    else
      var parser := AfterPush(cfg.parser, s.parser, chunk.value);
      var events := if |s.parser.accepted| <= |parser.accepted| then parser.accepted[|s.parser.accepted|..] else [];
      var (queued, closed) := Enqueue(s.queued, s.closed, events);
      var t := s.(parser := parser, queued := queued, closed := closed, chunks := s.chunks + [chunk.value]);
      if parser.error.Some? then BeginFailure(cfg, t, parser.error.value) else t
  }

  /** The end of stdout, or the drain timer standing in for it. */
  function FinishStdout(cfg: Settings, s: RunState): RunState {
    var t := s.(stdoutEnded := true, parser := AfterFinish(cfg.parser, s.parser));
    if t.parser.error.Some? then BeginFailure(cfg, t, t.parser.error.value) else MaybeComplete(cfg, t)
  }

  function OnEnd(cfg: Settings, s: RunState): RunState {
    if s.stdoutEnded || Settled(s) then s
    else FinishStdout(cfg, s.(clock := Disarm(s.clock, s.timers.drain)))
  }

  function OnExit(cfg: Settings, s: RunState, info: ExitInfo): RunState {
    if Settled(s) then s
    else
      var exited := s.(exit := Some(info), clock := Disarm(s.clock, s.timers.run));
      if s.failure.Some? then SettleFailure(exited)
      else if s.stdoutEnded then MaybeComplete(cfg, exited)
      else exited.(timers := s.timers.(drain := Some(exited.clock.nextId)), clock := Arm(exited.clock, Drain, cfg.drain))
  }

  function OnCancel(cfg: Settings, s: RunState): RunState {
    if Settled(s) || s.cancellationRequested || s.parser.terminal.Some? then s
    else
      var requested := s.(cancellationRequested := true);
      if !s.spawned || s.exit.Some? then requested
      else StartCleanup(cfg, requested.(process := Terminating), true)
  }

  function OnFire(cfg: Settings, s: RunState, id: nat): RunState
    requires id in s.clock.armed
  {
    var rung := s.(clock := Disarm(s.clock, Some(id)));
    match s.clock.armed[id].kind
    case RunLimit => BeginFailure(cfg, rung, TimedOut)
    case Cleanup(byCancel) =>
      rung.(forced := rung.forced + 1, timers := rung.timers.(force := Some(rung.clock.nextId)),
            clock := Arm(rung.clock, Force(byCancel), cfg.force))
    case Force(byCancel) =>
      if Settled(s) then rung
      else if byCancel then SettleFailure(rung.(failure := Some(ProcessExited), closed := true))
      else SettleFailure(rung)
    case Drain => FinishStdout(cfg, rung)
  }

  function Step(cfg: Settings, s: RunState, input: Input): RunState {
    if !Enabled(s, input) then s
    else match input
      case Data(chunk) => OnData(cfg, s, chunk)
      case End => OnEnd(cfg, s)
      case StdinError => BeginFailure(cfg, s, StdinFailed)
      case ProcessError => FailImmediately(s, SpawnFailed)
      case Exit(info) => OnExit(cfg, s, info)
      case Cancel => OnCancel(cfg, s)
      case Fire(id) => OnFire(cfg, s, id)
      case Pass(to) => s.(clock := s.clock.(now := to))
  }

  function Exec(cfg: Settings, s: RunState, inputs: seq<Input>): RunState
    decreases |inputs|
  {
    if inputs == [] then s else Exec(cfg, Step(cfg, s, inputs[0]), inputs[1..])
  }

  function After(cfg: Settings, launch: Launch, inputs: seq<Input>): RunState {
    Exec(cfg, Begin(cfg, launch), inputs)
  }
}
