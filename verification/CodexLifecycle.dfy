/**
  The life of one Codex run as a state machine over everything that can happen to it, in any
  order: first iteration, gate result, cancellation, stdout, stderr, stdin and process callbacks,
  timers, and the passing of time.
 */
module CodexLifecycle {
  import opened Wrappers
  import opened Events
  import opened Timers
  import P = StreamParsing
  import M = CodexMapping

  const MAX_TOLERATED_MALFORMED_LINES := 5

  datatype TimerKind = Startup | Grace | MaxDuration | Inactivity | Drain

  datatype Failure = Failure(code: string, message: string)

  /** Identity, collaborators and durations of one run; `read` is JSON parsing plus classification of a line. */
  datatype Config = Config(
    ctx: Context, safe: M.PathCheck, read: P.Text -> P.Reading<M.Message>, hasGate: bool,
    startup: Millis, maxDuration: Millis, inactivity: Millis, drain: Millis, grace: Millis)

  function ParserConfig(cfg: Config): P.Config<M.Message> {
    P.Config(P.MAX_LINE_LENGTH, P.MAX_MESSAGES, cfg.read)
  }

  /** Idle before the first iteration; Gating while the gate decides; Live from the max-duration timer on. */
  datatype Phase = Idle | Gating | Live | Stopped

  datatype ProcessHandle = ProcessHandle(pid: Option<nat>)

  datatype ExitInfo = ExitInfo(code: Option<nat>, signal: Option<string>)

  /** Factory, guard, queue and completion promise of the run. */
  datatype Outbox = Outbox(kit: Kit, queued: seq<Event>, closed: bool, completion: Option<Event>)

  /** The five timer fields and the clock. */
  datatype Bells = Bells(startup: Option<nat>, grace: Option<nat>, maxDuration: Option<nat>,
                         inactivity: Option<nat>, drain: Option<nat>, clock: Clock<TimerKind>)

  datatype Cancellation = Cancellation(recorded: bool, requested: bool, who: CancelledBy, reason: Option<string>)

  /** What reached the operating system: spawn calls, kill-then-grace sequences, forced kills. */
  datatype OsLog = OsLog(spawns: nat, kills: nat, forced: nat)

  datatype RunState = RunState(
    phase: Phase, liveAt: real,
    parser: P.ParserState<M.Message>, mapper: M.MapperState, out: Outbox, bells: Bells,
    handle: Option<ProcessHandle>, listening: bool,
    cancel: Cancellation, terminationStarted: bool, malformed: nat, stdinFailed: bool,
    exitInfo: Option<ExitInfo>, stdoutEnded: bool, os: OsLog)

  function Initial(): RunState {
    RunState(Idle, 0.0, P.Fresh(), M.Fresh, Outbox(Kit(0, None), [], false, None),
             Bells(None, None, None, None, None, Start()), None, false,
             Cancellation(false, false, System, None), false, 0, false, None, false, OsLog(0, 0, 0))
  }

  // ----------------------------------------------------------------------- failures

  const START_FAILED := "CODEX_PROCESS_START_FAILED"
  const NotPrepared := Failure(START_FAILED, "Codex could not be safely prepared for execution.")
  const GateRefused := Failure(START_FAILED, "Codex could not be safely prepared.")
  const NotStarted := Failure(START_FAILED, "Codex could not be started.")
  const ProcessCrashed := Failure(START_FAILED, "Codex process could not be started or crashed.")
  const StartupSilence := Failure(START_FAILED, "Codex did not produce any output before the startup timeout.")
  const PromptLost := Failure(START_FAILED, "Codex process could not receive its task prompt.")
  const TookTooLong := Failure("CODEX_USAGE_LIMIT_REACHED", "Codex did not complete within the allotted run time.")
  const WentSilent := Failure("CODEX_OUTPUT_INACTIVITY_TIMEOUT",
                              "Codex produced no output for longer than the allotted inactivity timeout.")
  const TooManyMalformed := Failure("CODEX_STREAM_INVALID", "Codex produced too many malformed stream lines.")
  const LineOversized := Failure("CODEX_STREAM_INVALID", "Codex produced an oversized stream line.")
  const TooManyMessages := Failure("CODEX_STREAM_INVALID",
                                   "Codex exceeded the maximum number of stream messages permitted for one task.")
  const StreamTruncated := Failure("CODEX_STREAM_TRUNCATED", "Codex's output stream ended mid-message.")
  const ResultMissing := Failure("CODEX_RESULT_MISSING", "Codex exited without reporting a final result.")

  function Decimal(n: nat): string {
    (if n < 10 then "" else Decimal(n / 10)) + ["0123456789"[n % 10]]
  }

  function ExitedWith(code: Option<nat>): Failure {
    Failure("CODEX_PROCESS_EXITED",
            "Codex exited unexpectedly with code " + (if code.Some? then Decimal(code.value) else "unknown") + ".")
  }

  function Failed(f: Failure): Body {
    RunFailed(f.code, f.message)
  }

  // ------------------------------------------------------------------ outbox and timers

  /** Submit one event; if the guard lets it through it is queued, and a terminal one ends the run. */
  function Deliver(ctx: Context, out: Outbox, body: Body): Outbox {
    var (kit, event) := Submit(ctx, out.kit, body);
    if event.None? then out.(kit := kit)
    else Outbox(kit,
                if out.closed then out.queued else out.queued + [event.value],
                out.closed || IsTerminal(body),
                if IsTerminal(body) && out.completion.None? then event else out.completion)
  }

  /** The end of `#finishFailed` and `#finishCancelled`: the queue is closed whatever the guard said. */
  function Conclude(ctx: Context, out: Outbox, body: Body): Outbox {
    Deliver(ctx, out, body).(closed := true)
  }

  function Slot(b: Bells, kind: TimerKind): Option<nat> {
    match kind
    case Startup => b.startup
    case Grace => b.grace
    case MaxDuration => b.maxDuration
    case Inactivity => b.inactivity
    case Drain => b.drain
  }

  function WithSlot(b: Bells, kind: TimerKind, handle: Option<nat>): Bells {
    match kind
    case Startup => b.(startup := handle)
    case Grace => b.(grace := handle)
    case MaxDuration => b.(maxDuration := handle)
    case Inactivity => b.(inactivity := handle)
    case Drain => b.(drain := handle)
  }

  function Set(b: Bells, kind: TimerKind, delay: Millis): Bells {
    WithSlot(b, kind, Some(b.clock.nextId)).(clock := Arm(b.clock, kind, delay))
  }

  function Clear(b: Bells, kind: TimerKind): Bells {
    WithSlot(b, kind, None).(clock := Disarm(b.clock, Slot(b, kind)))
  }

  function ClearAll(b: Bells): Bells {
    Clear(Clear(Clear(Clear(Clear(b, Startup), Inactivity), Grace), MaxDuration), Drain)
  }

  // -------------------------------------------------------------------- shared steps

  function Finish(cfg: Config, s: RunState, body: Body): RunState {
    s.(out := Conclude(cfg.ctx, s.out, body))
  }

  function Cleanup(s: RunState): RunState {
    s.(bells := ClearAll(s.bells), listening := false)
  }

  function FinishCancelled(cfg: Config, s: RunState): RunState {
    Cleanup(Finish(cfg, s, RunCancelled(s.cancel.who, s.cancel.reason)))
  }

  predicate Terminated(s: RunState) {
    s.out.kit.terminal.Some?
  }

  /** Kill, then after the grace period force: at most once per run. */
  function TerminateProcess(cfg: Config, s: RunState): RunState {
    if s.terminationStarted then s
    else if s.handle.None? then s.(terminationStarted := true)
    else s.(terminationStarted := true, os := s.os.(kills := s.os.kills + 1),
            bells := if s.handle.value.pid.Some? then Set(s.bells, Grace, cfg.grace) else s.bells)
  }

  function FailAndTerminate(cfg: Config, s: RunState, f: Failure): RunState {
    TerminateProcess(cfg, Finish(cfg, s, Failed(f)))
  }

  function ArmInactivity(cfg: Config, s: RunState): RunState {
    if Terminated(s) then s else s.(bells := Set(Clear(s.bells, Inactivity), Inactivity, cfg.inactivity))
  }

  // ------------------------------------------------------------------- stdout outcomes

  function TakeMessage(cfg: Config, s: RunState, m: M.Message): RunState {
    if Terminated(s) then s
    else
      var (mapper, body) := M.Mapped(cfg.safe, s.mapper, m);
      if body.None? then s.(mapper := mapper)
      else s.(mapper := mapper, out := Deliver(cfg.ctx, s.out, body.value),
              bells := if IsTerminal(body.value) then Clear(s.bells, Inactivity) else s.bells)
  }

  function TakeMessages(cfg: Config, s: RunState, ms: seq<M.Message>): RunState
    decreases |ms|
  {
    if ms == [] then s else TakeMessages(cfg, TakeMessage(cfg, s, ms[0]), ms[1..])
  }

  function TakeOutcome(cfg: Config, s: RunState, o: P.Outcome<M.Message>): RunState {
    match o
    case Messages(ms) => TakeMessages(cfg, s, ms)
    case MalformedJson(_) => TakeMalformed(cfg, s)
    case InvalidLine(_) => TakeMalformed(cfg, s)
    case OversizedLine => FailAndTerminate(cfg, s, LineOversized)
    case MessageLimitReached => FailAndTerminate(cfg, s, TooManyMessages)
    case TruncatedFinalLine => FailAndTerminate(cfg, s, StreamTruncated)
  }

  function TakeMalformed(cfg: Config, s: RunState): RunState {
    var counted := s.(malformed := s.malformed + 1);
    if counted.malformed > MAX_TOLERATED_MALFORMED_LINES then FailAndTerminate(cfg, counted, TooManyMalformed) else counted
  }

  function TakeOutcomes(cfg: Config, s: RunState, os: seq<P.Outcome<M.Message>>): RunState
    decreases |os|
  {
    if os == [] then s else TakeOutcomes(cfg, TakeOutcome(cfg, s, os[0]), os[1..])
  }

  /** What the parser reported since `before`. */
  function Reported(before: P.ParserState<M.Message>, after: P.ParserState<M.Message>): seq<P.Outcome<M.Message>> {
    if |before.outcomes| <= |after.outcomes| then after.outcomes[|before.outcomes|..] else []
  }

  function TakeChunk(cfg: Config, s: RunState, text: P.Text): RunState {
    if Terminated(s) then s
    else
      var parser := P.AfterPush(ParserConfig(cfg), s.parser, text);
      TakeOutcomes(cfg, s.(parser := parser), Reported(s.parser, parser))
  }

  // ----------------------------------------------------------------------- callbacks

  datatype Launch = SpawnThrows | Spawned(pid: Option<nat>, writeThrows: bool)

  datatype GateResult = Passed | GateThrew | Refused(cancelled: bool, failure: Option<Failure>)

  datatype Input =
    | Iterate(launch: Launch)
    | GateResolved(result: GateResult, gateLaunch: Launch)
    | Cancel(who: CancelledBy, reason: Option<string>)
    | StdoutData(text: P.Text)
    | StdoutEnd
    | StderrData
    | StdinError
    | ProcessError
    | Exit(info: ExitInfo)
    | Fire(id: nat)
    | Pass(to: real)

  /** The process is alive to the run: at most one exit, no stdout after its end, no callback once detached. */
  predicate Enabled(s: RunState, input: Input) {
    match input
    case GateResolved(_, _) => s.phase.Gating?
    case StdoutData(_) => s.listening && !s.stdoutEnded
    case StdoutEnd => s.listening && !s.stdoutEnded
    case StderrData => s.listening
    case StdinError => s.listening
    case ProcessError => s.handle.Some?
    case Exit(_) => s.handle.Some? && s.exitInfo.None?
    case Fire(id) => Due(s.bells.clock, id)
    case Pass(to) => MayPass(s.bells.clock, to)
    case _ => true
  }

  /** The child runs: announce it, watch for silence, attach the listeners. */
  function Supervise(cfg: Config, live: RunState, pid: Option<nat>): RunState {
    var announced := live.(handle := Some(ProcessHandle(pid)), out := Deliver(cfg.ctx, live.out, RunStarted));
    var armed := ArmInactivity(cfg, announced);
    armed.(bells := Set(armed.bells, Startup, cfg.startup), listening := true)
  }

  /** `#start` after the gate: arm the max-duration timer, spawn, supervise, send the prompt. */
  function LaunchProcess(cfg: Config, s: RunState, launch: Launch): RunState {
    var live := s.(phase := Live, liveAt := s.bells.clock.now, bells := Set(s.bells, MaxDuration, cfg.maxDuration),
                   os := s.os.(spawns := s.os.spawns + 1));
    match launch
    case SpawnThrows => Finish(cfg, live, Failed(NotStarted))
    case Spawned(pid, writeThrows) =>
      var ready := Supervise(cfg, live, pid);
      if writeThrows && !Terminated(ready) then FailAndTerminate(cfg, ready.(stdinFailed := true), PromptLost) else ready
  }

  function OnIterate(cfg: Config, s: RunState, launch: Launch): RunState {
    if !s.phase.Idle? then s
    else if s.cancel.recorded then FinishCancelled(cfg, s.(phase := Stopped))
    else if cfg.hasGate then s.(phase := Gating)
    else LaunchProcess(cfg, s, launch)
  }

  function OnGate(cfg: Config, s: RunState, result: GateResult, launch: Launch): RunState {
    if s.cancel.recorded || (result.Refused? && result.cancelled) then FinishCancelled(cfg, s.(phase := Stopped))
    else match result
      case Passed => LaunchProcess(cfg, s, launch)
      case GateThrew => Finish(cfg, s.(phase := Stopped), Failed(NotPrepared))
      case Refused(_, failure) =>
        Finish(cfg, s.(phase := Stopped), Failed(if failure.Some? then failure.value else GateRefused))
  }

  function BeginCancellation(cfg: Config, s: RunState): RunState {
    if Terminated(s) then s else TerminateProcess(cfg, s.(cancel := s.cancel.(requested := true)))
  }

  function OnCancel(cfg: Config, s: RunState, who: CancelledBy, reason: Option<string>): RunState {
    if s.cancel.recorded then s
    else
      var recorded := s.(cancel := Cancellation(true, s.cancel.requested, who, reason));
      if s.phase.Idle? then recorded else BeginCancellation(cfg, recorded)
  }

  function ClearStartup(s: RunState): RunState {
    s.(bells := Clear(s.bells, Startup))
  }

  function OnData(cfg: Config, s: RunState, text: P.Text): RunState {
    TakeChunk(cfg, ArmInactivity(cfg, ClearStartup(s)), text)
  }

  /** Once both exit and end of stdout are known: flush the parser, end the run if nothing has, release everything. */
  function TryFinalize(cfg: Config, s: RunState): RunState {
    if s.exitInfo.None? || !s.stdoutEnded then s
    else
      var parser := P.AfterFlush(s.parser);
      var flushed := if Terminated(s) then s else TakeOutcomes(cfg, s.(parser := parser), Reported(s.parser, parser));
      Cleanup(
        if Terminated(flushed) then flushed
        else if flushed.cancel.requested then FinishCancelled(cfg, flushed)
        else Finish(cfg, flushed,
                    Failed(if s.exitInfo.value.code == Some(0) then ResultMissing else ExitedWith(s.exitInfo.value.code))))
  }

  function OnEnd(cfg: Config, s: RunState): RunState {
    TryFinalize(cfg, s.(stdoutEnded := true, bells := Clear(s.bells, Drain)))
  }

  function OnExit(cfg: Config, s: RunState, info: ExitInfo): RunState {
    var exited := ClearStartup(s).(exitInfo := Some(info));
    TryFinalize(cfg, if s.stdoutEnded then exited else exited.(bells := Set(exited.bells, Drain, cfg.drain)))
  }

  function OnStdinError(cfg: Config, s: RunState): RunState {
    if s.stdinFailed || Terminated(s) then s else FailAndTerminate(cfg, s.(stdinFailed := true), PromptLost)
  }

  function OnFire(cfg: Config, s: RunState, id: nat): RunState
    requires id in s.bells.clock.armed
  {
    var rung := s.(bells := s.bells.(clock := Disarm(s.bells.clock, Some(id))));
    match s.bells.clock.armed[id].kind
    case Startup => FailAndTerminate(cfg, rung, StartupSilence)
    case Grace => rung.(os := rung.os.(forced := rung.os.forced + 1))
    case MaxDuration => FailAndTerminate(cfg, rung, TookTooLong)
    case Inactivity => if Terminated(rung) then rung else FailAndTerminate(cfg, rung, WentSilent)
    case Drain => TryFinalize(cfg, rung.(stdoutEnded := true))
  }

  /** One thing happens; what cannot happen in `s` changes nothing. */
  function Step(cfg: Config, s: RunState, input: Input): RunState {
    if !Enabled(s, input) then s
    else match input
      case Iterate(launch) => OnIterate(cfg, s, launch)
      case GateResolved(result, launch) => OnGate(cfg, s, result, launch)
      case Cancel(who, reason) => OnCancel(cfg, s, who, reason)
      case StdoutData(text) => OnData(cfg, s, text)
      case StdoutEnd => OnEnd(cfg, s)
      case StderrData => ArmInactivity(cfg, s)
      case StdinError => OnStdinError(cfg, s)
      case ProcessError => Finish(cfg, ClearStartup(s), Failed(ProcessCrashed))
      case Exit(info) => OnExit(cfg, s, info)
      case Fire(id) => OnFire(cfg, s, id)
      case Pass(to) => s.(bells := s.bells.(clock := s.bells.clock.(now := to)))
  }

  function Exec(cfg: Config, s: RunState, inputs: seq<Input>): RunState
    decreases |inputs|
  {
    if inputs == [] then s else Exec(cfg, Step(cfg, s, inputs[0]), inputs[1..])
  }
}
