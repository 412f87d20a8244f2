/**
  One short-lived probe process: bounded time, bounded output, one result.
 */
module BoundedProcess {
  import opened Wrappers
  import opened Timers
  import opened Lines
  import StreamParsing

  type Text = StreamParsing.Text

  const MAX_OUTPUT_CHARS := 100_000
  const GRACEFUL_TERMINATION_MS: Millis := 500.0

  datatype TimerKind = Timeout | Force | Settle

  datatype ProbeResult = ProbeResult(
    exitCode: Option<nat>, signal: Option<string>, stdout: Text, stderr: Text,
    timedOut: bool, aborted: bool, spawnError: Option<string>)

  datatype Config = Config(timeout: Millis, grace: Millis, maxOutput: nat)

  /** The captured variables; the chunks heard on either stream; how often the process was killed and forced. */
  datatype ProbeState = ProbeState(
    stdout: Text, stderr: Text, result: Option<ProbeResult>, timedOut: bool, aborted: bool,
    timeoutTimer: Option<nat>, forceTimer: Option<nat>, settleTimer: Option<nat>, clock: Clock<TimerKind>,
    terminationStarted: bool, listening: bool, pid: Option<nat>,
    heardOut: seq<Text>, heardErr: seq<Text>, kills: nat, forced: nat)

  const Blank := ProbeState([], [], None, false, false, None, None, None, Start(), false, false, None, [], [], 0, 0)

  datatype ExitInfo = ExitInfo(code: Option<nat>, signal: Option<string>)

  datatype Launch = AlreadyAborted | SpawnThrows(message: string) | Spawned(pid: Option<nat>)

  /** The operating system may report the exit from within the kill call. */
  type KillEffect = Option<ExitInfo>

  datatype Input =
    | Stdout(text: Text)
    | Stderr(text: Text)
    | ProcessError(message: string)
    | Exit(info: ExitInfo)
    | Abort(killed: KillEffect)
    | Fire(id: nat, killed: KillEffect)
    | Pass(to: real)

  /** The listeners are attached until the probe settles; error and exit callbacks stay. */
  predicate Enabled(s: ProbeState, input: Input) {
    match input
    case Stdout(_) => s.listening
    case Stderr(_) => s.listening
    case ProcessError(_) => true
    case Exit(_) => true
    case Abort(_) => s.listening
    case Fire(id, _) => Due(s.clock, id)
    case Pass(to) => MayPass(s.clock, to)
  }

  function Capped(text: Text, cap: nat): Text {
    if |text| <= cap then text else text[..cap]
  }

  function Capture(cfg: Config, kept: Text, chunk: Text): Text {
    if |kept| < cfg.maxOutput then Capped(kept + chunk, cfg.maxOutput) else kept
  }

  /** The first result wins; all timers and listeners go. */
  function SettleWith(s: ProbeState, result: ProbeResult): ProbeState {
    if s.result.Some? then s
    else s.(result := Some(result), listening := false, timeoutTimer := None, forceTimer := None, settleTimer := None,
            clock := Disarm(Disarm(Disarm(s.clock, s.timeoutTimer), s.forceTimer), s.settleTimer))
  }

  function ResultNow(s: ProbeState, info: ExitInfo, spawnError: Option<string>): ProbeResult {
    ProbeResult(info.code, info.signal, s.stdout, s.stderr, s.timedOut, s.aborted, spawnError)
  }

  const Nothing := ExitInfo(None, None)

  function OnExit(s: ProbeState, info: ExitInfo): ProbeState {
    SettleWith(s, ResultNow(s, info, None))
  }

  function Terminate(cfg: Config, s: ProbeState, killed: KillEffect): ProbeState {
    if s.terminationStarted then s
    else
      var asked := s.(terminationStarted := true, kills := s.kills + 1);
      var after := if killed.Some? then OnExit(asked, killed.value) else asked;
      if after.result.Some? then after
      else if s.pid.None? then after.(settleTimer := Some(after.clock.nextId), clock := Arm(after.clock, Settle, 0.0))
      else after.(forceTimer := Some(after.clock.nextId), clock := Arm(after.clock, Force, cfg.grace))
  }

  function OnFire(cfg: Config, s: ProbeState, id: nat, killed: KillEffect): ProbeState
    requires id in s.clock.armed
  {
    var rung := s.(clock := Disarm(s.clock, Some(id)));
    match s.clock.armed[id].kind
    case Timeout => Terminate(cfg, rung.(timedOut := true), killed)
    case Force =>
      rung.(forced := rung.forced + 1, settleTimer := Some(rung.clock.nextId), clock := Arm(rung.clock, Settle, 0.0))
    case Settle => SettleWith(rung, ResultNow(rung, Nothing, None))
  }

  function Begin(cfg: Config, launch: Launch): ProbeState {
    match launch
    case AlreadyAborted => Blank.(result := Some(ProbeResult(None, None, [], [], false, true, None)))
    case SpawnThrows(message) => Blank.(result := Some(ProbeResult(None, None, [], [], false, false, Some(message))))
    case Spawned(pid) =>
      Blank.(pid := pid, listening := true, timeoutTimer := Some(0), clock := Arm(Blank.clock, Timeout, cfg.timeout))
  }

  function Step(cfg: Config, s: ProbeState, input: Input): ProbeState {
    if !Enabled(s, input) then s
    else match input
      case Stdout(text) => s.(stdout := Capture(cfg, s.stdout, text), heardOut := s.heardOut + [text])
      case Stderr(text) => s.(stderr := Capture(cfg, s.stderr, text), heardErr := s.heardErr + [text])
      case ProcessError(message) => SettleWith(s, ResultNow(s, Nothing, Some(message)))
      case Exit(info) => OnExit(s, info)
      case Abort(killed) => Terminate(cfg, s.(aborted := true), killed)
      case Fire(id, killed) => OnFire(cfg, s, id, killed)
      case Pass(to) => s.(clock := s.clock.(now := to))
  }

  function Exec(cfg: Config, s: ProbeState, inputs: seq<Input>): ProbeState
    decreases |inputs|
  {
    if inputs == [] then s else Exec(cfg, Step(cfg, s, inputs[0]), inputs[1..])
  }

  function After(cfg: Config, launch: Launch, inputs: seq<Input>): ProbeState {
    Exec(cfg, Begin(cfg, launch), inputs)
  }

  // ---------------------------------------------------------------- the closures' variables

  class BoundedProbe {
    const cfg: Config
    const pid: Option<nat>
    var stdout: Text
    var stderr: Text
    var result: Option<ProbeResult>
    var timedOut: bool
    var aborted: bool
    var timeoutTimer: Option<nat>
    var forceTimer: Option<nat>
    var settleTimer: Option<nat>
    var clock: Clock<TimerKind>
    var terminationStarted: bool
    var listening: bool
    ghost var heardOut: seq<Text>
    ghost var heardErr: seq<Text>
    ghost var kills: nat
    ghost var forced: nat

    ghost function State(): ProbeState
      reads this
    {
      ProbeState(stdout, stderr, result, timedOut, aborted, timeoutTimer, forceTimer, settleTimer, clock,
                 terminationStarted, listening, pid, heardOut, heardErr, kills, forced)
    }

    /** The output cap defaults to 100,000 code units, the grace period to 500 ms. */
    constructor (timeout: Millis, grace: Option<Millis>, maxOutput: Option<nat>, launch: Launch)
      ensures cfg == Config(timeout, if grace.Some? then grace.value else GRACEFUL_TERMINATION_MS,
                            if maxOutput.Some? then maxOutput.value else MAX_OUTPUT_CHARS)
      ensures State() == Begin(cfg, launch)
    {
      cfg := Config(timeout, if grace.Some? then grace.value else GRACEFUL_TERMINATION_MS,
                    if maxOutput.Some? then maxOutput.value else MAX_OUTPUT_CHARS);
      pid := if launch.Spawned? then launch.pid else None;
      stdout, stderr, result, timedOut, aborted := [], [], None, false, false;
      timeoutTimer, forceTimer, settleTimer, clock, terminationStarted, listening := None, None, None, Start(), false, false;
      heardOut, heardErr, kills, forced := [], [], 0, 0;
      new;
      match launch {
        case AlreadyAborted => result := Some(ProbeResult(None, None, [], [], false, true, None));
        case SpawnThrows(message) => result := Some(ProbeResult(None, None, [], [], false, false, Some(message)));
        case Spawned(_) =>
          timeoutTimer := Some(clock.nextId);
          clock := Arm(clock, Timeout, cfg.timeout);
          listening := true;
      }
    }

    method Cleanup()
      modifies this`clock, this`timeoutTimer, this`forceTimer, this`settleTimer, this`listening
      ensures State() == old(State()).(listening := false, timeoutTimer := None, forceTimer := None, settleTimer := None,
                clock := Disarm(Disarm(Disarm(old(clock), old(timeoutTimer)), old(forceTimer)), old(settleTimer)))
    {
      clock := Disarm(clock, timeoutTimer);
      timeoutTimer := None;
      clock := Disarm(clock, forceTimer);
      forceTimer := None;
      clock := Disarm(clock, settleTimer);
      settleTimer := None;
      listening := false;
    }

    method SettleResult(value: ProbeResult)
      modifies this
      ensures State() == SettleWith(old(State()), value)
    {
      if result != None { return; }
      result := Some(value);
      Cleanup();
    }

    method OnProcessExit(info: ExitInfo)
      modifies this
      ensures State() == OnExit(old(State()), info)
    {
      SettleResult(ProbeResult(info.code, info.signal, stdout, stderr, timedOut, aborted, None));
    }

    method OnProcessError(message: string)
      modifies this
      ensures State() == SettleWith(old(State()), ResultNow(old(State()), Nothing, Some(message)))
    {
      SettleResult(ProbeResult(None, None, stdout, stderr, timedOut, aborted, Some(message)));
    }

    method TerminateProcess(killed: KillEffect)
      modifies this
      ensures State() == Terminate(cfg, old(State()), killed)
    {
      hide OnExit;
      if terminationStarted { return; }
      terminationStarted := true;
      kills := kills + 1;
      if killed != None { OnProcessExit(killed.value); }
      if result != None { KeepsPid(old(State()), killed); return; }
      if pid == None { SettleSoon(); } else { ForceLater(); }
    }

    method SettleSoon()
      modifies this`settleTimer, this`clock
      ensures State() == old(State()).(settleTimer := Some(old(clock.nextId)), clock := Arm(old(clock), Settle, 0.0))
    {
      settleTimer := Some(clock.nextId);
      clock := Arm(clock, Settle, 0.0);
    }

    method ForceLater()
      modifies this`forceTimer, this`clock
      ensures State() == old(State()).(forceTimer := Some(old(clock.nextId)), clock := Arm(old(clock), Force, cfg.grace))
    {
      forceTimer := Some(clock.nextId);
      clock := Arm(clock, Force, cfg.grace);
    }

    method OnAbort(killed: KillEffect)
      modifies this
      ensures State() == Terminate(cfg, old(State()).(aborted := true), killed)
    {
      aborted := true;
      TerminateProcess(killed);
    }

    method OnStdout(chunk: Text)
      modifies this`stdout, this`heardOut
      ensures State() == old(State()).(stdout := Capture(cfg, old(stdout), chunk), heardOut := old(heardOut) + [chunk])
    {
      heardOut := heardOut + [chunk];
      if |stdout| < cfg.maxOutput {
        stdout := stdout + chunk;
        if |stdout| > cfg.maxOutput { stdout := stdout[..cfg.maxOutput]; }
      }
    }

    method OnStderr(chunk: Text)
      modifies this`stderr, this`heardErr
      ensures State() == old(State()).(stderr := Capture(cfg, old(stderr), chunk), heardErr := old(heardErr) + [chunk])
    {
      heardErr := heardErr + [chunk];
      if |stderr| < cfg.maxOutput {
        stderr := stderr + chunk;
        if |stderr| > cfg.maxOutput { stderr := stderr[..cfg.maxOutput]; }
      }
    }

    /** The clock rings one due timer. */
    method OnTimer(id: nat, killed: KillEffect)
      requires id in clock.armed
      modifies this
      ensures State() == OnFire(cfg, old(State()), id, killed)
    {
      hide Terminate, SettleWith;
      var kind := clock.armed[id].kind;
      clock := Disarm(clock, Some(id));
      match kind {
        case Timeout =>
          timedOut := true;
          TerminateProcess(killed);
        case Force =>
          forced := forced + 1;
          SettleSoon();
        case Settle =>
          SettleResult(ProbeResult(None, None, stdout, stderr, timedOut, aborted, None));
      }
    }
  }

  lemma KeepsPid(s: ProbeState, killed: KillEffect)
    ensures killed.Some? ==> OnExit(s, killed.value).pid == s.pid
  {
  }
}
