/**
  The Codex run itself: the object whose fields the callbacks update, proved step by step against
  the state machine of `CodexLifecycle`.
 */
module CodexRuns {
  import opened Wrappers
  import opened Events
  import opened Timers
  import opened AsyncQueues
  import opened CodexLifecycle
  import P = StreamParsing
  import M = CodexMapping

  class CodexRun {
    const cfg: Config
    const factory: EventFactory
    const guard: TerminalEventGuard
    const mapper: M.EventMapper
    const parser: P.StreamParser<M.Message>
    const queue: AsyncQueue<Event>

    var phase: Phase
    var processHandle: Option<ProcessHandle>
    var listening: bool
    var startupTimer: Option<nat>
    var gracePeriodTimer: Option<nat>
    var maxDurationTimer: Option<nat>
    var inactivityTimer: Option<nat>
    var postExitStdoutDrainTimer: Option<nat>
    var clock: Clock<TimerKind>
    var cancellationRecorded: bool
    var cancellationRequested: bool
    var terminationStarted: bool
    var cancelledBy: CancelledBy
    var cancelReason: Option<string>
    var malformedLineCount: nat
    var stdinFailed: bool
    var exitInfo: Option<ExitInfo>
    var stdoutEnded: bool
    var completion: Option<Event>
    ghost var liveAt: real
    ghost var os: OsLog

    ghost function Repr(): set<object> {
      {this, factory, guard, mapper, parser, queue}
    }

    ghost predicate Valid()
      reads Repr()
    {
      && factory.ctx == cfg.ctx && mapper.factory == factory && mapper.guard == guard && mapper.safePath == cfg.safe
      && parser.cfg == ParserConfig(cfg) && queue.Valid()
    }

    ghost function Out(): Outbox
      reads this, factory, guard, queue
    {
      Outbox(Kit(factory.sequence, guard.terminalEvent), Pushed(queue.history), queue.closed, completion)
    }

    ghost function Timers(): Bells
      reads this
    {
      Bells(startupTimer, gracePeriodTimer, maxDurationTimer, inactivityTimer, postExitStdoutDrainTimer, clock)
    }

    ghost function State(): RunState
      reads Repr()
    {
      RunState(phase, liveAt, parser.State(), mapper.State(), Out(), Timers(), processHandle, listening,
               Cancellation(cancellationRecorded, cancellationRequested, cancelledBy, cancelReason),
               terminationStarted, malformedLineCount, stdinFailed, exitInfo, stdoutEnded, os)
    }

    constructor (cfg: Config)
      ensures Valid() && State() == Initial() && this.cfg == cfg && fresh(Repr())
    {
      var f := new EventFactory(cfg.ctx);
      var g := new TerminalEventGuard();
      var m := new M.EventMapper(f, g, cfg.safe);
      var p := new P.StreamParser(None, None, cfg.read);
      var q := new AsyncQueue();
      this.cfg, factory, guard, mapper, parser, queue := cfg, f, g, m, p, q;
      phase, liveAt, processHandle, listening := Idle, 0.0, None, false;
      startupTimer, gracePeriodTimer, maxDurationTimer, inactivityTimer := None, None, None, None;
      postExitStdoutDrainTimer, clock := None, Start();
      cancellationRecorded, cancellationRequested, terminationStarted := false, false, false;
      cancelledBy, cancelReason, malformedLineCount, stdinFailed := System, None, 0, false;
      exitInfo, stdoutEnded, completion, os := None, false, None, OsLog(0, 0, 0);
    }

    // ------------------------------------------------------------------- timers

    method ClearStartupTimer()
      modifies this`startupTimer, this`clock
      ensures Timers() == Clear(old(Timers()), Startup)
    {
      clock := Disarm(clock, startupTimer);
      startupTimer := None;
    }

    method ClearInactivityTimer()
      modifies this`inactivityTimer, this`clock
      ensures Timers() == Clear(old(Timers()), Inactivity)
    {
      clock := Disarm(clock, inactivityTimer);
      inactivityTimer := None;
    }

    method ClearPostExitStdoutDrainTimer()
      modifies this`postExitStdoutDrainTimer, this`clock
      ensures Timers() == Clear(old(Timers()), Drain)
    {
      clock := Disarm(clock, postExitStdoutDrainTimer);
      postExitStdoutDrainTimer := None;
    }

    method ArmInactivityTimer()
      requires Valid()
      modifies this`inactivityTimer, this`clock
      ensures Valid() && State() == ArmInactivity(cfg, old(State()))
    {
      if guard.terminalEvent != None { return; }
      clock := Disarm(clock, inactivityTimer);
      inactivityTimer := Some(clock.nextId);
      clock := Arm(clock, Inactivity, cfg.inactivity);
    }

    method ClearGracePeriodTimer()
      modifies this`gracePeriodTimer, this`clock
      ensures Timers() == Clear(old(Timers()), Grace)
    {
      clock := Disarm(clock, gracePeriodTimer);
      gracePeriodTimer := None;
    }

    method ClearMaxDurationTimer()
      modifies this`maxDurationTimer, this`clock
      ensures Timers() == Clear(old(Timers()), MaxDuration)
    {
      clock := Disarm(clock, maxDurationTimer);
      maxDurationTimer := None;
    }

    method ClearAllTimers()
      modifies this`startupTimer, this`inactivityTimer, this`gracePeriodTimer, this`maxDurationTimer
      modifies this`postExitStdoutDrainTimer, this`clock
      ensures Timers() == ClearAll(old(Timers()))
    {
      hide Clear;
      ClearStartupTimer();
      ClearInactivityTimer();
      ClearGracePeriodTimer();
      ClearMaxDurationTimer();
      ClearPostExitStdoutDrainTimer();
    }

    method Cleanup()
      requires Valid()
      modifies this`startupTimer, this`inactivityTimer, this`gracePeriodTimer, this`maxDurationTimer
      modifies this`postExitStdoutDrainTimer, this`clock, this`listening
      ensures Valid() && State() == CodexLifecycle.Cleanup(old(State()))
    {
      hide ClearAll;
      ClearAllTimers();
      listening := false;
    }

    // -------------------------------------------------------------- ending the run

    /** `resolveCompletion`: a promise keeps its first value. */
    method Resolve(event: Event)
      modifies this`completion
      ensures completion == if old(completion).Some? then old(completion) else Some(event)
    {
      if completion == None { completion := Some(event); }
    }

    method Enqueue(event: Event)
      requires queue.Valid()
      modifies queue
      ensures queue.Valid() && queue.closed == old(queue.closed)
      ensures Pushed(queue.history) == if old(queue.closed) then old(Pushed(queue.history)) else old(Pushed(queue.history)) + [event]
    {
      HistoryStep(queue.history, Op.Push(event));
      queue.Push(event);
    }

    method CloseQueue()
      requires queue.Valid()
      modifies queue
      ensures queue.Valid() && queue.closed && Pushed(queue.history) == old(Pushed(queue.history))
    {
      HistoryStep(queue.history, Op<Event>.Close);
      queue.Close();
    }

    method FinishWith(body: Body)
      requires Valid() && IsTerminal(body)
      modifies Repr()
      ensures Valid() && State() == Finish(cfg, old(State()), body)
    {
      hide CodexLifecycle.Conclude;
      Conclude(body);
    }

    /** Submit the terminal event; if the guard refuses it, only close the queue. */
    method Conclude(body: Body)
      requires Valid() && IsTerminal(body)
      modifies factory, guard, queue, this`completion
      ensures Valid() && Out() == CodexLifecycle.Conclude(cfg.ctx, old(Out()), body)
    {
      var event := Emit(factory, guard, body);
      if event.Ok? {
        Enqueue(event.value);
        Resolve(event.value);
      }
      CloseQueue();
    }

    method FinishFailed(f: Failure)
      requires Valid()
      modifies Repr()
      ensures Valid() && State() == Finish(cfg, old(State()), Failed(f))
    {
      FinishWith(Failed(f));
    }

    method FinishCancelled()
      requires Valid()
      modifies Repr()
      ensures Valid() && State() == CodexLifecycle.FinishCancelled(cfg, old(State()))
    {
      FinishWith(RunCancelled(cancelledBy, cancelReason));
      Cleanup();
    }

    method TerminateProcess()
      requires Valid()
      modifies this`terminationStarted, this`gracePeriodTimer, this`clock, this`os
      ensures Valid() && State() == CodexLifecycle.TerminateProcess(cfg, old(State()))
    {
      hide Set;
      if terminationStarted { return; }
      terminationStarted := true;
      if processHandle == None { return; }
      KillThenForce();
    }

    method KillThenForce()
      requires Valid() && processHandle.Some?
      modifies this`gracePeriodTimer, this`clock, this`os
      ensures Valid() && State() == old(State()).(os := old(os).(kills := old(os.kills) + 1),
                bells := if processHandle.value.pid.Some? then Set(old(Timers()), Grace, cfg.grace) else old(Timers()))
    {
      hide Set;
      os := os.(kills := os.kills + 1);
      if processHandle.value.pid != None { ArmGracePeriodTimer(); }
    }

    method FailAndTerminateProcess(f: Failure)
      requires Valid()
      modifies Repr()
      ensures Valid() && State() == FailAndTerminate(cfg, old(State()), f)
    {
      FinishFailed(f);
      TerminateProcess();
    }

    method BeginCancellationSequence()
      requires Valid()
      modifies this`cancellationRequested, this`terminationStarted, this`gracePeriodTimer, this`clock, this`os
      ensures Valid() && State() == BeginCancellation(cfg, old(State()))
    {
      if guard.terminalEvent != None { return; }
      cancellationRequested := true;
      TerminateProcess();
    }

    method Cancel(who: CancelledBy, reason: Option<string>)
      requires Valid()
      modifies this`cancellationRecorded, this`cancelledBy, this`cancelReason
      modifies this`cancellationRequested, this`terminationStarted, this`gracePeriodTimer, this`clock, this`os
      ensures Valid() && State() == OnCancel(cfg, old(State()), who, reason)
    {
      if cancellationRecorded { return; }
      cancellationRecorded := true;
      cancelledBy := who;
      cancelReason := reason;
      if phase != Idle { BeginCancellationSequence(); }
    }

    // --------------------------------------------------------------------- stdout

    /** One mapped event: queued, and if it is terminal the run ends with it. */
    method DispatchMappedEvent(event: Event)
      requires Valid()
      modifies this`completion, this`inactivityTimer, this`clock, queue
      ensures Valid() && State() == Dispatched(old(State()), event)
    {
      hide Clear;
      QueueEvent(event);
      if IsTerminal(event.body) {
        ClearInactivityTimer();
        ResolveAndClose(event);
      }
    }

    method QueueEvent(event: Event)
      requires Valid()
      modifies queue
      ensures Valid()
      ensures State() == old(State()).(out := old(Out()).(queued := if old(queue.closed) then old(Out().queued) else old(Out().queued) + [event]))
    {
      Enqueue(event);
    }

    method ResolveAndClose(event: Event)
      requires Valid()
      modifies this`completion, queue
      ensures Valid()
      ensures State() == old(State()).(out := old(Out()).(closed := true, completion := if old(completion).Some? then old(completion) else Some(event)))
    {
      Resolve(event);
      CloseQueue();
    }

    /** The mapper's events for one message, numbered and guarded but not yet queued. */
    method MapNext(m: M.Message) returns (events: seq<Event>)
      requires Valid() && guard.terminalEvent.None?
      modifies mapper, factory, guard
      ensures Valid()
      ensures var (correlated, body) := M.Mapped(cfg.safe, old(mapper.State()), m);
              && (body.None? ==> events == [] && State() == old(State()).(mapper := correlated))
              && (body.Some? ==>
                    var (kit, event) := Submit(cfg.ctx, old(Out().kit), body.value);
                    event.Some? && events == [event.value] &&
                    State() == old(State()).(mapper := correlated, out := old(Out()).(kit := kit)))
    {
      hide M.Mapped;
      ghost var body := M.Mapped(cfg.safe, mapper.State(), m).1;
      var mapped := mapper.MapMessage(m);
      assert body.None? || body.Some?;
      events := mapped.value;
    }

    method HandleMessage(m: M.Message)
      requires Valid() && guard.terminalEvent.None?
      modifies Repr()
      ensures Valid() && State() == TakeMessage(cfg, old(State()), m)
    {
      OpenGuardAdmits(cfg, State(), m);
      hide M.Mapped, Dispatched, Submit, TakeMessage;
      var events := MapNext(m);
      if |events| > 0 { DispatchMappedEvent(events[0]); }
    }

    method HandleMessages(ms: seq<M.Message>)
      requires Valid()
      modifies Repr()
      ensures Valid() && State() == TakeMessages(cfg, old(State()), ms)
    {
      hide TakeMessage;
      for i := 0 to |ms|
        invariant Valid() && State() == TakeMessages(cfg, old(State()), ms[..i])
      {
        if guard.terminalEvent != None {
          MessagesAfterEnd(cfg, State(), ms[i..]);
          MessagesAppend(cfg, old(State()), ms[..i], ms[i..]);
          assert ms[..i] + ms[i..] == ms;
          return;
        }
        MessagesAppend(cfg, old(State()), ms[..i], [ms[i]]);
        assert ms[..i + 1] == ms[..i] + [ms[i]];
        HandleMessage(ms[i]);
      }
      assert ms[..|ms|] == ms;
    }

    method HandleParserOutcome(o: P.Outcome<M.Message>)
      requires Valid()
      modifies Repr()
      ensures Valid() && State() == TakeOutcome(cfg, old(State()), o)
    {
      hide TakeMessages, FailAndTerminate;
      match o {
        case Messages(ms) => HandleMessages(ms);
        case MalformedJson(_) => CountMalformedLine();
        case InvalidLine(_) => CountMalformedLine();
        case OversizedLine => FailAndTerminateProcess(LineOversized);
        case MessageLimitReached => FailAndTerminateProcess(TooManyMessages);
        case TruncatedFinalLine => FailAndTerminateProcess(StreamTruncated);
      }
    }

    method CountMalformedLine()
      requires Valid()
      modifies Repr()
      ensures Valid() && State() == TakeMalformed(cfg, old(State()))
    {
      hide FailAndTerminate;
      malformedLineCount := malformedLineCount + 1;
      if malformedLineCount > MAX_TOLERATED_MALFORMED_LINES {
        FailAndTerminateProcess(TooManyMalformed);
      }
    }

    method HandleOutcomes(os: seq<P.Outcome<M.Message>>)
      requires Valid()
      modifies Repr()
      ensures Valid() && State() == TakeOutcomes(cfg, old(State()), os)
    {
      hide TakeOutcome;
      for i := 0 to |os|
        invariant Valid() && State() == TakeOutcomes(cfg, old(State()), os[..i])
      {
        OutcomesSnoc(cfg, old(State()), os[..i], os[i]);
        assert os[..i + 1] == os[..i] + [os[i]];
        HandleParserOutcome(os[i]);
      }
      assert os[..|os|] == os;
    }

    method HandleStdoutChunk(text: P.Text)
      requires Valid()
      modifies Repr()
      ensures Valid() && State() == TakeChunk(cfg, old(State()), text)
    {
      hide P.AfterPush, TakeOutcomes;
      if guard.terminalEvent != None { return; }
      var outcomes := parser.Push(text);
      assert Reported(old(parser.State()), parser.State()) == outcomes;
      HandleOutcomes(outcomes);
    }

    method OnStdoutData(text: P.Text)
      requires Valid()
      modifies Repr()
      ensures Valid() && State() == OnData(cfg, old(State()), text)
    {
      hide TakeChunk;
      ClearStartupTimer();
      ArmInactivityTimer();
      HandleStdoutChunk(text);
    }

    method OnStdoutEnd()
      requires Valid()
      modifies Repr()
      ensures Valid() && State() == OnEnd(cfg, old(State()))
    {
      hide TryFinalize;
      stdoutEnded := true;
      ClearPostExitStdoutDrainTimer();
      TryFinalizeAfterExit();
    }

    // ----------------------------------------------------------- exit and finalisation

    method TryFinalizeAfterExit()
      requires Valid()
      modifies Repr()
      ensures Valid() && State() == TryFinalize(cfg, old(State()))
    {
      hide P.AfterFlush, TakeOutcomes, Finish, CodexLifecycle.Cleanup, CodexLifecycle.FinishCancelled;
      if exitInfo == None || !stdoutEnded { return; }
      var exitCode := exitInfo.value.code;
      if guard.terminalEvent == None {
        var outcomes := parser.Flush();
        assert Reported(old(parser.State()), parser.State()) == outcomes;
        HandleOutcomes(outcomes);
      }
      if guard.terminalEvent != None {
        Cleanup();
        return;
      }
      if cancellationRequested {
        FinishCancelled();
      } else if exitCode == Some(0) {
        FinishFailed(ResultMissing);
      } else {
        FinishFailed(ExitedWith(exitCode));
      }
      Cleanup();
    }

    /** Note the exit; if stdout has not ended, the drain timer bounds the wait for it. */
    method RecordExit(info: ExitInfo)
      requires Valid()
      modifies this`startupTimer, this`exitInfo, this`postExitStdoutDrainTimer, this`clock
      ensures Valid() && State() == old(State()).(exitInfo := Some(info),
                bells := if old(stdoutEnded) then Clear(old(Timers()), Startup) else Set(Clear(old(Timers()), Startup), Drain, cfg.drain))
    {
      hide Set, Clear;
      ClearStartupTimer();
      exitInfo := Some(info);
      if !stdoutEnded { ArmPostExitStdoutDrainTimer(); }
      assert Out() == old(Out()) && parser.State() == old(parser.State()) && mapper.State() == old(mapper.State());
    }

    method OnExit(info: ExitInfo)
      requires Valid()
      modifies Repr()
      ensures Valid() && State() == CodexLifecycle.OnExit(cfg, old(State()), info)
    {
      hide TryFinalize, Set, Clear;
      RecordExit(info);
      TryFinalizeAfterExit();
    }

    method OnProcessError()
      requires Valid()
      modifies Repr()
      ensures Valid() && State() == Finish(cfg, ClearStartup(old(State())), Failed(ProcessCrashed))
    {
      hide Finish, Clear;
      ClearStartupTimer();
      FinishFailed(ProcessCrashed);
    }

    method OnStdinError()
      requires Valid()
      modifies Repr()
      ensures Valid() && State() == CodexLifecycle.OnStdinError(cfg, old(State()))
    {
      hide FailAndTerminate;
      if stdinFailed || guard.terminalEvent != None { return; }
      stdinFailed := true;
      FailAndTerminateProcess(PromptLost);
    }

    /** The clock rings one due timer. */
    method OnTimer(id: nat)
      requires Valid() && id in clock.armed
      modifies Repr()
      ensures Valid() && State() == OnFire(cfg, old(State()), id)
    {
      hide FailAndTerminate, TryFinalize;
      var kind := clock.armed[id].kind;
      clock := Disarm(clock, Some(id));
      match kind {
        case Startup => FailAndTerminateProcess(StartupSilence);
        case Grace => os := os.(forced := os.forced + 1);
        case MaxDuration => FailAndTerminateProcess(TookTooLong);
        case Inactivity => if guard.terminalEvent == None { FailAndTerminateProcess(WentSilent); }
        case Drain =>
          stdoutEnded := true;
          TryFinalizeAfterExit();
      }
    }

    // -------------------------------------------------------------------- starting

    method Begin(launch: Launch)
      requires Valid()
      modifies Repr()
      ensures Valid() && State() == OnIterate(cfg, old(State()), launch)
    {
      hide LaunchProcess, CodexLifecycle.FinishCancelled;
      if phase != Idle { return; }
      if cancellationRecorded {
        phase := Stopped;
        FinishCancelled();
      } else if cfg.hasGate {
        phase := Gating;
      } else {
        Launch(launch);
      }
    }

    method AfterGate(result: GateResult, launch: Launch)
      requires Valid() && phase.Gating?
      modifies Repr()
      ensures Valid() && State() == OnGate(cfg, old(State()), result, launch)
    {
      hide LaunchProcess, CodexLifecycle.FinishCancelled, Finish;
      if cancellationRecorded || (result.Refused? && result.cancelled) {
        phase := Stopped;
        FinishCancelled();
        return;
      }
      match result {
        case Passed => Launch(launch);
        case GateThrew =>
          phase := Stopped;
          FinishFailed(NotPrepared);
        case Refused(_, failure) =>
          phase := Stopped;
          FinishFailed(if failure.Some? then failure.value else GateRefused);
      }
    }

    method Launch(launch: Launch)
      requires Valid()
      modifies Repr()
      ensures Valid() && State() == LaunchProcess(cfg, old(State()), launch)
    {
      hide Finish, FailAndTerminate, CodexLifecycle.Supervise, Set;
      GoLive();
      if launch.SpawnThrows? {
        FinishFailed(NotStarted);
        return;
      }
      Supervise(launch.pid);
      if launch.writeThrows && guard.terminalEvent == None {
        stdinFailed := true;
        FailAndTerminateProcess(PromptLost);
      }
    }

    method GoLive()
      requires Valid()
      modifies this`phase, this`liveAt, this`maxDurationTimer, this`clock, this`os
      ensures Valid() && State() == old(State()).(phase := Live, liveAt := old(clock.now),
                bells := Set(old(Timers()), MaxDuration, cfg.maxDuration), os := old(os).(spawns := old(os.spawns) + 1))
    {
      hide Set;
      Commit();
      ArmMaxDurationTimer();
    }

    method Commit()
      requires Valid()
      modifies this`phase, this`liveAt, this`os
      ensures Valid() && State() == old(State()).(phase := Live, liveAt := old(clock.now), os := old(os).(spawns := old(os.spawns) + 1))
    {
      phase, liveAt, os := Live, clock.now, os.(spawns := os.spawns + 1);
    }

    /** The child runs: announce it, watch for silence, attach the listeners. */
    method Supervise(pid: Option<nat>)
      requires Valid()
      modifies Repr()
      ensures Valid() && State() == CodexLifecycle.Supervise(cfg, old(State()), pid)
    {
      hide ArmInactivity, Deliver, Set;
      Announce(pid);
      ArmInactivityTimer();
      AttachListeners();
    }

    method ArmMaxDurationTimer()
      modifies this`maxDurationTimer, this`clock
      ensures Timers() == Set(old(Timers()), MaxDuration, cfg.maxDuration)
    {
      maxDurationTimer := Some(clock.nextId);
      clock := Arm(clock, MaxDuration, cfg.maxDuration);
    }

    method ArmPostExitStdoutDrainTimer()
      modifies this`postExitStdoutDrainTimer, this`clock
      ensures Timers() == Set(old(Timers()), Drain, cfg.drain)
    {
      postExitStdoutDrainTimer := Some(clock.nextId);
      clock := Arm(clock, Drain, cfg.drain);
    }

    method ArmGracePeriodTimer()
      modifies this`gracePeriodTimer, this`clock
      ensures Timers() == Set(old(Timers()), Grace, cfg.grace)
    {
      gracePeriodTimer := Some(clock.nextId);
      clock := Arm(clock, Grace, cfg.grace);
    }

    method ArmStartupTimer()
      modifies this`startupTimer, this`clock
      ensures Timers() == Set(old(Timers()), Startup, cfg.startup)
    {
      startupTimer := Some(clock.nextId);
      clock := Arm(clock, Startup, cfg.startup);
    }

    method SubmitStarted()
      requires Valid()
      modifies factory, guard, queue
      ensures Valid() && Out() == Deliver(cfg.ctx, old(Out()), RunStarted)
    {
      var event := Emit(factory, guard, RunStarted);
      if event.Ok? { Enqueue(event.value); }
    }

    method Announce(pid: Option<nat>)
      requires Valid()
      modifies factory, guard, queue, this`processHandle
      ensures Valid() && State() == old(State()).(handle := Some(ProcessHandle(pid)), out := Deliver(cfg.ctx, old(Out()), RunStarted))
    {
      hide Deliver;
      processHandle := Some(ProcessHandle(pid));
      SubmitStarted();
    }

    method AttachListeners()
      requires Valid()
      modifies this`startupTimer, this`clock, this`listening
      ensures Valid() && State() == old(State()).(bells := Set(old(Timers()), Startup, cfg.startup), listening := true)
    {
      hide Set;
      ArmStartupTimer();
      listening := true;
    }
  }

  function Dispatched(s: RunState, event: Event): RunState {
    var ends := IsTerminal(event.body);
    s.(out := Outbox(s.out.kit, if s.out.closed then s.out.queued else s.out.queued + [event], s.out.closed || ends,
                     if ends && s.out.completion.None? then Some(event) else s.out.completion),
       bells := if ends then Clear(s.bells, Inactivity) else s.bells)
  }

  /** While the guard is open a mapped message is queued, and a terminal one ends the run. */
  lemma OpenGuardAdmits(cfg: Config, s: RunState, m: M.Message)
    requires !Terminated(s)
    ensures var (mapper, body) := M.Mapped(cfg.safe, s.mapper, m);
            TakeMessage(cfg, s, m) ==
            if body.None? then s.(mapper := mapper)
            else
              var (kit, event) := Submit(cfg.ctx, s.out.kit, body.value);
              Dispatched(s.(mapper := mapper, out := s.out.(kit := kit)), event.value)
  {
    hide M.Mapped, Clear;
  }

  // --------------------------------------------------------------------- the loops

  lemma {:induction false} MessagesAppend(cfg: Config, s: RunState, xs: seq<M.Message>, ys: seq<M.Message>)
    ensures TakeMessages(cfg, s, xs + ys) == TakeMessages(cfg, TakeMessages(cfg, s, xs), ys)
    ensures |ys| == 1 ==> TakeMessages(cfg, s, xs + ys) == TakeMessage(cfg, TakeMessages(cfg, s, xs), ys[0])
    decreases |xs|
  {
    hide TakeMessage;
    if xs == [] {
      assert xs + ys == ys;
    } else {
      assert (xs + ys)[1..] == xs[1..] + ys;
      MessagesAppend(cfg, TakeMessage(cfg, s, xs[0]), xs[1..], ys);
    }
  }

  /** The early return of the message loop: an ended run ignores the rest of the line. */
  lemma {:induction false} MessagesAfterEnd(cfg: Config, s: RunState, ms: seq<M.Message>)
    requires Terminated(s)
    ensures TakeMessages(cfg, s, ms) == s
    decreases |ms|
  {
    if ms != [] { MessagesAfterEnd(cfg, s, ms[1..]); }
  }

  lemma {:induction false} OutcomesSnoc(cfg: Config, s: RunState, xs: seq<P.Outcome<M.Message>>, y: P.Outcome<M.Message>)
    ensures TakeOutcomes(cfg, s, xs + [y]) == TakeOutcome(cfg, TakeOutcomes(cfg, s, xs), y)
    decreases |xs|
  {
    hide TakeOutcome;
    if xs == [] {
      assert xs + [y] == [y];
    } else {
      assert (xs + [y])[1..] == xs[1..] + [y];
      OutcomesSnoc(cfg, TakeOutcome(cfg, s, xs[0]), xs[1..], y);
    }
  }
}
