/**
  The raw Hermes run itself: the object whose fields the callbacks update, proved step by step
  against the state machine of `HermesExecution`.
 */
module HermesExecutionRuns {
  import opened Wrappers
  import opened Timers
  import opened HermesProtocol
  import opened HermesExecution
  import opened AsyncQueues

  class HermesExecutionRun {
    const cfg: Settings
    const parser: HermesJsonlParser
    const queue: AsyncQueue<RawEvent>

    var spawned: bool
    var process: ProcessState
    var failure: Option<ErrorCode>
    var exit: Option<ExitInfo>
    var stdoutEnded: bool
    var settlement: Settlement
    var runTimer: Option<nat>
    var cleanupTimer: Option<nat>
    var forceTimer: Option<nat>
    var drainTimer: Option<nat>
    var clock: Clock<TimerKind>
    var cancellationRequested: bool
    ghost var chunks: seq<seq<Byte>>
    ghost var terminations: nat
    ghost var forced: nat

    ghost function Repr(): set<object> {
      {this, parser, queue}
    }

    ghost predicate Valid()
      reads Repr()
    {
      parser.cfg == cfg.parser && queue.Valid()
    }

    ghost function State(): RunState
      reads Repr()
    {
      RunState(parser.State(), Pushed(queue.history), queue.closed, settlement, process, spawned, failure, exit, stdoutEnded,
               Fields(runTimer, cleanupTimer, forceTimer, drainTimer), clock, cancellationRequested, chunks, terminations, forced)
    }

    /** The constructor starts the run. The parser it is given carries the configured limits. */
    constructor (parser: HermesJsonlParser, run: DurationOption, cleanup: DurationOption, force: DurationOption,
                 drain: DurationOption, launch: Launch)
      requires parser.State() == Fresh
      ensures Valid() && fresh(Repr() - {parser})
      ensures cfg == Settings(parser.cfg, BoundedDuration(run, MAX_RUN_MS), BoundedDuration(cleanup, CLEANUP_GRACE_MS),
                              BoundedDuration(force, FORCE_TERMINATION_MS), BoundedDuration(drain, POST_EXIT_DRAIN_MS))
      ensures State() == Begin(cfg, launch)
    {
      var q := new AsyncQueue();
      this.parser, queue := parser, q;
      cfg := Settings(parser.cfg, BoundedDuration(run, MAX_RUN_MS), BoundedDuration(cleanup, CLEANUP_GRACE_MS),
                      BoundedDuration(force, FORCE_TERMINATION_MS), BoundedDuration(drain, POST_EXIT_DRAIN_MS));
      spawned, process, failure, exit, stdoutEnded, settlement := false, Starting, None, None, false, Unsettled;
      runTimer, cleanupTimer, forceTimer, drainTimer, clock := None, None, None, None, Start();
      cancellationRequested, chunks, terminations, forced := false, [], 0, 0;
      new;
      hide HermesExecution.Begin;
      StartProcess(launch);
    }

    method StartProcess(launch: Launch)
      requires Valid() && State() == Blank
      modifies this, queue
      ensures Valid() && State() == Begin(cfg, launch)
    {
      hide HermesExecution.FailImmediately, HermesExecution.BeginFailure;
      match launch {
        case BadInput => FailImmediately(InvalidInput);
        case SpawnThrows => FailImmediately(SpawnFailed);
        case Spawned(stdinThrows) =>
          spawned := true;
          process := Running;
          if stdinThrows { BeginFailure(StdinFailed); }
          ArmRunTimer();
      }
    }

    method ArmRunTimer()
      requires Valid()
      modifies this`runTimer, this`clock
      ensures Valid()
      ensures State() == old(State()).(timers := old(State()).timers.(run := Some(old(clock.nextId))),
                                       clock := Arm(old(clock), RunLimit, cfg.run))
    {
      runTimer := Some(clock.nextId);
      clock := Arm(clock, RunLimit, cfg.run);
    }

    // ---------------------------------------------------------------------- settling

    method CloseQueue()
      requires queue.Valid()
      modifies queue
      ensures queue.Valid() && queue.closed && Pushed(queue.history) == old(Pushed(queue.history))
    {
      HistoryStep(queue.history, Op<RawEvent>.Close);
      queue.Close();
    }

    method ClearTimersAndListeners()
      requires Valid()
      modifies this`clock
      ensures Valid() && State() == ClearTimers(old(State()))
    {
      clock := Disarm(clock, runTimer);
      clock := Disarm(clock, cleanupTimer);
      clock := Disarm(clock, forceTimer);
      clock := Disarm(clock, drainTimer);
    }

    method SettleFailure()
      requires Valid()
      modifies this, queue
      ensures Valid() && State() == HermesExecution.SettleFailure(old(State()))
    {
      if settlement != Unsettled { return; }
      settlement := Rejected(if failure != None then failure.value else ProcessExited);
      process := Failed;
      CloseQueue();
      ClearTimersAndListeners();
    }

    method FailImmediately(code: ErrorCode)
      requires Valid()
      modifies this, queue
      ensures Valid() && State() == HermesExecution.FailImmediately(old(State()), code)
    {
      if settlement != Unsettled { return; }
      failure := Some(code);
      SettleFailure();
    }

    method StartCleanup(byCancel: bool)
      requires Valid()
      modifies this`terminations, this`cleanupTimer, this`clock
      ensures Valid() && State() == HermesExecution.StartCleanup(cfg, old(State()), byCancel)
    {
      terminations := terminations + 1;
      cleanupTimer := Some(clock.nextId);
      clock := Arm(clock, Cleanup(byCancel), cfg.cleanup);
    }

    method BeginFailure(code: ErrorCode)
      requires Valid()
      modifies this, queue
      ensures Valid() && State() == HermesExecution.BeginFailure(cfg, old(State()), code)
    {
      hide HermesExecution.SettleFailure, HermesExecution.StartCleanup;
      if settlement != Unsettled || failure != None { return; }
      RecordFailure(code);
      if !spawned || exit != None {
        SettleFailure();
        return;
      }
      process := Terminating;
      if cleanupTimer != None { return; }
      StartCleanup(false);
    }

    /** The first half of failing: remember why, close the queue, and stop waiting for the run or the drain. */
    method RecordFailure(code: ErrorCode)
      requires Valid()
      modifies this`failure, this`clock, queue
      ensures Valid() && State() == old(State()).(failure := Some(code), closed := true,
                clock := Disarm(Disarm(old(clock), old(runTimer)), old(drainTimer)))
    {
      failure := Some(code);
      CloseQueue();
      clock := Disarm(clock, runTimer);
      clock := Disarm(clock, drainTimer);
    }

    method MaybeComplete()
      requires Valid()
      modifies this, queue
      ensures Valid() && State() == HermesExecution.MaybeComplete(cfg, old(State()))
    {
      hide HermesExecution.BeginFailure, ClearTimers;
      if settlement != Unsettled || failure != None || !stdoutEnded || exit == None { return; }
      var terminal := parser.terminalEvent;
      if terminal == None || exit.value.code == None || exit.value.signal != None {
        BeginFailure(ProcessExited);
        return;
      }
      var code := exit.value.code.value;
      var validExit := (terminal.value.kind == RunFailed && code != 0) || (terminal.value.kind != RunFailed && code == 0);
      if !validExit {
        BeginFailure(ProcessExited);
        return;
      }
      Complete(terminal.value, code);
    }

    method Complete(terminal: RawEvent, code: int)
      requires Valid()
      modifies this`settlement, this`process, this`clock, queue
      ensures Valid()
      ensures State() == ClearTimers(old(State()).(settlement := Resolved(terminal, code), process := Exited, closed := true))
    {
      hide ClearTimers;
      settlement := Resolved(terminal, code);
      process := Exited;
      CloseQueue();
      ClearTimersAndListeners();
    }

    // --------------------------------------------------------------------- callbacks

    /** Queue every event in order; a terminal one closes the queue. */
    method EnqueueAll(events: seq<RawEvent>)
      requires queue.Valid()
      modifies queue
      ensures queue.Valid() && (Pushed(queue.history), queue.closed) == Enqueue(old(Pushed(queue.history)), old(queue.closed), events)
    {
      for i := 0 to |events|
        invariant queue.Valid()
        invariant Enqueue(Pushed(queue.history), queue.closed, events[i..]) ==
                  Enqueue(old(Pushed(queue.history)), old(queue.closed), events)
      {
        assert events[i..][1..] == events[i + 1..];
        HistoryStep(queue.history, Op.Push(events[i]));
        queue.Push(events[i]);
        if IsTerminal(events[i].kind) { CloseQueue(); }
      }
    }

    method OnStdoutData(chunk: Option<seq<Byte>>)
      requires Valid()
      modifies Repr()
      ensures Valid() && State() == OnData(cfg, old(State()), chunk)
    {
      hide HermesExecution.BeginFailure, AfterPush, Enqueue;
      if chunk == None {
        BeginFailure(InvalidUtf8);
        return;
      }
      chunks := chunks + [chunk.value];
      var events, error := parser.Push(chunk.value);
      assert parser.accepted[|old(parser.accepted)|..] == events;
      EnqueueAll(events);
      if error != None { BeginFailure(error.value); }
    }

    method FinishStdout()
      requires Valid()
      modifies Repr()
      ensures Valid() && State() == HermesExecution.FinishStdout(cfg, old(State()))
    {
      hide HermesExecution.BeginFailure, HermesExecution.MaybeComplete, AfterFinish;
      stdoutEnded := true;
      var error := parser.Finish();
      if error != None { BeginFailure(error.value); } else { MaybeComplete(); }
    }

    method OnStdoutEnd()
      requires Valid()
      modifies Repr()
      ensures Valid() && State() == OnEnd(cfg, old(State()))
    {
      hide HermesExecution.FinishStdout;
      if stdoutEnded || settlement != Unsettled { return; }
      clock := Disarm(clock, drainTimer);
      FinishStdout();
    }

    method OnStdinError()
      requires Valid()
      modifies this, queue
      ensures Valid() && State() == HermesExecution.BeginFailure(cfg, old(State()), StdinFailed)
    {
      BeginFailure(StdinFailed);
    }

    method OnProcessError()
      requires Valid()
      modifies this, queue
      ensures Valid() && State() == HermesExecution.FailImmediately(old(State()), SpawnFailed)
    {
      FailImmediately(SpawnFailed);
    }

    method OnExit(info: ExitInfo)
      requires Valid()
      modifies this, queue
      ensures Valid() && State() == HermesExecution.OnExit(cfg, old(State()), info)
    {
      hide HermesExecution.SettleFailure, HermesExecution.MaybeComplete;
      if settlement != Unsettled { return; }
      exit := Some(info);
      clock := Disarm(clock, runTimer);
      if failure != None {
        SettleFailure();
        return;
      }
      if stdoutEnded {
        MaybeComplete();
        return;
      }
      drainTimer := Some(clock.nextId);
      clock := Arm(clock, Drain, cfg.drain);
    }

    method Cancel()
      requires Valid()
      modifies this
      ensures Valid() && State() == OnCancel(cfg, old(State()))
    {
      if settlement != Unsettled || cancellationRequested || parser.terminalEvent != None { return; }
      cancellationRequested := true;
      if !spawned || exit != None { return; }
      process := Terminating;
      StartCleanup(true);
    }

    /** Force the process, and give it one more period to be gone. */
    method ForceAndWait(byCancel: bool)
      requires Valid()
      modifies this`forced, this`forceTimer, this`clock
      ensures Valid()
      ensures State() == old(State()).(forced := old(forced) + 1, timers := old(State()).timers.(force := Some(old(clock.nextId))),
                                       clock := Arm(old(clock), Force(byCancel), cfg.force))
    {
      forced := forced + 1;
      forceTimer := Some(clock.nextId);
      clock := Arm(clock, Force(byCancel), cfg.force);
    }

    /** The process is still there after the forced phase: settle, as an exit that failed if a cancellation began it. */
    method GiveUp(byCancel: bool)
      requires Valid()
      modifies this, queue
      ensures Valid()
      ensures State() == (var s := old(State());
                          if Settled(s) then s
                          else if byCancel then HermesExecution.SettleFailure(s.(failure := Some(ProcessExited), closed := true))
                          else HermesExecution.SettleFailure(s))
    {
      hide HermesExecution.SettleFailure;
      if settlement != Unsettled { return; }
      if byCancel {
        failure := Some(ProcessExited);
        CloseQueue();
      }
      SettleFailure();
    }

    /** The clock rings one due timer. */
    method OnTimer(id: nat)
      requires Valid() && id in clock.armed
      modifies Repr()
      ensures Valid() && State() == OnFire(cfg, old(State()), id)
    {
      hide HermesExecution.BeginFailure, HermesExecution.SettleFailure, HermesExecution.FinishStdout;
      var kind := clock.armed[id].kind;
      clock := Disarm(clock, Some(id));
      match kind {
        case RunLimit => BeginFailure(TimedOut);
        case Cleanup(byCancel) =>
          ForceAndWait(byCancel);
        case Force(byCancel) =>
          GiveUp(byCancel);
        case Drain => FinishStdout();
      }
    }
  }
}
