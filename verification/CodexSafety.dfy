/**
  What every run of the Codex state machine keeps, whatever happens to it and in whatever order.
 */
module CodexSafety {
  import opened Wrappers
  import opened Events
  import opened Timers
  import opened CodexLifecycle
  import P = StreamParsing
  import M = CodexMapping

  // ----------------------------------------------------------------------- the outbox

  /**
    The queued events are one well-formed log. The queue is closed exactly when the guard has its
    terminal event, and that event is the last one queued and the value of the completion promise.
   */
  ghost predicate OutboxInv(ctx: Context, out: Outbox) {
    && WellFormedLog(ctx, out.queued)
    && (out.closed <==> out.kit.terminal.Some?)
    && out.completion == out.kit.terminal
    && (out.kit.terminal.None? ==> out.kit.next == |out.queued| && forall i :: 0 <= i < |out.queued| ==> !IsTerminal(out.queued[i].body))
    && (out.kit.terminal.Some? ==>
          && 0 < |out.queued| <= out.kit.next
          && out.kit.terminal.value == out.queued[|out.queued| - 1] && IsTerminal(out.kit.terminal.value.body))
  }

  /** A terminal event, once there, is never replaced, and nothing is queued behind it. */
  ghost predicate Extends(before: Outbox, after: Outbox) {
    && before.queued <= after.queued
    && (before.kit.terminal.Some? ==>
          after.kit.terminal == before.kit.terminal && after.queued == before.queued
          && after.completion == before.completion && after.closed == before.closed)
  }

  lemma DeliverKeeps(ctx: Context, out: Outbox, body: Body)
    requires OutboxInv(ctx, out)
    ensures OutboxInv(ctx, Deliver(ctx, out, body)) && Extends(out, Deliver(ctx, out, body))
    ensures IsTerminal(body) ==> Deliver(ctx, out, body).kit.terminal.Some?
    ensures !IsTerminal(body) ==> Deliver(ctx, out, body).kit.terminal == out.kit.terminal
  {
  }

  lemma ConcludeKeeps(ctx: Context, out: Outbox, body: Body)
    requires OutboxInv(ctx, out) && IsTerminal(body)
    ensures OutboxInv(ctx, Conclude(ctx, out, body)) && Extends(out, Conclude(ctx, out, body))
    ensures Conclude(ctx, out, body).kit.terminal.Some?
  {
    DeliverKeeps(ctx, out, body);
  }

  // ------------------------------------------------------------------------ the timers

  /** Every armed timer is one a field still names, so clearing the fields disarms everything. */
  ghost predicate BellsInv(b: Bells) {
    && Sound(b.clock)
    && (forall id | id in b.clock.armed :: Slot(b, b.clock.armed[id].kind) == Some(id))
    && (forall kind :: Named(b, kind))
  }

  /** A field's handle was given out by the clock, and if its timer is armed it has the field's kind. */
  ghost predicate Named(b: Bells, kind: TimerKind) {
    var handle := Slot(b, kind);
    handle.Some? ==>
      handle.value < b.clock.nextId && (handle.value in b.clock.armed ==> b.clock.armed[handle.value].kind == kind)
  }

  ghost predicate Rings(b: Bells, kind: TimerKind) {
    exists id :: id in b.clock.armed && b.clock.armed[id].kind == kind
  }

  /** The max-duration timer is armed for this deadline. */
  ghost predicate MaxArmed(b: Bells, deadline: real) {
    && b.maxDuration.Some? && b.maxDuration.value in b.clock.armed
    && b.clock.armed[b.maxDuration.value] == Alarm(MaxDuration, deadline)
  }

  lemma SetKeeps(b: Bells, kind: TimerKind, delay: Millis)
    requires BellsInv(b) && !Rings(b, kind)
    ensures BellsInv(Set(b, kind, delay))
    ensures forall other :: other != kind ==> (Rings(Set(b, kind, delay), other) <==> Rings(b, other))
    ensures forall deadline :: kind != MaxDuration && MaxArmed(b, deadline) ==> MaxArmed(Set(b, kind, delay), deadline)
    ensures kind == MaxDuration ==> MaxArmed(Set(b, kind, delay), b.clock.now + delay)
  {
    var after := Set(b, kind, delay);
    forall k ensures Named(after, k) { assert Named(b, k); }
    forall other | other != kind ensures Rings(after, other) <==> Rings(b, other) {
      if id :| id in b.clock.armed && b.clock.armed[id].kind == other { assert id in after.clock.armed; }
    }
    assert b.clock.nextId in after.clock.armed;
  }

  lemma ClearKeeps(b: Bells, kind: TimerKind)
    requires BellsInv(b)
    ensures BellsInv(Clear(b, kind)) && !Rings(Clear(b, kind), kind)
    ensures forall other :: other != kind ==> (Rings(Clear(b, kind), other) <==> Rings(b, other))
    ensures forall deadline :: kind != MaxDuration && MaxArmed(b, deadline) ==> MaxArmed(Clear(b, kind), deadline)
  {
    var after := Clear(b, kind);
    assert Named(b, kind);
    forall k ensures Named(after, k) { assert Named(b, k); }
    forall other | other != kind ensures Rings(after, other) <==> Rings(b, other) {
      if id :| id in b.clock.armed && b.clock.armed[id].kind == other { assert id in after.clock.armed; }
    }
  }

  lemma ClearAllSilences(b: Bells)
    requires BellsInv(b)
    ensures BellsInv(ClearAll(b)) && ClearAll(b).clock == b.clock.(armed := map[])
  {
    hide BellsInv, Clear;
    var b1 := Clear(b, Startup);
    var b2 := Clear(b1, Inactivity);
    var b3 := Clear(b2, Grace);
    var b4 := Clear(b3, MaxDuration);
    ClearKeeps(b, Startup);
    ClearKeeps(b1, Inactivity);
    ClearKeeps(b2, Grace);
    ClearKeeps(b3, MaxDuration);
    ClearKeeps(b4, Drain);
    NothingRings(ClearAll(b));
    SameClock(b, Startup);
    SameClock(b1, Inactivity);
    SameClock(b2, Grace);
    SameClock(b3, MaxDuration);
    SameClock(b4, Drain);
  }

  lemma SameClock(b: Bells, kind: TimerKind)
    ensures Clear(b, kind).clock.now == b.clock.now && Clear(b, kind).clock.nextId == b.clock.nextId
  {
  }

  lemma NothingRings(b: Bells)
    requires forall kind :: !Rings(b, kind)
    ensures b.clock.armed == map[]
  {
    forall id | id in b.clock.armed ensures false {
      assert Rings(b, b.clock.armed[id].kind);
    }
  }

  lemma RungKeeps(b: Bells, id: nat)
    requires BellsInv(b) && id in b.clock.armed
    ensures var rung := b.(clock := Disarm(b.clock, Some(id))); var kind := b.clock.armed[id].kind;
            && BellsInv(rung) && !Rings(rung, kind)
            && (forall other :: other != kind ==> (Rings(rung, other) <==> Rings(b, other)))
            && (forall deadline :: kind != MaxDuration && MaxArmed(b, deadline) ==> MaxArmed(rung, deadline))
  {
    var rung, kind := b.(clock := Disarm(b.clock, Some(id))), b.clock.armed[id].kind;
    forall k ensures Named(rung, k) { assert Named(b, k); }
    forall other | other != kind ensures Rings(rung, other) <==> Rings(b, other) {
      if i :| i in b.clock.armed && b.clock.armed[i].kind == other { assert i in rung.clock.armed; }
    }
  }

  lemma PassKeeps(b: Bells, to: real)
    requires BellsInv(b) && MayPass(b.clock, to)
    ensures var later := b.(clock := b.clock.(now := to));
            && BellsInv(later)
            && (forall kind :: Rings(later, kind) <==> Rings(b, kind))
            && (forall deadline :: MaxArmed(b, deadline) ==> MaxArmed(later, deadline) && to <= deadline)
  {
    var later := b.(clock := b.clock.(now := to));
    forall k ensures Named(later, k) { assert Named(b, k); }
    forall kind ensures Rings(later, kind) <==> Rings(b, kind) {
      if i :| i in b.clock.armed && b.clock.armed[i].kind == kind { assert i in later.clock.armed; }
    }
  }

  // --------------------------------------------------------------------- the whole run

  /** The kill-then-grace sequence starts at most once, and ends in at most one forced kill. */
  ghost predicate KillInv(s: RunState) {
    && s.os.kills <= 1 && s.os.forced <= s.os.kills
    && (!s.terminationStarted ==> s.os.kills == 0 && !Rings(s.bells, Grace))
    && (Rings(s.bells, Grace) ==> s.os.forced == 0 && s.os.kills == 1)
  }

  ghost predicate PhaseInv(cfg: Config, s: RunState) {
    && (s.handle.Some? ==> s.phase.Live?)
    && (if s.phase.Live? then s.os.spawns == 1 else s.os == OsLog(0, 0, 0))
    && (s.phase.Live? && !Terminated(s) ==> s.handle.Some? && MaxArmed(s.bells, s.liveAt + cfg.maxDuration))
    && (!s.phase.Live? ==> s.bells.clock.armed == map[])
    && (s.phase.Idle? || s.phase.Gating? ==> !Terminated(s) && s.out.queued == [])
    && (s.phase.Stopped? ==> Terminated(s))
    && (s.listening ==> s.handle.Some?)
    && (s.exitInfo.Some? || s.stdoutEnded ==> s.handle.Some?)
    && (Rings(s.bells, Drain) ==> s.exitInfo.Some? && !s.stdoutEnded)
  }

  ghost predicate Core(cfg: Config, s: RunState) {
    OutboxInv(cfg.ctx, s.out) && BellsInv(s.bells) && KillInv(s) && PhaseInv(cfg, s)
  }

  predicate Final(s: RunState) {
    s.exitInfo.Some? && s.stdoutEnded
  }

  /** After exit and end of stdout the run is over: ended, silent and detached. */
  ghost predicate Released(s: RunState) {
    Terminated(s) && s.bells.clock.armed == map[] && !s.listening
  }

  ghost predicate Inv(cfg: Config, s: RunState) {
    Core(cfg, s) && (Final(s) ==> Released(s))
  }

  /** What shared steps leave alone: phase, process and callbacks already seen. */
  ghost predicate SameProcess(s: RunState, t: RunState) {
    && t.phase == s.phase && t.liveAt == s.liveAt && t.handle == s.handle && t.listening == s.listening
    && t.exitInfo == s.exitInfo && t.stdoutEnded == s.stdoutEnded && t.os.spawns == s.os.spawns && t.cancel == s.cancel
    && t.bells.clock.now == s.bells.clock.now
  }

  /** A shared step: keeps the core, only ever extends the output, leaves the process alone. */
  ghost predicate Keeps(cfg: Config, s: RunState, t: RunState) {
    Core(cfg, t) && Extends(s.out, t.out) && SameProcess(s, t)
  }

  lemma FinishKeeps(cfg: Config, s: RunState, body: Body)
    requires Core(cfg, s) && IsTerminal(body) && s.phase.Live?
    ensures Keeps(cfg, s, Finish(cfg, s, body)) && Terminated(Finish(cfg, s, body))
  {
    ConcludeKeeps(cfg.ctx, s.out, body);
    hide OutboxInv, BellsInv, Conclude;
  }

  lemma TerminateKeeps(cfg: Config, s: RunState)
    requires Core(cfg, s) && s.phase.Live?
    ensures Keeps(cfg, s, TerminateProcess(cfg, s)) && TerminateProcess(cfg, s).out == s.out
  {
    hide OutboxInv, BellsInv;
    if !s.terminationStarted {
      SetKeeps(s.bells, Grace, cfg.grace);
    }
  }

  lemma FailKeeps(cfg: Config, s: RunState, f: Failure)
    requires Core(cfg, s) && s.phase.Live?
    ensures Keeps(cfg, s, FailAndTerminate(cfg, s, f)) && Terminated(FailAndTerminate(cfg, s, f))
  {
    FinishKeeps(cfg, s, Failed(f));
    TerminateKeeps(cfg, Finish(cfg, s, Failed(f)));
    hide Core, Finish, TerminateProcess;
  }

  lemma InactivityKeeps(cfg: Config, s: RunState)
    requires Core(cfg, s) && s.phase.Live?
    ensures Keeps(cfg, s, ArmInactivity(cfg, s)) && ArmInactivity(cfg, s).out == s.out
  {
    if !Terminated(s) {
      ClearKeeps(s.bells, Inactivity);
      SetKeeps(Clear(s.bells, Inactivity), Inactivity, cfg.inactivity);
      hide OutboxInv, BellsInv;
    }
  }

  lemma ClearStartupKeeps(cfg: Config, s: RunState)
    requires Core(cfg, s) && s.phase.Live?
    ensures Keeps(cfg, s, ClearStartup(s)) && ClearStartup(s).out == s.out
  {
    ClearKeeps(s.bells, Startup);
    hide OutboxInv, BellsInv;
  }

  lemma TakeMessageKeeps(cfg: Config, s: RunState, m: M.Message)
    requires Core(cfg, s) && s.phase.Live?
    ensures Keeps(cfg, s, TakeMessage(cfg, s, m))
  {
    var body := M.Mapped(cfg.safe, s.mapper, m).1;
    if !Terminated(s) && body.Some? {
      DeliverKeeps(cfg.ctx, s.out, body.value);
      ClearKeeps(s.bells, Inactivity);
    }
    hide OutboxInv, BellsInv, Deliver;
  }

  lemma {:induction false} TakeMessagesKeeps(cfg: Config, s: RunState, ms: seq<M.Message>)
    requires Core(cfg, s) && s.phase.Live?
    ensures Keeps(cfg, s, TakeMessages(cfg, s, ms))
    decreases |ms|
  {
    hide Core, TakeMessage;
    if ms != [] {
      TakeMessageKeeps(cfg, s, ms[0]);
      TakeMessagesKeeps(cfg, TakeMessage(cfg, s, ms[0]), ms[1..]);
    }
  }

  lemma TakeOutcomeKeeps(cfg: Config, s: RunState, o: P.Outcome<M.Message>)
    requires Core(cfg, s) && s.phase.Live?
    ensures Keeps(cfg, s, TakeOutcome(cfg, s, o))
  {
    match o {
      case Messages(ms) => TakeMessagesKeeps(cfg, s, ms);
      case OversizedLine => FailKeeps(cfg, s, LineOversized);
      case MessageLimitReached => FailKeeps(cfg, s, TooManyMessages);
      case TruncatedFinalLine => FailKeeps(cfg, s, StreamTruncated);
      case MalformedJson(_) => MalformedKeeps(cfg, s);
      case InvalidLine(_) => MalformedKeeps(cfg, s);
    }
    hide Core, FailAndTerminate;
  }

  lemma MalformedKeeps(cfg: Config, s: RunState)
    requires Core(cfg, s) && s.phase.Live?
    ensures Keeps(cfg, s, TakeMalformed(cfg, s))
  {
    hide Core, FailAndTerminate;
    CountingKeeps(cfg, s);
    FailKeeps(cfg, s.(malformed := s.malformed + 1), TooManyMalformed);
  }

  lemma CountingKeeps(cfg: Config, s: RunState)
    requires Core(cfg, s)
    ensures Core(cfg, s.(malformed := s.malformed + 1))
  {
    hide OutboxInv, BellsInv;
  }

  lemma {:induction false} TakeOutcomesKeeps(cfg: Config, s: RunState, os: seq<P.Outcome<M.Message>>)
    requires Core(cfg, s) && s.phase.Live?
    ensures Keeps(cfg, s, TakeOutcomes(cfg, s, os))
    decreases |os|
  {
    hide Core, TakeOutcome;
    if os != [] {
      TakeOutcomeKeeps(cfg, s, os[0]);
      TakeOutcomesKeeps(cfg, TakeOutcome(cfg, s, os[0]), os[1..]);
    }
  }

  lemma ParserIsFree(cfg: Config, s: RunState, parser: P.ParserState<M.Message>)
    requires Core(cfg, s)
    ensures Core(cfg, s.(parser := parser))
  {
    hide OutboxInv, BellsInv;
  }

  lemma TakeChunkKeeps(cfg: Config, s: RunState, text: P.Text)
    requires Core(cfg, s) && s.phase.Live?
    ensures Keeps(cfg, s, TakeChunk(cfg, s, text))
  {
    var parser := P.AfterPush(ParserConfig(cfg), s.parser, text);
    ParserIsFree(cfg, s, parser);
    TakeOutcomesKeeps(cfg, s.(parser := parser), Reported(s.parser, parser));
    hide Core, TakeOutcomes, P.AfterPush;
  }

  // ------------------------------------------------------------------------ one step

  /** What one step may do to the output, and that it keeps the invariant. */
  ghost predicate StepKeeps(cfg: Config, s: RunState, t: RunState) {
    Inv(cfg, t) && Extends(s.out, t.out)
  }

  lemma CleanupReleases(cfg: Config, s: RunState)
    requires Core(cfg, s) && Terminated(s)
    ensures Core(cfg, Cleanup(s)) && Released(Cleanup(s)) && Cleanup(s).out == s.out
  {
    ClearAllSilences(s.bells);
    hide OutboxInv, BellsInv, ClearAll;
  }

  lemma CleanupTwice(s: RunState)
    ensures Cleanup(Cleanup(s)) == Cleanup(s)
  {
    hide Disarm;
    var b := ClearAll(s.bells);
    assert b.startup.None? && b.inactivity.None? && b.grace.None? && b.maxDuration.None? && b.drain.None?;
    ClearNothing(b);
  }

  lemma ClearNothing(b: Bells)
    requires b.startup.None? && b.inactivity.None? && b.grace.None? && b.maxDuration.None? && b.drain.None?
    ensures ClearAll(b) == b
  {
  }

  lemma TryFinalizeKeeps(cfg: Config, s: RunState)
    requires Core(cfg, s)
    ensures StepKeeps(cfg, s, TryFinalize(cfg, s))
  {
    if Final(s) {
      var parser := P.AfterFlush(s.parser);
      var flushed := if Terminated(s) then s else TakeOutcomes(cfg, s.(parser := parser), Reported(s.parser, parser));
      ParserIsFree(cfg, s, parser);
      if !Terminated(s) { TakeOutcomesKeeps(cfg, s.(parser := parser), Reported(s.parser, parser)); }
      FinalOutcome(cfg, s, flushed);
    }
    hide Core, P.AfterFlush, TakeOutcomes, Cleanup;
  }

  lemma FinalOutcome(cfg: Config, s: RunState, flushed: RunState)
    requires Core(cfg, flushed) && flushed.phase.Live? && Final(flushed) && Extends(s.out, flushed.out)
    ensures var ended := Cleanup(
              if Terminated(flushed) then flushed
              else if flushed.cancel.requested then FinishCancelled(cfg, flushed)
              else Finish(cfg, flushed, Failed(if flushed.exitInfo.value.code == Some(0) then ResultMissing
                                               else ExitedWith(flushed.exitInfo.value.code))));
            StepKeeps(cfg, s, ended)
  {
    hide Core, Finish, ClearAll;
    if Terminated(flushed) {
      CleanupReleases(cfg, flushed);
    } else if flushed.cancel.requested {
      var body := RunCancelled(flushed.cancel.who, flushed.cancel.reason);
      FinishKeeps(cfg, flushed, body);
      CleanupReleases(cfg, Finish(cfg, flushed, body));
      CleanupTwice(Finish(cfg, flushed, body));
    } else {
      var body := Failed(if flushed.exitInfo.value.code == Some(0) then ResultMissing else ExitedWith(flushed.exitInfo.value.code));
      FinishKeeps(cfg, flushed, body);
      CleanupReleases(cfg, Finish(cfg, flushed, body));
    }
  }

  lemma ExitKeeps(cfg: Config, s: RunState, info: ExitInfo)
    requires Inv(cfg, s) && Enabled(s, Exit(info))
    ensures StepKeeps(cfg, s, OnExit(cfg, s, info))
  {
    ClearStartupKeeps(cfg, s);
    var exited := ClearStartup(s).(exitInfo := Some(info));
    var waiting := if s.stdoutEnded then exited else exited.(bells := Set(exited.bells, Drain, cfg.drain));
    ExitedCore(cfg, ClearStartup(s), info);
    hide Core, TryFinalize, ClearStartup;
    TryFinalizeKeeps(cfg, waiting);
  }

  lemma ExitedCore(cfg: Config, s: RunState, info: ExitInfo)
    requires Core(cfg, s) && s.handle.Some? && s.exitInfo.None?
    ensures var exited := s.(exitInfo := Some(info));
            Core(cfg, if s.stdoutEnded then exited else exited.(bells := Set(exited.bells, Drain, cfg.drain)))
  {
    hide OutboxInv, BellsInv;
    if !s.stdoutEnded { SetKeeps(s.bells, Drain, cfg.drain); }
  }

  lemma EndKeeps(cfg: Config, s: RunState)
    requires Inv(cfg, s) && Enabled(s, StdoutEnd)
    ensures StepKeeps(cfg, s, OnEnd(cfg, s))
  {
    var ended := s.(stdoutEnded := true, bells := Clear(s.bells, Drain));
    ClearKeeps(s.bells, Drain);
    hide OutboxInv, BellsInv, TryFinalize;
    TryFinalizeKeeps(cfg, ended);
  }

  lemma FireKeeps(cfg: Config, s: RunState, id: nat)
    requires Inv(cfg, s) && id in s.bells.clock.armed
    ensures StepKeeps(cfg, s, OnFire(cfg, s, id))
  {
    var rung := s.(bells := s.bells.(clock := Disarm(s.bells.clock, Some(id))));
    RungKeeps(s.bells, id);
    var kind := s.bells.clock.armed[id].kind;
    assert Rings(s.bells, kind);
    if kind == MaxDuration {
      MaxFired(cfg, s, rung);
      hide Core, FailAndTerminate;
    } else {
      hide OutboxInv, BellsInv, TryFinalize, FailAndTerminate;
      var after := if kind == Drain then rung.(stdoutEnded := true) else rung;
      match kind {
        case Startup => FailKeeps(cfg, rung, StartupSilence);
        case Grace =>
        case Inactivity => if !Terminated(rung) { FailKeeps(cfg, rung, WentSilent); }
        case Drain => TryFinalizeKeeps(cfg, after);
      }
    }
  }

  /** The max-duration timer has rung and is gone, but the run is ended before anyone looks. */
  lemma MaxFired(cfg: Config, s: RunState, rung: RunState)
    requires Inv(cfg, s) && !Final(s) && s.phase.Live? && rung == s.(bells := rung.bells) && BellsInv(rung.bells)
    requires forall kind :: kind != MaxDuration ==> (Rings(rung.bells, kind) <==> Rings(s.bells, kind))
    ensures StepKeeps(cfg, s, FailAndTerminate(cfg, rung, TookTooLong))
  {
    ConcludeKeeps(cfg.ctx, s.out, Failed(TookTooLong));
    hide OutboxInv, BellsInv, Conclude;
    var ended := Finish(cfg, rung, Failed(TookTooLong));
    assert Core(cfg, ended);
    TerminateKeeps(cfg, ended);
    hide TerminateProcess;
  }

  // -------------------------------------------------------------- before the process runs

  lemma LaunchKeeps(cfg: Config, s: RunState, launch: Launch)
    requires Inv(cfg, s) && (s.phase.Idle? || s.phase.Gating?)
    ensures StepKeeps(cfg, s, LaunchProcess(cfg, s, launch))
  {
    SetKeeps(s.bells, MaxDuration, cfg.maxDuration);
    var live := s.(phase := Live, liveAt := s.bells.clock.now, bells := Set(s.bells, MaxDuration, cfg.maxDuration),
                   os := s.os.(spawns := s.os.spawns + 1));
    match launch {
      case SpawnThrows =>
        ConcludeKeeps(cfg.ctx, s.out, Failed(NotStarted));
        hide OutboxInv, BellsInv, Conclude;
      case Spawned(pid, writeThrows) =>
        SpawnedKeeps(cfg, s, live, pid, writeThrows);
    }
  }

  lemma SpawnedKeeps(cfg: Config, s: RunState, live: RunState, pid: Option<nat>, writeThrows: bool)
    requires Inv(cfg, s) && (s.phase.Idle? || s.phase.Gating?)
    requires live == s.(phase := Live, liveAt := s.bells.clock.now, bells := live.bells, os := s.os.(spawns := 1))
    requires BellsInv(live.bells) && MaxArmed(live.bells, live.liveAt + cfg.maxDuration)
    requires forall kind :: kind != MaxDuration ==> !Rings(live.bells, kind)
    ensures var ready := Supervise(cfg, live, pid);
            StepKeeps(cfg, s, if writeThrows && !Terminated(ready)
                              then FailAndTerminate(cfg, ready.(stdinFailed := true), PromptLost) else ready)
  {
    DeliverKeeps(cfg.ctx, live.out, RunStarted);
    var announced := live.(handle := Some(ProcessHandle(pid)), out := Deliver(cfg.ctx, live.out, RunStarted));
    AnnouncedKeeps(cfg, announced);
    hide Core, Deliver, ArmInactivity, Set, FailAndTerminate;
    var armed := ArmInactivity(cfg, announced);
    FailKeeps(cfg, armed.(bells := Set(armed.bells, Startup, cfg.startup), listening := true, stdinFailed := true), PromptLost);
  }

  lemma AnnouncedKeeps(cfg: Config, announced: RunState)
    requires OutboxInv(cfg.ctx, announced.out) && BellsInv(announced.bells) && !Terminated(announced)
    requires announced.phase.Live? && announced.handle.Some? && announced.os == OsLog(1, 0, 0)
    requires announced.exitInfo.None? && !announced.stdoutEnded && !announced.listening
    requires MaxArmed(announced.bells, announced.liveAt + cfg.maxDuration)
    requires forall kind :: kind != MaxDuration ==> !Rings(announced.bells, kind)
    ensures var armed := ArmInactivity(cfg, announced);
            var ready := armed.(bells := Set(armed.bells, Startup, cfg.startup), listening := true);
            && armed == announced.(bells := armed.bells)
            && Core(cfg, ready) && Core(cfg, ready.(stdinFailed := true))
  {
    hide OutboxInv, BellsInv;
    ClearKeeps(announced.bells, Inactivity);
    SetKeeps(Clear(announced.bells, Inactivity), Inactivity, cfg.inactivity);
    var armed := ArmInactivity(cfg, announced);
    SetKeeps(armed.bells, Startup, cfg.startup);
  }

  lemma StopKeeps(cfg: Config, s: RunState, body: Body)
    requires Inv(cfg, s) && (s.phase.Idle? || s.phase.Gating?) && IsTerminal(body)
    ensures var ended := Finish(cfg, s.(phase := Stopped), body);
            StepKeeps(cfg, s, ended) && StepKeeps(cfg, s, Cleanup(ended)) && Terminated(ended)
  {
    ConcludeKeeps(cfg.ctx, s.out, body);
    hide OutboxInv, BellsInv, Conclude, ClearAll;
    var ended := Finish(cfg, s.(phase := Stopped), body);
    assert Core(cfg, ended);
    CleanupReleases(cfg, ended);
  }

  lemma IterateKeeps(cfg: Config, s: RunState, launch: Launch)
    requires Inv(cfg, s)
    ensures StepKeeps(cfg, s, OnIterate(cfg, s, launch))
  {
    if s.phase.Idle? {
      LaunchKeeps(cfg, s, launch);
      StopKeeps(cfg, s, RunCancelled(s.cancel.who, s.cancel.reason));
      GatingKeeps(cfg, s);
    }
    hide Inv, LaunchProcess, Finish, Cleanup;
  }

  lemma GatingKeeps(cfg: Config, s: RunState)
    requires Inv(cfg, s) && s.phase.Idle?
    ensures StepKeeps(cfg, s, s.(phase := Gating))
  {
    hide OutboxInv, BellsInv;
  }

  lemma GateKeeps(cfg: Config, s: RunState, result: GateResult, launch: Launch)
    requires Inv(cfg, s) && s.phase.Gating?
    ensures StepKeeps(cfg, s, OnGate(cfg, s, result, launch))
  {
    LaunchKeeps(cfg, s, launch);
    StopKeeps(cfg, s, RunCancelled(s.cancel.who, s.cancel.reason));
    StopKeeps(cfg, s, Failed(NotPrepared));
    StopKeeps(cfg, s, Failed(if result.Refused? && result.failure.Some? then result.failure.value else GateRefused));
    hide Inv, LaunchProcess, Finish, Cleanup;
  }

  lemma CancelKeeps(cfg: Config, s: RunState, who: CancelledBy, reason: Option<string>)
    requires Inv(cfg, s)
    ensures StepKeeps(cfg, s, OnCancel(cfg, s, who, reason))
  {
    if !s.cancel.recorded && !s.phase.Idle? && !Terminated(s) {
      var requested := s.(cancel := Cancellation(true, true, who, reason));
      hide OutboxInv, BellsInv;
      assert Core(cfg, requested);
      if s.phase.Live? {
        TerminateKeeps(cfg, requested);
      }
      hide TerminateProcess;
      assert s.phase.Gating? ==> s.handle.None?;
      if s.phase.Gating? {
        TerminateNothing(cfg, requested);
      }
    } else {
      hide OutboxInv, BellsInv, TerminateProcess;
    }
  }

  lemma TerminateNothing(cfg: Config, s: RunState)
    requires Inv(cfg, s) && s.phase.Gating?
    ensures Inv(cfg, TerminateProcess(cfg, s)) && TerminateProcess(cfg, s).out == s.out
  {
    hide OutboxInv, BellsInv;
    assert !Rings(s.bells, Grace);
  }

  lemma CallbackKeeps(cfg: Config, s: RunState, input: Input)
    requires Inv(cfg, s) && Enabled(s, input)
    requires input.StdoutData? || input.StderrData? || input.StdinError? || input.ProcessError? || input.Pass?
    ensures StepKeeps(cfg, s, Step(cfg, s, input))
  {
    hide OutboxInv, BellsInv, TakeChunk, ClearStartup, ArmInactivity, FailAndTerminate, Finish;
    match input {
      case StdoutData(text) =>
        ClearStartupKeeps(cfg, s);
        InactivityKeeps(cfg, ClearStartup(s));
        TakeChunkKeeps(cfg, ArmInactivity(cfg, ClearStartup(s)), text);
      case StderrData =>
        InactivityKeeps(cfg, s);
      case StdinError =>
        assert Core(cfg, s.(stdinFailed := true));
        FailKeeps(cfg, s.(stdinFailed := true), PromptLost);
      case ProcessError =>
        ClearStartupKeeps(cfg, s);
        FinishKeeps(cfg, ClearStartup(s), Failed(ProcessCrashed));
        StaysSilent(cfg, s);
      case Pass(to) =>
        PassKeeps(s.bells, to);
    }
  }

  lemma StaysSilent(cfg: Config, s: RunState)
    ensures var t := Finish(cfg, ClearStartup(s), Failed(ProcessCrashed));
            t.listening == s.listening && (s.bells.clock.armed == map[] ==> t.bells.clock.armed == map[])
  {
  }

  lemma StepPreserves(cfg: Config, s: RunState, input: Input)
    requires Inv(cfg, s)
    ensures StepKeeps(cfg, s, Step(cfg, s, input))
  {
    hide Inv;
    if Enabled(s, input) {
      match input {
        case Iterate(launch) => IterateKeeps(cfg, s, launch);
        case GateResolved(result, launch) => GateKeeps(cfg, s, result, launch);
        case Cancel(who, reason) => CancelKeeps(cfg, s, who, reason);
        case StdoutEnd => EndKeeps(cfg, s);
        case Exit(info) => ExitKeeps(cfg, s, info);
        case Fire(id) => FireKeeps(cfg, s, id);
        case _ => CallbackKeeps(cfg, s, input);
      }
    }
    hide OnIterate, OnGate, OnCancel, OnData, OnEnd, OnStdinError, OnExit, OnFire, ArmInactivity, Finish;
  }
}
