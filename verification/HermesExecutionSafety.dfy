/**
  What every raw Hermes process run keeps, and what follows for its completion: when it settles,
  that it settles once, and what a successful completion means.
 */
module HermesExecutionSafety {
  import opened Wrappers
  import opened Lines
  import opened Timers
  import opened HermesProtocol
  import opened HermesChunking
  import opened HermesTrace
  import opened HermesExecution

  // ----------------------------------------------------------------------- the timers

  ghost predicate NamedBy(c: Clock<TimerKind>, field: Option<nat>, kind: TimerKind) {
    && (field.Some? ==> field.value < c.nextId && (field.value in c.armed ==> c.armed[field.value].kind == kind))
    && forall id | id in c.armed && c.armed[id].kind == kind :: field == Some(id)
  }

  /** Run and drain timers are always the ones their fields name, and a settled run has neither. */
  ghost predicate ClockInv(s: RunState) {
    && Sound(s.clock)
    && NamedBy(s.clock, s.timers.run, RunLimit) && NamedBy(s.clock, s.timers.drain, Drain)
    && (Settled(s) ==> !Rings(s.clock, RunLimit) && !Rings(s.clock, Drain))
    && (Rings(s.clock, Drain) ==> s.exit.Some?)
    && (forall id | id in s.clock.armed :: s.clock.armed[id].kind in {Cleanup(false), Force(false)} ==> s.failure.Some?)
  }

  ghost predicate Rings(c: Clock<TimerKind>, kind: TimerKind) {
    exists id :: id in c.armed && c.armed[id].kind == kind
  }

  ghost predicate ArmedBy(c: Clock<TimerKind>, field: Option<nat>, kind: TimerKind, deadline: real) {
    field.Some? && field.value in c.armed && c.armed[field.value].kind == kind && c.armed[field.value].deadline <= deadline
  }

  /** A link of a cleanup chain that was started within the run limit. */
  ghost predicate Link(cfg: Settings, c: Clock<TimerKind>, id: nat) {
    id in c.armed &&
    ((c.armed[id].kind.Cleanup? && c.armed[id].deadline <= cfg.run + cfg.cleanup) ||
     (c.armed[id].kind.Force? && c.armed[id].deadline <= cfg.run + cfg.cleanup + cfg.force))
  }

  ghost predicate ChainAlive(cfg: Settings, c: Clock<TimerKind>) {
    exists id :: Link(cfg, c, id)
  }

  /** An unsettled run always has a timer that will settle it, or lead to one that does. */
  ghost predicate LiveInv(cfg: Settings, s: RunState) {
    !Settled(s) ==>
      && s.spawned
      && (s.exit.None? && s.failure.None? ==> ArmedBy(s.clock, s.timers.run, RunLimit, cfg.run))
      && (s.exit.Some? ==> s.failure.None? && !s.stdoutEnded && ArmedBy(s.clock, s.timers.drain, Drain, cfg.run + cfg.drain))
      && (s.failure.Some? ==> s.timers.cleanup.Some?)
      && (s.timers.cleanup.Some? ==> ChainAlive(cfg, s.clock))
  }

  // ------------------------------------------------------------------------ the data

  /** The parser has its terminal event exactly when the last accepted event is one, and no other is. */
  ghost predicate ParserShape(p: ParserState) {
    && (forall i :: 0 <= i < |p.accepted| && IsTerminal(p.accepted[i].kind) ==> i == |p.accepted| - 1)
    && p.terminal == if |p.accepted| > 0 && IsTerminal(p.accepted[|p.accepted| - 1].kind)
                     then Some(p.accepted[|p.accepted| - 1]) else None
  }

  /** The parser holds what the received chunks make of it, and the queue what it accepted until a failure. */
  ghost predicate DataInv(cfg: Settings, s: RunState) {
    && s.parser == (if s.stdoutEnded then Parse(cfg.parser, s.chunks) else AfterPushes(cfg.parser, Fresh, s.chunks))
    && ParserShape(s.parser)
    && s.queued <= s.parser.accepted
    && (s.failure.None? ==> s.queued == s.parser.accepted && (s.closed <==> s.parser.terminal.Some? || Settled(s)))
    && (s.failure.Some? || Settled(s) ==> s.closed)
  }

  ghost predicate EndInv(s: RunState) {
    && (s.parser.error.Some? ==> s.failure.Some?)
    && (s.settlement.Rejected? ==> s.failure == Some(s.settlement.code) && s.process == Failed)
    && (s.settlement.Resolved? ==>
          && s.process == Exited && s.failure.None? && s.stdoutEnded
          && s.exit == Some(ExitInfo(Some(s.settlement.exitCode), None))
          && s.parser.terminal == Some(s.settlement.terminalEvent)
          && ValidExit(s.settlement.terminalEvent, s.settlement.exitCode))
  }

  ghost predicate Inv(cfg: Settings, s: RunState) {
    ClockInv(s) && LiveInv(cfg, s) && DataInv(cfg, s) && EndInv(s)
  }

  // ------------------------------------------------------------------ timer operations

  lemma DisarmRun(s: RunState)
    requires ClockInv(s)
    ensures var t := s.(clock := Disarm(s.clock, s.timers.run)); ClockInv(t) && !Rings(t.clock, RunLimit) && t.clock.now == s.clock.now
    ensures forall deadline :: ArmedBy(s.clock, s.timers.drain, Drain, deadline) ==>
              ArmedBy(Disarm(s.clock, s.timers.run), s.timers.drain, Drain, deadline)
    ensures forall cfg :: ChainAlive(cfg, s.clock) ==> ChainAlive(cfg, Disarm(s.clock, s.timers.run))
    ensures Rings(Disarm(s.clock, s.timers.run), Drain) ==> Rings(s.clock, Drain)
  {
    var c := Disarm(s.clock, s.timers.run);
    forall cfg | ChainAlive(cfg, s.clock) ensures ChainAlive(cfg, c) {
      var id :| Link(cfg, s.clock, id);
      assert Link(cfg, c, id);
    }
  }

  lemma DisarmDrain(s: RunState)
    requires ClockInv(s)
    ensures var t := s.(clock := Disarm(s.clock, s.timers.drain)); ClockInv(t) && !Rings(t.clock, Drain) && t.clock.now == s.clock.now
    ensures forall deadline :: ArmedBy(s.clock, s.timers.run, RunLimit, deadline) ==>
              ArmedBy(Disarm(s.clock, s.timers.drain), s.timers.run, RunLimit, deadline)
    ensures forall cfg :: ChainAlive(cfg, s.clock) ==> ChainAlive(cfg, Disarm(s.clock, s.timers.drain))
    ensures Rings(Disarm(s.clock, s.timers.drain), RunLimit) ==> Rings(s.clock, RunLimit)
  {
    var c := Disarm(s.clock, s.timers.drain);
    forall cfg | ChainAlive(cfg, s.clock) ensures ChainAlive(cfg, c) {
      var id :| Link(cfg, s.clock, id);
      assert Link(cfg, c, id);
    }
  }

  lemma ClearTimersKeeps(s: RunState)
    requires Sound(s.clock) && NamedBy(s.clock, s.timers.run, RunLimit) && NamedBy(s.clock, s.timers.drain, Drain)
    requires forall id | id in s.clock.armed :: s.clock.armed[id].kind in {Cleanup(false), Force(false)} ==> s.failure.Some?
    ensures ClockInv(ClearTimers(s)) && ClearTimers(s) == s.(clock := ClearTimers(s).clock)
  {
  }

  /** The state in which the promise may be settled: its timers and data are in order, whatever is pending. */
  ghost predicate Ready(cfg: Settings, s: RunState) {
    ClockInv(s) && DataInv(cfg, s) && !Settled(s)
  }

  lemma SettleKeeps(cfg: Settings, s: RunState)
    requires Ready(cfg, s) && s.failure.Some?
    ensures Inv(cfg, SettleFailure(s)) && Settled(SettleFailure(s)) && SettleFailure(s).queued == s.queued
  {
    ClearTimersKeeps(s.(settlement := Rejected(s.failure.value), process := Failed, closed := true));
    hide Parse, ParserShape, ClearTimers, NamedBy;
  }

  lemma ForceSettleKeeps(cfg: Settings, s: RunState, code: ErrorCode)
    requires Ready(cfg, s)
    ensures var t := SettleFailure(s.(failure := Some(code), closed := true));
            Inv(cfg, t) && Settled(t) && t.queued == s.queued && t == FailImmediately(s, code)
  {
    hide Parse, ParserShape, NamedBy, ClearTimers;
    SettleKeeps(cfg, s.(failure := Some(code), closed := true));
  }

  /** A failure begins: settle at once if the process is gone, else make sure a cleanup chain is running. */
  lemma BeginFailureKeeps(cfg: Settings, s: RunState, code: ErrorCode)
    requires Ready(cfg, s) && s.failure.None? && s.spawned
    requires s.exit.None? ==> s.clock.now <= cfg.run && (s.timers.cleanup.Some? ==> ChainAlive(cfg, s.clock))
    ensures Inv(cfg, BeginFailure(cfg, s, code)) && BeginFailure(cfg, s, code).queued == s.queued
  {
    hide SettleFailure, StartCleanup, ClockInv, DataInv, ChainAlive;
    var failing := Failing(s, code);
    FailingIsReady(cfg, s, code);
    if s.exit.Some? {
      SettleKeeps(cfg, failing);
    } else {
      var terminating := failing.(process := Terminating);
      DataIgnoresTimers(cfg, failing, terminating);
      if s.timers.cleanup.None? {
        StartCleanupKeeps(cfg, terminating, false);
        DataIgnoresTimers(cfg, terminating, StartCleanup(cfg, terminating, false));
      }
    }
  }

  lemma DataIgnoresTimers(cfg: Settings, s: RunState, t: RunState)
    requires DataInv(cfg, s)
    requires t == s.(process := t.process, timers := t.timers, clock := t.clock, terminations := t.terminations)
    ensures DataInv(cfg, t)
  {
    hide Parse, ParserShape, AfterPushes;
  }

  function Failing(s: RunState, code: ErrorCode): RunState {
    s.(failure := Some(code), closed := true, clock := Disarm(Disarm(s.clock, s.timers.run), s.timers.drain))
  }

  lemma FailingIsReady(cfg: Settings, s: RunState, code: ErrorCode)
    requires Ready(cfg, s) && s.failure.None?
    ensures Ready(cfg, Failing(s, code)) && ClockInv(Failing(s, code).(process := Terminating))
    ensures ChainAlive(cfg, s.clock) ==> ChainAlive(cfg, Failing(s, code).clock)
  {
    hide Parse, ParserShape, NamedBy, Link;
    DisarmRun(s);
    DisarmDrain(s.(clock := Disarm(s.clock, s.timers.run)));
  }

  lemma StartCleanupKeeps(cfg: Settings, s: RunState, byCancel: bool)
    requires ClockInv(s) && s.clock.now <= cfg.run && (byCancel || s.failure.Some?)
    ensures var t := StartCleanup(cfg, s, byCancel);
            && ClockInv(t) && ChainAlive(cfg, t.clock) && t.timers.cleanup.Some?
            && t == s.(terminations := s.terminations + 1, timers := s.timers.(cleanup := t.timers.cleanup), clock := t.clock)
            && (forall kind, field: Option<nat>, deadline :: ArmedBy(s.clock, field, kind, deadline) ==> ArmedBy(t.clock, field, kind, deadline))
  {
    var t := StartCleanup(cfg, s, byCancel);
    assert Link(cfg, t.clock, s.clock.nextId);
    forall kind, field: Option<nat>, deadline | ArmedBy(s.clock, field, kind, deadline) ensures ArmedBy(t.clock, field, kind, deadline) {
      assert field.value < s.clock.nextId;
    }
  }

  lemma MaybeCompleteKeeps(cfg: Settings, s: RunState)
    requires Ready(cfg, s) && EndInv(s) && s.spawned && s.stdoutEnded
    requires s.failure.None? && (s.exit.None? ==> LiveInv(cfg, s))
    ensures Inv(cfg, MaybeComplete(cfg, s)) && MaybeComplete(cfg, s).queued == s.queued
  {
    hide BeginFailure, ClearTimers, Parse, ParserShape, NamedBy;
    if s.exit.Some? {
      BeginFailureKeeps(cfg, s, ProcessExited);
      var exit := s.exit.value;
      if s.parser.terminal.Some? && exit.code.Some? && exit.signal.None? {
        ClearTimersKeeps(s.(settlement := Resolved(s.parser.terminal.value, exit.code.value), process := Exited, closed := true));
      }
    }
  }

  // -------------------------------------------------------------------- stdout and queue

  lemma {:induction false} PushesSnoc(cfg: HermesProtocol.Config, st: ParserState, chunks: seq<seq<Byte>>, c: seq<Byte>)
    ensures AfterPushes(cfg, st, chunks + [c]) == AfterPush(cfg, AfterPushes(cfg, st, chunks), c)
    decreases |chunks|
  {
    hide AfterPush;
    if chunks == [] {
      assert chunks + [c] == [c];
    } else {
      assert (chunks + [c])[1..] == chunks[1..] + [c];
      PushesSnoc(cfg, AfterPush(cfg, st, chunks[0]), chunks[1..], c);
    }
  }

  lemma {:induction false} LinesShape(cfg: HermesProtocol.Config, st: ParserState, lines: seq<seq<Byte>>)
    requires ParserShape(st)
    ensures ParserShape(TakeLines(cfg, st, lines)) && st.accepted <= TakeLines(cfg, st, lines).accepted
    ensures st.terminal.Some? ==> TakeLines(cfg, st, lines).accepted == st.accepted
    decreases |lines|
  {
    if lines != [] {
      var next := TakeLine(cfg, st, lines[0]);
      assert ParserShape(next) && st.accepted <= next.accepted;
      LinesShape(cfg, next, lines[1..]);
    }
  }

  /** Accepted events only grow, and not at all behind a terminal one. */
  lemma PushShape(cfg: HermesProtocol.Config, st: ParserState, chunk: seq<Byte>)
    requires ParserShape(st)
    ensures var after := AfterPush(cfg, st, chunk);
            ParserShape(after) && st.accepted <= after.accepted && (st.terminal.Some? ==> after.accepted == st.accepted)
  {
    hide Split, TakeLines;
    LinesShape(cfg, st.(totalBytes := st.totalBytes + |chunk|), Closed(Split(st.buffer + chunk, LF)));
  }

  lemma ShapeIgnoresRest(a: ParserState, b: ParserState)
    requires a.accepted == b.accepted && a.terminal == b.terminal
    ensures ParserShape(a) == ParserShape(b)
  {
  }

  lemma {:induction false} EnqueueOpen(queued: seq<RawEvent>, events: seq<RawEvent>)
    requires forall i :: 0 <= i < |events| && IsTerminal(events[i].kind) ==> i == |events| - 1
    ensures Enqueue(queued, false, events) ==
            (queued + events, |events| > 0 && IsTerminal(events[|events| - 1].kind))
    decreases |events|
  {
    if events == [] {
      assert queued + events == queued;
    } else if |events| == 1 {
      assert events == [events[0]] && events[1..] == [];
    } else {
      EnqueueOpen(queued + [events[0]], events[1..]);
      assert (queued + [events[0]]) + events[1..] == queued + events;
    }
  }

  lemma {:induction false} EnqueueClosed(queued: seq<RawEvent>, events: seq<RawEvent>)
    ensures Enqueue(queued, true, events) == (queued, true)
    decreases |events|
  {
    if events != [] { EnqueueClosed(queued, events[1..]); }
  }

  /** What one chunk does to parser, queue and log of chunks. */
  lemma ReceiveKeeps(cfg: Settings, s: RunState, chunk: seq<Byte>)
    requires DataInv(cfg, s) && !s.stdoutEnded && !Settled(s)
    ensures var parser := AfterPush(cfg.parser, s.parser, chunk);
            && s.parser.accepted <= parser.accepted
            && var (queued, closed) := Enqueue(s.queued, s.closed, parser.accepted[|s.parser.accepted|..]);
            && DataInv(cfg, s.(parser := parser, queued := queued, closed := closed, chunks := s.chunks + [chunk]))
            && s.queued <= queued
  {
    var parser := AfterPush(cfg.parser, s.parser, chunk);
    PushesSnoc(cfg.parser, Fresh, s.chunks, chunk);
    PushShape(cfg.parser, s.parser, chunk);
    var events := parser.accepted[|s.parser.accepted|..];
    assert parser.accepted == s.parser.accepted + events;
    hide AfterPush, AfterPushes, Parse;
    if s.closed {
      EnqueueClosed(s.queued, events);
    } else {
      forall i | 0 <= i < |events| && IsTerminal(events[i].kind) ensures i == |events| - 1 {
        assert parser.accepted[|s.parser.accepted| + i] == events[i];
      }
      EnqueueOpen(s.queued, events);
    }
  }

  lemma DataKeeps(cfg: Settings, s: RunState, chunk: Option<seq<Byte>>)
    requires Inv(cfg, s) && Enabled(s, Data(chunk))
    ensures Inv(cfg, OnData(cfg, s, chunk)) && s.queued <= OnData(cfg, s, chunk).queued
  {
    hide BeginFailure, AfterPush, Parse, ParserShape, NamedBy, Enqueue, ChainAlive;
    LiveIsTimely(cfg, s);
    if chunk.None? {
      if s.failure.None? { BeginFailureKeeps(cfg, s, InvalidUtf8); } else { NotAgain(cfg, s, InvalidUtf8); }
    } else {
      ReceiveKeeps(cfg, s, chunk.value);
      var parser := AfterPush(cfg.parser, s.parser, chunk.value);
      var (queued, closed) := Enqueue(s.queued, s.closed, parser.accepted[|s.parser.accepted|..]);
      var t := s.(parser := parser, queued := queued, closed := closed, chunks := s.chunks + [chunk.value]);
      if parser.error.Some? {
        if s.failure.None? { BeginFailureKeeps(cfg, t, parser.error.value); } else { NotAgain(cfg, t, parser.error.value); }
      }
    }
  }

  lemma NotAgain(cfg: Settings, s: RunState, code: ErrorCode)
    requires s.failure.Some?
    ensures BeginFailure(cfg, s, code) == s
  {
  }

  /** Until it settles, a run that has seen neither exit nor failure is within its run limit. */
  lemma LiveIsTimely(cfg: Settings, s: RunState)
    requires ClockInv(s) && LiveInv(cfg, s) && !Settled(s)
    ensures s.exit.None? && s.failure.None? ==> s.clock.now <= cfg.run
  {
  }

  lemma FinishStdoutKeeps(cfg: Settings, s: RunState)
    requires Ready(cfg, s) && EndInv(s) && s.spawned && !s.stdoutEnded
    requires s.exit.None? ==> LiveInv(cfg, s)
    requires s.exit.Some? ==> s.failure.None?
    ensures Inv(cfg, FinishStdout(cfg, s)) && FinishStdout(cfg, s).queued == s.queued
  {
    var t := s.(stdoutEnded := true, parser := AfterFinish(cfg.parser, s.parser));
    FinishShape(cfg, s);
    hide BeginFailure, MaybeComplete, AfterFinish, Parse, ParserShape, NamedBy, ChainAlive;
    if s.exit.None? { LiveIsTimely(cfg, s); }
    if t.parser.error.Some? {
      if s.failure.None? { BeginFailureKeeps(cfg, t, t.parser.error.value); } else { NotAgain(cfg, t, t.parser.error.value); }
    } else if s.failure.None? {
      MaybeCompleteKeeps(cfg, t);
    } else {
      NothingToComplete(cfg, t);
    }
  }

  lemma NothingToComplete(cfg: Settings, s: RunState)
    requires s.failure.Some?
    ensures MaybeComplete(cfg, s) == s
  {
  }

  lemma FinishShape(cfg: Settings, s: RunState)
    requires DataInv(cfg, s) && !s.stdoutEnded
    ensures DataInv(cfg, s.(stdoutEnded := true, parser := AfterFinish(cfg.parser, s.parser)))
    ensures AfterFinish(cfg.parser, s.parser).error.None? ==> s.parser.error.None?
  {
    hide AfterPushes;
    ShapeIgnoresRest(s.parser, AfterFinish(cfg.parser, s.parser));
  }

  lemma EndKeeps(cfg: Settings, s: RunState)
    requires Inv(cfg, s) && Enabled(s, End)
    ensures Inv(cfg, OnEnd(cfg, s)) && OnEnd(cfg, s).queued == s.queued
  {
    if !s.stdoutEnded {
      DisarmDrain(s);
      hide FinishStdout, Parse, ParserShape, NamedBy, ChainAlive;
      FinishStdoutKeeps(cfg, s.(clock := Disarm(s.clock, s.timers.drain)));
    }
  }

  // ------------------------------------------------------------------ exit, cancel, timers

  lemma ExitKeeps(cfg: Settings, s: RunState, info: ExitInfo)
    requires Inv(cfg, s) && Enabled(s, Exit(info))
    ensures Inv(cfg, OnExit(cfg, s, info)) && OnExit(cfg, s, info).queued == s.queued
  {
    if !Settled(s) {
      LiveIsTimely(cfg, s);
      DisarmRun(s);
      var exited := s.(exit := Some(info), clock := Disarm(s.clock, s.timers.run));
      hide SettleFailure, MaybeComplete, Parse, ParserShape, ChainAlive;
      if s.failure.Some? {
        SettleKeeps(cfg, exited);
      } else if s.stdoutEnded {
        MaybeCompleteKeeps(cfg, exited);
      } else {
        ArmDrainKeeps(cfg, exited);
      }
    }
  }

  lemma ArmDrainKeeps(cfg: Settings, s: RunState)
    requires Ready(cfg, s) && EndInv(s) && s.spawned && s.exit.Some? && s.failure.None? && !s.stdoutEnded
    requires s.clock.now <= cfg.run && !Rings(s.clock, Drain) && (s.timers.cleanup.Some? ==> ChainAlive(cfg, s.clock))
    ensures Inv(cfg, s.(timers := s.timers.(drain := Some(s.clock.nextId)), clock := Arm(s.clock, Drain, cfg.drain)))
  {
    hide Parse, ParserShape;
    var t := s.(timers := s.timers.(drain := Some(s.clock.nextId)), clock := Arm(s.clock, Drain, cfg.drain));
    if s.timers.cleanup.Some? {
      var id :| Link(cfg, s.clock, id);
      assert Link(cfg, t.clock, id);
    }
  }

  lemma CancelKeeps(cfg: Settings, s: RunState)
    requires Inv(cfg, s)
    ensures Inv(cfg, OnCancel(cfg, s)) && OnCancel(cfg, s).queued == s.queued
  {
    if !Settled(s) && s.exit.None? && s.spawned {
      LiveIsTimely(cfg, s);
      var requested := s.(cancellationRequested := true, process := Terminating);
      if s.failure.None? {
        StartCleanupKeeps(cfg, requested, true);
      } else {
        SecondChainKeeps(cfg, requested);
      }
    }
    hide StartCleanup, Parse, ParserShape, NamedBy, ChainAlive;
  }

  /** Cancelling a run that is already failing starts another chain and forgets the first one's handle. */
  lemma SecondChainKeeps(cfg: Settings, s: RunState)
    requires Inv(cfg, s) && !Settled(s) && s.failure.Some?
    ensures Inv(cfg, StartCleanup(cfg, s, true))
  {
    var t := StartCleanup(cfg, s, true);
    var id :| Link(cfg, s.clock, id);
    assert Link(cfg, t.clock, id);
    hide Parse, ParserShape, DataInv;
  }

  lemma RungKeeps(cfg: Settings, s: RunState, id: nat)
    requires ClockInv(s) && id in s.clock.armed
    ensures var rung := s.(clock := Disarm(s.clock, Some(id)));
            && ClockInv(rung) && rung.clock.now == s.clock.now
            && (s.clock.armed[id].kind.RunLimit? || s.clock.armed[id].kind.Drain? ==>
                  !Rings(rung.clock, s.clock.armed[id].kind) && (ChainAlive(cfg, s.clock) ==> ChainAlive(cfg, rung.clock)))
            && (forall field: Option<nat>, kind, deadline :: kind != s.clock.armed[id].kind && ArmedBy(s.clock, field, kind, deadline)
                  ==> ArmedBy(rung.clock, field, kind, deadline))
  {
    var c := Disarm(s.clock, Some(id));
    if s.clock.armed[id].kind.RunLimit? || s.clock.armed[id].kind.Drain? {
      if ChainAlive(cfg, s.clock) {
        var link :| Link(cfg, s.clock, link);
        assert Link(cfg, c, link);
      }
    }
  }

  lemma CleanupFires(cfg: Settings, s: RunState, id: nat)
    requires Inv(cfg, s) && Due(s.clock, id) && s.clock.armed[id].kind.Cleanup?
    ensures Inv(cfg, OnFire(cfg, s, id)) && OnFire(cfg, s, id).queued == s.queued
  {
    hide Parse, ParserShape, NamedBy, ChainAlive;
    RungKeeps(cfg, s, id);
    var rung := s.(clock := Disarm(s.clock, Some(id)));
    CleanupMayForce(cfg, s, id);
    ArmForceKeeps(cfg, rung, s.clock.armed[id].kind.byCancel);
    hide ClockInv;
    if ChainAlive(cfg, s.clock) { ChainMoves(cfg, s, id); }
  }

  lemma CleanupMayForce(cfg: Settings, s: RunState, id: nat)
    requires ClockInv(s) && id in s.clock.armed && s.clock.armed[id].kind.Cleanup?
    ensures s.clock.armed[id].kind.byCancel || s.failure.Some?
  {
  }

  lemma ChainMoves(cfg: Settings, s: RunState, id: nat)
    requires ClockInv(s) && Due(s.clock, id) && s.clock.armed[id].kind.Cleanup? && ChainAlive(cfg, s.clock)
    ensures ChainAlive(cfg, OnFire(cfg, s, id).clock)
  {
    var link :| Link(cfg, s.clock, link);
    assert Link(cfg, OnFire(cfg, s, id).clock, if link == id then s.clock.nextId else link);
  }

  lemma ArmForceKeeps(cfg: Settings, s: RunState, byCancel: bool)
    requires ClockInv(s) && (byCancel || s.failure.Some?)
    ensures var t := s.(timers := s.timers.(force := Some(s.clock.nextId)), clock := Arm(s.clock, Force(byCancel), cfg.force));
            && ClockInv(t)
            && (forall field: Option<nat>, kind, deadline :: ArmedBy(s.clock, field, kind, deadline) && field.value < s.clock.nextId
                  ==> ArmedBy(t.clock, field, kind, deadline))
  {
  }

  lemma FireKeeps(cfg: Settings, s: RunState, id: nat)
    requires Inv(cfg, s) && Due(s.clock, id)
    ensures Inv(cfg, OnFire(cfg, s, id)) && OnFire(cfg, s, id).queued == s.queued
  {
    var kind := s.clock.armed[id].kind;
    if kind.Cleanup? {
      CleanupFires(cfg, s, id);
    } else {
      RungKeeps(cfg, s, id);
      assert Rings(s.clock, kind);
      var rung := s.(clock := Disarm(s.clock, Some(id)));
      if !Settled(s) { LiveIsTimely(cfg, s); }
      hide BeginFailure, FinishStdout, SettleFailure, Parse, ParserShape, ChainAlive;
      match kind {
        case RunLimit =>
          if s.failure.None? { BeginFailureKeeps(cfg, rung, TimedOut); } else { NotAgain(cfg, rung, TimedOut); }
        case Force(byCancel) =>
          if !Settled(s) {
            if byCancel { ForceSettleKeeps(cfg, rung, ProcessExited); } else { SettleKeeps(cfg, rung); }
          }
        case Drain =>
          FinishStdoutKeeps(cfg, rung);
      }
    }
  }
}
