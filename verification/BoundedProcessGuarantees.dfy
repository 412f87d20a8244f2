/**
  What a probe promises, for every order of output, exit, error, abort and timeout.
 */
module BoundedProcessGuarantees {
  import opened Wrappers
  import opened Timers
  import opened Lines
  import opened BoundedProcess

  ghost predicate NamedBy(s: ProbeState, field: Option<nat>, kind: TimerKind) {
    && (field.Some? ==> field.value < s.clock.nextId && (field.value in s.clock.armed ==> s.clock.armed[field.value].kind == kind))
    && forall id | id in s.clock.armed && s.clock.armed[id].kind == kind :: field == Some(id)
  }

  ghost predicate Rings(s: ProbeState, kind: TimerKind, deadline: real) {
    exists id :: id in s.clock.armed && s.clock.armed[id].kind == kind && s.clock.armed[id].deadline <= deadline
  }

  /** Armed timers are named by their fields; a pending probe has the timer its phase calls for. */
  ghost predicate TimerInv(cfg: Config, s: ProbeState) {
    && Sound(s.clock)
    && NamedBy(s, s.timeoutTimer, Timeout) && NamedBy(s, s.forceTimer, Force) && NamedBy(s, s.settleTimer, Settle)
    && (s.result.Some? ==> s.clock.armed == map[] && !s.listening)
    && (s.result.None? && !s.terminationStarted ==> Rings(s, Timeout, cfg.timeout) && s.forceTimer.None? && s.settleTimer.None?)
    && (s.result.None? && s.terminationStarted ==>
          Rings(s, Force, cfg.timeout + cfg.grace) || Rings(s, Settle, cfg.timeout + cfg.grace))
    && (s.result.None? && s.settleTimer.Some? ==> forall id | id in s.clock.armed :: s.clock.armed[id].kind != Force)
  }

  /** What has been kept is the first part of what has been heard, as much as the cap allows. */
  ghost predicate CaptureInv(cfg: Config, s: ProbeState) {
    && s.stdout == Capped(Flatten(s.heardOut), cfg.maxOutput)
    && s.stderr == Capped(Flatten(s.heardErr), cfg.maxOutput)
    && (s.result.Some? ==> s.result.value.stdout == s.stdout && s.result.value.stderr == s.stderr)
  }

  ghost predicate Inv(cfg: Config, s: ProbeState) {
    TimerInv(cfg, s) && CaptureInv(cfg, s) && s.kills <= 1 && (!s.terminationStarted ==> s.kills == 0)
  }

  // ---------------------------------------------------------------------------- capture

  lemma {:induction false} FlattenSnoc(chunks: seq<Text>, c: Text)
    ensures Flatten(chunks + [c]) == Flatten(chunks) + c
  {
    if chunks == [] {
      FlattenOne(c);
      assert chunks + [c] == [c];
    } else {
      assert (chunks + [c])[1..] == chunks[1..] + [c];
      FlattenSnoc(chunks[1..], c);
    }
  }

  lemma CaptureKeeps(cfg: Config, heard: seq<Text>, chunk: Text)
    ensures Capture(cfg, Capped(Flatten(heard), cfg.maxOutput), chunk) == Capped(Flatten(heard + [chunk]), cfg.maxOutput)
  {
    FlattenSnoc(heard, chunk);
    var all := Flatten(heard);
    if |all| > cfg.maxOutput {
      assert (all + chunk)[..cfg.maxOutput] == all[..cfg.maxOutput];
    } else if |all| == cfg.maxOutput {
      assert Capped(all + chunk, cfg.maxOutput) == all;
    }
  }

  // ------------------------------------------------------------------------------ timers

  lemma SettleKeeps(cfg: Config, s: ProbeState, result: ProbeResult)
    requires Sound(s.clock) && CaptureInv(cfg, s) && s.result.None? && s.kills <= 1 && (!s.terminationStarted ==> s.kills == 0)
    requires NamedBy(s, s.timeoutTimer, Timeout) && NamedBy(s, s.forceTimer, Force) && NamedBy(s, s.settleTimer, Settle)
    requires result.stdout == s.stdout && result.stderr == s.stderr
    ensures Inv(cfg, SettleWith(s, result)) && SettleWith(s, result).result.Some?
  {
    hide Flatten, Capped;
    var t := SettleWith(s, result);
    forall id | id in t.clock.armed ensures false {
      match s.clock.armed[id].kind { case Timeout => case Force => case Settle => }
    }
  }

  /** Before any result: timers in order, and time within the timeout as long as termination has not begun. */
  ghost predicate Pending(cfg: Config, s: ProbeState) {
    && Sound(s.clock) && CaptureInv(cfg, s) && s.result.None? && s.kills == 0 && !s.terminationStarted
    && NamedBy(s, s.timeoutTimer, Timeout) && NamedBy(s, s.forceTimer, Force) && NamedBy(s, s.settleTimer, Settle)
    && s.forceTimer.None? && s.settleTimer.None? && s.clock.now <= cfg.timeout
  }

  lemma TerminateKeeps(cfg: Config, s: ProbeState, killed: KillEffect)
    requires Pending(cfg, s)
    ensures Inv(cfg, Terminate(cfg, s, killed))
  {
    var asked := s.(terminationStarted := true, kills := s.kills + 1);
    if killed.Some? {
      SettleKeeps(cfg, asked, ResultNow(asked, killed.value, None));
      hide SettleWith;
    } else {
      ArmKeeps(cfg, asked);
      hide Flatten, Capped;
    }
  }

  lemma ArmKeeps(cfg: Config, s: ProbeState)
    requires Pending(cfg, s.(terminationStarted := false, kills := 0)) && s.kills == 1 && s.terminationStarted
    ensures Inv(cfg, s.(settleTimer := Some(s.clock.nextId), clock := Arm(s.clock, Settle, 0.0)))
    ensures Inv(cfg, s.(forceTimer := Some(s.clock.nextId), clock := Arm(s.clock, Force, cfg.grace)))
  {
    hide Flatten, Capped;
    var t := s.(settleTimer := Some(s.clock.nextId), clock := Arm(s.clock, Settle, 0.0));
    var u := s.(forceTimer := Some(s.clock.nextId), clock := Arm(s.clock, Force, cfg.grace));
    assert s.clock.nextId in t.clock.armed && s.clock.nextId in u.clock.armed;
    assert Rings(t, Settle, cfg.timeout + cfg.grace) && Rings(u, Force, cfg.timeout + cfg.grace);
  }

  lemma RungKeeps(cfg: Config, s: ProbeState, id: nat)
    requires Inv(cfg, s) && Due(s.clock, id)
    ensures var rung := s.(clock := Disarm(s.clock, Some(id))); var kind := s.clock.armed[id].kind;
      && Sound(rung.clock) && s.result.None?
      && NamedBy(rung, rung.timeoutTimer, Timeout) && NamedBy(rung, rung.forceTimer, Force) && NamedBy(rung, rung.settleTimer, Settle)
      && (forall other, deadline :: other != kind && Rings(s, other, deadline) ==> Rings(rung, other, deadline))
      && (!s.terminationStarted ==> kind == Timeout && s.clock.now <= cfg.timeout)
  {
    hide Flatten, Capped;
    var rung, kind := s.(clock := Disarm(s.clock, Some(id))), s.clock.armed[id].kind;
    forall other, deadline | other != kind && Rings(s, other, deadline) ensures Rings(rung, other, deadline) {
      var i :| i in s.clock.armed && s.clock.armed[i].kind == other && s.clock.armed[i].deadline <= deadline;
      assert i in rung.clock.armed;
    }
  }

  lemma FireKeeps(cfg: Config, s: ProbeState, id: nat, killed: KillEffect)
    requires Inv(cfg, s) && Due(s.clock, id)
    ensures Inv(cfg, OnFire(cfg, s, id, killed))
  {
    RungKeeps(cfg, s, id);
    var rung := s.(clock := Disarm(s.clock, Some(id)));
    var kind := s.clock.armed[id].kind;
    hide SettleWith, Flatten, Capped, NamedBy;
    match kind {
      case Timeout =>
        TimeoutFires(cfg, s, rung, killed);
        hide Terminate;
      case Force => ForceFires(cfg, s, id);
      case Settle => SettleKeeps(cfg, rung, ResultNow(rung, Nothing, None));
    }
  }

  lemma TimeoutFires(cfg: Config, s: ProbeState, rung: ProbeState, killed: KillEffect)
    requires Inv(cfg, s) && s.result.None? && rung == s.(clock := rung.clock) && rung.clock.now == s.clock.now && Sound(rung.clock)
    requires NamedBy(rung, rung.timeoutTimer, Timeout) && NamedBy(rung, rung.forceTimer, Force) && NamedBy(rung, rung.settleTimer, Settle)
    requires forall other, deadline :: other != Timeout && Rings(s, other, deadline) ==> Rings(rung, other, deadline)
    requires forall id | id in rung.clock.armed :: id in s.clock.armed && rung.clock.armed[id] == s.clock.armed[id]
    requires !s.terminationStarted ==> s.clock.now <= cfg.timeout
    ensures Inv(cfg, Terminate(cfg, rung.(timedOut := true), killed))
  {
    hide Flatten, Capped;
    if !s.terminationStarted {
      TerminateKeeps(cfg, rung.(timedOut := true), killed);
      hide Terminate;
    }
  }

  lemma ForceFires(cfg: Config, s: ProbeState, id: nat)
    requires Inv(cfg, s) && Due(s.clock, id) && s.clock.armed[id].kind == Force
    ensures Inv(cfg, OnFire(cfg, s, id, None))
  {
    hide Flatten, Capped;
    RungKeeps(cfg, s, id);
    var t := OnFire(cfg, s, id, None);
    assert s.clock.now <= cfg.timeout + cfg.grace by {
      assert s.terminationStarted;
      assert Rings(s, Force, cfg.timeout + cfg.grace) || Rings(s, Settle, cfg.timeout + cfg.grace);
    }
    assert t.clock.armed[s.clock.nextId] == Alarm(Settle, s.clock.now);
    assert Rings(t, Settle, cfg.timeout + cfg.grace);
  }

  lemma StepKeeps(cfg: Config, s: ProbeState, input: Input)
    requires Inv(cfg, s)
    ensures Inv(cfg, Step(cfg, s, input))
    ensures s.result.Some? ==> Step(cfg, s, input) == s.(clock := Step(cfg, s, input).clock) && Step(cfg, s, input).clock.armed == map[]
  {
    hide Terminate, OnFire, Flatten, Capped, Capture, SettleWith;
    if Enabled(s, input) {
      match input {
        case Stdout(text) => CaptureKeeps(cfg, s.heardOut, text); NamesIgnoreText(cfg, s, Step(cfg, s, input));
        case Stderr(text) => CaptureKeeps(cfg, s.heardErr, text); NamesIgnoreText(cfg, s, Step(cfg, s, input));
        case ProcessError(message) => EndKeeps(cfg, s, ResultNow(s, Nothing, Some(message)));
        case Exit(info) => EndKeeps(cfg, s, ResultNow(s, info, None));
        case Abort(killed) => AbortKeeps(cfg, s, killed);
        case Fire(id, killed) => FireKeeps(cfg, s, id, killed);
        case Pass(to) => PassKeeps(cfg, s, to);
      }
    }
  }

  lemma EndKeeps(cfg: Config, s: ProbeState, result: ProbeResult)
    requires Inv(cfg, s) && result.stdout == s.stdout && result.stderr == s.stderr
    ensures Inv(cfg, SettleWith(s, result)) && (s.result.Some? ==> SettleWith(s, result) == s)
  {
    if s.result.None? { SettleKeeps(cfg, s, result); }
    hide Flatten, Capped, NamedBy;
  }

  lemma AbortKeeps(cfg: Config, s: ProbeState, killed: KillEffect)
    requires Inv(cfg, s) && s.listening
    ensures Inv(cfg, Terminate(cfg, s.(aborted := true), killed))
  {
    hide Flatten, Capped;
    if !s.terminationStarted {
      TerminateKeeps(cfg, s.(aborted := true), killed);
      hide Terminate;
    } else {
      NamesIgnoreText(cfg, s, s.(aborted := true));
    }
  }

  /** The timer invariant does not look at texts and flags. */
  lemma NamesIgnoreText(cfg: Config, s: ProbeState, t: ProbeState)
    requires TimerInv(cfg, s)
    requires t == s.(stdout := t.stdout, stderr := t.stderr, heardOut := t.heardOut, heardErr := t.heardErr,
                     aborted := t.aborted, timedOut := t.timedOut)
    ensures TimerInv(cfg, t)
  {
    forall kind, deadline ensures Rings(s, kind, deadline) == Rings(t, kind, deadline) {
      if i :| i in s.clock.armed && s.clock.armed[i].kind == kind && s.clock.armed[i].deadline <= deadline {
        assert i in t.clock.armed;
      }
    }
  }

  lemma PassKeeps(cfg: Config, s: ProbeState, to: real)
    requires Inv(cfg, s) && MayPass(s.clock, to)
    ensures Inv(cfg, s.(clock := s.clock.(now := to)))
  {
    hide Flatten, Capped;
    var t := s.(clock := s.clock.(now := to));
    forall kind, deadline ensures Rings(s, kind, deadline) == Rings(t, kind, deadline) {
      if i :| i in s.clock.armed && s.clock.armed[i].kind == kind && s.clock.armed[i].deadline <= deadline {
        assert i in t.clock.armed;
      }
    }
  }

  lemma {:induction false} ExecKeeps(cfg: Config, s: ProbeState, inputs: seq<Input>)
    requires Inv(cfg, s)
    ensures Inv(cfg, Exec(cfg, s, inputs))
    ensures s.result.Some? ==> Exec(cfg, s, inputs) == s.(clock := Exec(cfg, s, inputs).clock)
    decreases |inputs|
  {
    if inputs != [] {
      hide Inv, Step;
      StepKeeps(cfg, s, inputs[0]);
      ExecKeeps(cfg, Step(cfg, s, inputs[0]), inputs[1..]);
    }
  }

  lemma BeginKeeps(cfg: Config, launch: Launch)
    ensures Inv(cfg, Begin(cfg, launch))
  {
    var s := Begin(cfg, launch);
    if launch.Spawned? {
      assert 0 in s.clock.armed && s.clock.armed[0] == Alarm(Timeout, cfg.timeout);
      assert Rings(s, Timeout, cfg.timeout);
    }
  }

  lemma {:induction false} ExecAppend(cfg: Config, s: ProbeState, xs: seq<Input>, ys: seq<Input>)
    ensures Exec(cfg, s, xs + ys) == Exec(cfg, Exec(cfg, s, xs), ys)
    decreases |xs|
  {
    hide Step;
    if xs == [] {
      assert xs + ys == ys;
    } else {
      assert (xs + ys)[1..] == xs[1..] + ys;
      ExecAppend(cfg, Step(cfg, s, xs[0]), xs[1..], ys);
    }
  }

  /**
    A probe settles within timeout plus grace: until it does, some timer is armed for no later, so time
    cannot get past that moment. It kills at most once, and once settled its result never changes and
    no timer is left.
   */
  lemma SettlesOnceInTime(cfg: Config, launch: Launch, inputs: seq<Input>, later: seq<Input>)
    ensures var s, t := After(cfg, launch, inputs), After(cfg, launch, inputs + later);
      && s.kills <= 1
      && (s.result.None? ==>
            s.clock.now <= cfg.timeout + cfg.grace
            && exists id :: id in s.clock.armed && s.clock.armed[id].deadline <= cfg.timeout + cfg.grace)
      && (s.result.Some? ==> t.result == s.result && s.clock.armed == map[] && t.clock.armed == map[])
  {
    BeginKeeps(cfg, launch);
    ExecAppend(cfg, Begin(cfg, launch), inputs, later);
    ExecKeeps(cfg, Begin(cfg, launch), inputs);
    var s := After(cfg, launch, inputs);
    ExecKeeps(cfg, s, later);
    hide Exec, Begin, Flatten, Capped, NamedBy;
    if s.result.None? {
      var deadline := if s.terminationStarted then cfg.timeout + cfg.grace else cfg.timeout;
      if !s.terminationStarted {
        var id :| id in s.clock.armed && s.clock.armed[id].kind == Timeout && s.clock.armed[id].deadline <= cfg.timeout;
      }
    }
  }

  /** The captured output is the first part of the concatenated chunks heard before settling, up to the cap. */
  lemma CapturesThePrefix(cfg: Config, launch: Launch, inputs: seq<Input>)
    ensures var s := After(cfg, launch, inputs);
            s.result.Some? ==>
              && s.result.value.stdout == Capped(Flatten(s.heardOut), cfg.maxOutput)
              && s.result.value.stderr == Capped(Flatten(s.heardErr), cfg.maxOutput)
  {
    BeginKeeps(cfg, launch);
    ExecKeeps(cfg, Begin(cfg, launch), inputs);
    hide Exec, Begin, Flatten, Capped, TimerInv;
  }

  // ------------------------------------------------------------------- what the result says

  /** The timeout has rung. */
  predicate TimeoutRang(cfg: Config, launch: Launch, inputs: seq<Input>)
    decreases |inputs|
  {
    inputs != [] &&
    var before, last := inputs[..|inputs| - 1], inputs[|inputs| - 1];
    var s := After(cfg, launch, before);
    TimeoutRang(cfg, launch, before) || (last.Fire? && Enabled(s, last) && s.clock.armed[last.id].kind.Timeout?)
  }

  /** The caller has aborted, before the launch or while the probe was listening. */
  predicate AbortHeard(cfg: Config, launch: Launch, inputs: seq<Input>)
    decreases |inputs|
  {
    if inputs == [] then launch.AlreadyAborted?
    else
      var before, last := inputs[..|inputs| - 1], inputs[|inputs| - 1];
      AbortHeard(cfg, launch, before) || (last.Abort? && Enabled(After(cfg, launch, before), last))
  }

  lemma AfterSnoc(cfg: Config, launch: Launch, before: seq<Input>, last: Input)
    ensures After(cfg, launch, before + [last]) == Step(cfg, After(cfg, launch, before), last)
  {
    hide Step, Begin;
    ExecAppend(cfg, Begin(cfg, launch), before, [last]);
    assert [last][1..] == [];
  }

  /** The flags, the count of kills, and what a result carries of them. */
  ghost predicate Flagged(s: ProbeState, timedOut: bool, aborted: bool) {
    && s.kills == (if s.terminationStarted then 1 else 0)
    && (s.result.None? ==> s.timedOut == timedOut && s.aborted == aborted)
    && (s.result.Some? ==> s.result.value.timedOut == timedOut && s.result.value.aborted == aborted)
    && (s.listening <==> s.result.None?) && (s.result.Some? ==> s.clock.armed == map[])
  }

  lemma StepFlags(cfg: Config, s: ProbeState, input: Input, timedOut: bool, aborted: bool)
    requires Inv(cfg, s) && Flagged(s, timedOut, aborted)
    ensures Flagged(Step(cfg, s, input), timedOut || (input.Fire? && Enabled(s, input) && s.clock.armed[input.id].kind.Timeout?),
                    aborted || (input.Abort? && Enabled(s, input)))
  {
    hide Inv, Capture, Capped, Disarm, Arm, OnFire;
    StepKeeps(cfg, s, input);
    SettledIsQuiet(cfg, s);
    SettledIsQuiet(cfg, Step(cfg, s, input));
    if input.Fire? && Enabled(s, input) { FireFlags(cfg, s, input.id, input.killed, timedOut, aborted); }
  }

  lemma FireFlags(cfg: Config, s: ProbeState, id: nat, killed: KillEffect, timedOut: bool, aborted: bool)
    requires Flagged(s, timedOut, aborted) && id in s.clock.armed
    ensures var t := OnFire(cfg, s, id, killed);
      && t.kills == (if t.terminationStarted then 1 else 0) && (t.listening <==> t.result.None?)
      && (t.result.None? ==> t.timedOut == (timedOut || s.clock.armed[id].kind.Timeout?) && t.aborted == aborted)
      && (t.result.Some? ==> t.result.value.timedOut == (timedOut || s.clock.armed[id].kind.Timeout?) && t.result.value.aborted == aborted)
  {
    hide Disarm, Arm;
  }

  lemma SettledIsQuiet(cfg: Config, s: ProbeState)
    requires Inv(cfg, s)
    ensures s.result.Some? ==> !s.listening && s.clock.armed == map[]
  {
  }

  lemma {:induction false} FlagsAreHistory(cfg: Config, launch: Launch, inputs: seq<Input>)
    ensures Inv(cfg, After(cfg, launch, inputs))
    ensures Flagged(After(cfg, launch, inputs), TimeoutRang(cfg, launch, inputs), AbortHeard(cfg, launch, inputs))
    decreases |inputs|
  {
    hide Inv, Step, Begin;
    BeginKeeps(cfg, launch);
    if inputs == [] {
      BeginFlags(cfg, launch);
    } else {
      var before, last := inputs[..|inputs| - 1], inputs[|inputs| - 1];
      assert inputs == before + [last];
      FlagsAreHistory(cfg, launch, before);
      AfterSnoc(cfg, launch, before, last);
      StepFlags(cfg, After(cfg, launch, before), last, TimeoutRang(cfg, launch, before), AbortHeard(cfg, launch, before));
      StepKeeps(cfg, After(cfg, launch, before), last);
      hide After;
    }
  }

  lemma BeginFlags(cfg: Config, launch: Launch)
    ensures Flagged(Begin(cfg, launch), false, launch.AlreadyAborted?)
  {
  }

  /** What the process reports about its end in this step, if the step settles the probe: code, signal, spawn error. */
  function Report(s: ProbeState, input: Input): Option<(Option<nat>, Option<string>, Option<string>)>
    requires Enabled(s, input)
  {
    match input
    case Exit(info) => Some((info.code, info.signal, None))
    case ProcessError(message) => Some((None, None, Some(message)))
    case Abort(killed) => if killed.Some? && s.kills == 0 then Some((killed.value.code, killed.value.signal, None)) else None
    case Fire(id, killed) =>
      if s.clock.armed[id].kind.Settle? then Some((None, None, None))
      else if s.clock.armed[id].kind.Timeout? && killed.Some? && s.kills == 0 then Some((killed.value.code, killed.value.signal, None))
      else None
    case _ => None
  }

  /**
    What the result says, and when it comes. The probe is settled by the first exit, process error, exit from
    within a kill, or settle timer, with that exit's code and signal or that error's message; the flags say whether
    the timeout rang and whether the caller aborted; the first of these two kills, the force timer forces.
   */
  lemma ResultTells(cfg: Config, launch: Launch, before: seq<Input>, last: Input)
    requires After(cfg, launch, before).result.None? && Enabled(After(cfg, launch, before), last)
    ensures var s, t, inputs := After(cfg, launch, before), After(cfg, launch, before + [last]), before + [last];
      && t.kills == (if s.kills == 1 || last.Abort? || (last.Fire? && s.clock.armed[last.id].kind.Timeout?) then 1 else 0)
      && t.forced == s.forced + (if last.Fire? && s.clock.armed[last.id].kind.Force? then 1 else 0)
      && (t.listening <==> t.result.None?)
      && match Report(s, last)
         case None => t.result.None?
         case Some((code, signal, spawnError)) =>
           t.result == Some(ProbeResult(code, signal, s.stdout, s.stderr, TimeoutRang(cfg, launch, inputs),
                                        AbortHeard(cfg, launch, inputs), spawnError))
  {
    hide Inv;
    var s, inputs := After(cfg, launch, before), before + [last];
    FlagsAreHistory(cfg, launch, before);
    FlagsAreHistory(cfg, launch, inputs);
    AfterSnoc(cfg, launch, before, last);
    hide After, Capture, Disarm, Arm, TimeoutRang, AbortHeard, OnFire;
    match last {
      case Fire(id, killed) => FireReports(cfg, s, id, killed);
      case _ =>
    }
  }

  lemma FireReports(cfg: Config, s: ProbeState, id: nat, killed: KillEffect)
    requires s.result.None? && Enabled(s, Fire(id, killed)) && s.kills == if s.terminationStarted then 1 else 0
    ensures var t := OnFire(cfg, s, id, killed); var kind := s.clock.armed[id].kind;
      && t.kills == (if s.kills == 1 || kind.Timeout? then 1 else 0)
      && t.forced == s.forced + (if kind.Force? then 1 else 0)
      && match Report(s, Fire(id, killed))
         case None => t.result.None?
         case Some((code, signal, spawnError)) =>
           && t.result.Some? && t.result.value.exitCode == code && t.result.value.signal == signal
           && t.result.value.spawnError == spawnError && t.result.value.stdout == s.stdout && t.result.value.stderr == s.stderr
  {
    hide Disarm, Arm;
  }

  /** An aborted caller gets a result without a process; so does a failed spawn, with its message. */
  lemma LaunchTells(cfg: Config, launch: Launch)
    ensures var result := Begin(cfg, launch).result;
      match launch
      case AlreadyAborted => result == Some(ProbeResult(None, None, [], [], false, true, None))
      case SpawnThrows(message) => result == Some(ProbeResult(None, None, [], [], false, false, Some(message)))
      case Spawned(_) => result == None
  {
  }

  /** The chunks of one stream that arrived while the probe was listening. */
  function Heard(cfg: Config, launch: Launch, inputs: seq<Input>, errors: bool): seq<Text>
    decreases |inputs|
  {
    if inputs == [] then []
    else
      var before, last := inputs[..|inputs| - 1], inputs[|inputs| - 1];
      Heard(cfg, launch, before, errors) +
      if !Enabled(After(cfg, launch, before), last) then []
      else if errors then (if last.Stderr? then [last.text] else [])
      else if last.Stdout? then [last.text] else []
  }

  lemma StepHears(cfg: Config, s: ProbeState, input: Input)
    ensures var t := Step(cfg, s, input);
      && t.heardOut == s.heardOut + (if input.Stdout? && Enabled(s, input) then [input.text] else [])
      && t.heardErr == s.heardErr + if input.Stderr? && Enabled(s, input) then [input.text] else []
  {
    hide Capture, Disarm, Arm;
    assert forall xs: seq<Text> :: xs + [] == xs;
  }

  /** Nothing that arrives is lost, added or reordered before it is captured. */
  lemma {:induction false} HeardIsHistory(cfg: Config, launch: Launch, inputs: seq<Input>)
    ensures After(cfg, launch, inputs).heardOut == Heard(cfg, launch, inputs, false)
    ensures After(cfg, launch, inputs).heardErr == Heard(cfg, launch, inputs, true)
    decreases |inputs|
  {
    hide Step, Begin;
    if inputs == [] {
      NothingHeard(cfg, launch);
    } else {
      var before, last := inputs[..|inputs| - 1], inputs[|inputs| - 1];
      assert inputs == before + [last];
      HeardIsHistory(cfg, launch, before);
      AfterSnoc(cfg, launch, before, last);
      StepHears(cfg, After(cfg, launch, before), last);
      hide After;
    }
  }

  lemma NothingHeard(cfg: Config, launch: Launch)
    ensures Begin(cfg, launch).heardOut == [] && Begin(cfg, launch).heardErr == []
  {
  }

  function Duration(cfg: Config): TimerKind -> real {
    (kind: TimerKind) => match kind case Timeout => cfg.timeout case Force => cfg.grace case Settle => 0.0
  }

  /** Whatever happens, a timer that is armed afterwards was armed before or has just been set for exactly its duration. */
  lemma TimersKeepTime(cfg: Config, s: ProbeState, input: Input)
    ensures Timely(s.clock, Step(cfg, s, input).clock, Duration(cfg))
  {
    hide Terminate, OnFire, SettleWith, Capture;
    match input {
      case Abort(killed) => TerminateOnTime(cfg, s.(aborted := true), killed);
      case Fire(id, killed) => if Enabled(s, input) { FireOnTime(cfg, s, id, killed); }
      case Exit(info) => SettleOnTime(cfg, s, ResultNow(s, info, None));
      case ProcessError(message) => SettleOnTime(cfg, s, ResultNow(s, Nothing, Some(message)));
      case _ =>
    }
  }

  lemma SettleOnTime(cfg: Config, s: ProbeState, result: ProbeResult)
    ensures Timely(s.clock, SettleWith(s, result).clock, Duration(cfg)) && SettleWith(s, result).clock.now == s.clock.now
  {
  }

  lemma TerminateOnTime(cfg: Config, s: ProbeState, killed: KillEffect)
    ensures Timely(s.clock, Terminate(cfg, s, killed).clock, Duration(cfg)) && Terminate(cfg, s, killed).clock.now == s.clock.now
  {
    var asked := s.(terminationStarted := true, kills := s.kills + 1);
    if killed.Some? { SettleOnTime(cfg, asked, ResultNow(asked, killed.value, None)); }
    hide SettleWith;
  }

  lemma FireOnTime(cfg: Config, s: ProbeState, id: nat, killed: KillEffect)
    requires id in s.clock.armed
    ensures Timely(s.clock, OnFire(cfg, s, id, killed).clock, Duration(cfg))
  {
    var rung := s.(clock := Disarm(s.clock, Some(id)));
    assert Timely(s.clock, rung.clock, Duration(cfg));
    match s.clock.armed[id].kind {
      case Timeout =>
        TerminateOnTime(cfg, rung.(timedOut := true), killed);
        TimelyTwice(s.clock, rung.clock, Terminate(cfg, rung.(timedOut := true), killed).clock, Duration(cfg));
      case Settle =>
        SettleOnTime(cfg, rung, ResultNow(rung, Nothing, None));
        TimelyTwice(s.clock, rung.clock, SettleWith(rung, ResultNow(rung, Nothing, None)).clock, Duration(cfg));
      case Force =>
    }
    hide Terminate, SettleWith;
  }
}
