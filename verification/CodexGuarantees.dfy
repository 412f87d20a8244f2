/**
  What the Codex adapter promises about any run: whatever happens, in whatever order.
 */
module CodexGuarantees {
  import opened Wrappers
  import opened Events
  import opened Timers
  import opened CodexLifecycle
  import opened CodexSafety
  import P = StreamParsing
  import M = CodexMapping

  /** The state after a whole run's worth of inputs. */
  function After(cfg: Config, inputs: seq<Input>): RunState {
    Exec(cfg, Initial(), inputs)
  }

  lemma {:induction false} ExecKeeps(cfg: Config, s: RunState, inputs: seq<Input>)
    requires Inv(cfg, s)
    ensures Inv(cfg, Exec(cfg, s, inputs)) && Extends(s.out, Exec(cfg, s, inputs).out)
    decreases |inputs|
  {
    if inputs != [] {
      hide Inv, Step;
      StepPreserves(cfg, s, inputs[0]);
      ExecKeeps(cfg, Step(cfg, s, inputs[0]), inputs[1..]);
    }
  }

  lemma {:induction false} ExecAppend(cfg: Config, s: RunState, xs: seq<Input>, ys: seq<Input>)
    ensures Exec(cfg, s, xs + ys) == Exec(cfg, Exec(cfg, s, xs), ys)
    decreases |xs|
  {
    hide Step;
    if xs == [] {
      assert xs + ys == ys;
    } else {
      assert (xs + ys)[1..] == xs[1..] + ys;
      ExecAppend(cfg, Step(cfg, s, xs[0]), xs[1..], ys);
    }
  }

  /** Every reachable state satisfies the invariant. */
  lemma Reachable(cfg: Config, inputs: seq<Input>)
    ensures Inv(cfg, After(cfg, inputs))
  {
    forall kind ensures Named(Initial().bells, kind) {}
    ExecKeeps(cfg, Initial(), inputs);
  }

  /**
    Exactly one terminal event. At any moment the queue holds one well-formed log; it is closed
    exactly when the run has completed, with the terminal event last in the log and as the value
    of the completion promise; and from then on neither log nor promise ever changes.
   */
  lemma OneTerminal(cfg: Config, inputs: seq<Input>, later: seq<Input>)
    ensures var now, then_ := After(cfg, inputs).out, After(cfg, inputs + later).out;
      && WellFormedLog(cfg.ctx, now.queued) && now.queued <= then_.queued
      && (now.closed <==> now.completion.Some?)
      && (now.completion.Some? ==>
            && now.queued != [] && now.queued[|now.queued| - 1] == now.completion.value
            && IsTerminal(now.completion.value.body)
            && then_.queued == now.queued && then_.completion == now.completion)
      && (now.completion.None? ==> forall e | e in now.queued :: !IsTerminal(e.body))
  {
    hide Exec;
    Reachable(cfg, inputs);
    ExecAppend(cfg, Initial(), inputs, later);
    ExecKeeps(cfg, After(cfg, inputs), later);
  }

  /**
    Bounded life: once launched, a run without a terminal event has its max-duration timer armed, so
    the clock cannot get past launch time plus the maximum duration before the run has ended.
   */
  lemma EndsInTime(cfg: Config, inputs: seq<Input>)
    ensures var s := After(cfg, inputs);
            s.phase.Live? && s.out.completion.None? ==>
              && s.bells.clock.now <= s.liveAt + cfg.maxDuration
              && exists id :: id in s.bells.clock.armed && s.bells.clock.armed[id] == Alarm(MaxDuration, s.liveAt + cfg.maxDuration)
  {
    Reachable(cfg, inputs);
    hide Exec;
  }

  /** Over a whole run: at most one spawn, one kill-then-grace sequence and one forced kill, and never a kill without a spawn. */
  lemma TouchesProcessOnce(cfg: Config, inputs: seq<Input>)
    ensures var os := After(cfg, inputs).os;
            os.forced <= os.kills <= os.spawns <= 1
  {
    Reachable(cfg, inputs);
    hide Exec;
  }

  // ------------------------------------------------------------- cancelled before launch

  /** Cancellation came before the launch decision: the run can only end as cancelled, by that request. */
  ghost predicate Doomed(s: RunState, who: CancelledBy, reason: Option<string>) {
    && s.cancel.recorded && s.cancel.who == who && s.cancel.reason == reason
    && !s.phase.Live? && s.handle.None? && !s.listening && s.bells.clock.armed == map[]
    && (s.phase.Stopped? ==> Terminated(s) && |s.out.queued| == 1 && s.out.queued[0].body == RunCancelled(who, reason))
    && (!s.phase.Stopped? ==> s.out.queued == [] && !s.out.closed && !Terminated(s))
  }

  lemma DoomedStep(cfg: Config, s: RunState, input: Input)
    requires Doomed(s, s.cancel.who, s.cancel.reason)
    ensures Doomed(Step(cfg, s, input), s.cancel.who, s.cancel.reason) && Step(cfg, s, input).os == s.os
  {
    if input.Iterate? || input.GateResolved? {
      ClearsNothing(s.bells);
    }
    hide LaunchProcess, OnData, OnEnd, OnStdinError, OnExit, OnFire, ClearAll;
  }

  lemma ClearsNothing(b: Bells)
    requires b.clock.armed == map[]
    ensures ClearAll(b).clock.armed == map[]
  {
  }

  lemma {:induction false} DoomedExec(cfg: Config, s: RunState, inputs: seq<Input>)
    requires Doomed(s, s.cancel.who, s.cancel.reason)
    ensures Doomed(Exec(cfg, s, inputs), s.cancel.who, s.cancel.reason) && Exec(cfg, s, inputs).os == s.os
    decreases |inputs|
  {
    if inputs != [] {
      hide Step;
      DoomedStep(cfg, s, inputs[0]);
      DoomedExec(cfg, Step(cfg, s, inputs[0]), inputs[1..]);
    }
  }

  /**
    No process is ever spawned, and nothing is ever killed, when cancellation was recorded before
    the gate result is handled; if such a run ends, its whole log is the one cancellation event
    carrying the first request's origin and reason.
   */
  lemma NoSpawnAfterCancel(cfg: Config, inputs: seq<Input>, later: seq<Input>)
    requires var s := After(cfg, inputs); s.cancel.recorded && (s.phase.Idle? || s.phase.Gating?)
    ensures var s, t := After(cfg, inputs), After(cfg, inputs + later);
            && t.os == OsLog(0, 0, 0)
            && (t.out.completion.Some? ==>
                  t.out.queued == [t.out.completion.value]
                  && t.out.completion.value.body == RunCancelled(s.cancel.who, s.cancel.reason))
  {
    var s := After(cfg, inputs);
    hide Exec;
    Reachable(cfg, inputs);
    Reachable(cfg, inputs + later);
    ExecAppend(cfg, Initial(), inputs, later);
    DoomedExec(cfg, s, later);
  }

  // --------------------------------------------------------------------- after the end

  lemma FinalStep(cfg: Config, s: RunState, input: Input)
    requires Inv(cfg, s) && Final(s)
    ensures Final(Step(cfg, s, input)) && Step(cfg, s, input).os == s.os
  {
    hide OutboxInv, BellsInv, OnData, OnEnd, OnStdinError, OnExit, OnFire, OnGate, Conclude, LaunchProcess;
  }

  lemma {:induction false} FinalExec(cfg: Config, s: RunState, inputs: seq<Input>)
    requires Inv(cfg, s) && Final(s)
    ensures Final(Exec(cfg, s, inputs)) && Exec(cfg, s, inputs).os == s.os
    decreases |inputs|
  {
    if inputs != [] {
      hide Inv, Step;
      FinalStep(cfg, s, inputs[0]);
      StepPreserves(cfg, s, inputs[0]);
      FinalExec(cfg, Step(cfg, s, inputs[0]), inputs[1..]);
    }
  }

  /**
    Timer hygiene: once exit is observed and stdout has ended, or the drain timer stood in for its
    end, the run is over, no timer is armed then or ever again, and nothing more is killed.
   */
  lemma SilentAfterExit(cfg: Config, inputs: seq<Input>, later: seq<Input>)
    requires Final(After(cfg, inputs))
    ensures var s, t := After(cfg, inputs), After(cfg, inputs + later);
            && s.out.completion.Some? && s.bells.clock.armed == map[] && !s.listening
            && t.bells.clock.armed == map[] && !t.listening && t.os == s.os
  {
    hide Exec;
    Reachable(cfg, inputs);
    Reachable(cfg, inputs + later);
    ExecAppend(cfg, Initial(), inputs, later);
    FinalExec(cfg, After(cfg, inputs), later);
  }
}
