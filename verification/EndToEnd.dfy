/**
  From the adapter to the reader: the log a run delivers is a log the client can follow, and
  following it ends with the run's own outcome.
 */
module EndToEnd {
  import opened Wrappers
  import opened Events
  import opened TaskEvents
  import opened TaskEventsSafety
  import opened TaskEventsGuarantees
  import CL = CodexLifecycle
  import CG = CodexGuarantees
  import HR = HermesRunning
  import HG = HermesRunningGuarantees

  /** What an adapter delivers is what the client takes for a log. */
  lemma WellFormedIsLog(ctx: Context, log: seq<Event>)
    requires WellFormedLog(ctx, log)
    ensures IsLog(ctx.taskId, log)
  {
  }

  /** The state of a returning client that has been sent the rest of the log. */
  function CaughtUp(logs: Logs, task: string, inputs: seq<Input>, input: Input): Client
    requires After(Some(task), inputs).taskId == Some(task) && ComesBack(After(Some(task), inputs), input)
  {
    var c := After(Some(task), inputs);
    var d := Step(c, input);
    if d.socket.Some? && |c.events| <= |logs(task)| then Exec(d, Frames(d.socket.value, logs(task)[|c.events|..])) else d
  }

  /**
    A reader of an ended log who was disconnected any number of times, comes back and is sent the
    rest, sees the whole log and has been notified of its last event and nothing else.
   */
  lemma ReaderSeesTheOutcome(ctx: Context, logs: Logs, inputs: seq<Input>, input: Input)
    requires AllLogs(logs) && Honest(logs, Mounted(Some(ctx.taskId)), inputs)
    requires After(Some(ctx.taskId), inputs).taskId == Some(ctx.taskId) && ComesBack(After(Some(ctx.taskId), inputs), input)
    requires var log := logs(ctx.taskId); WellFormedLog(ctx, log) && log != [] && IsTerminal(log[|log| - 1].body)
    ensures var d := CaughtUp(logs, ctx.taskId, inputs, input); var log := logs(ctx.taskId);
            d.events == log && d.notified == [log[|log| - 1]]
  {
    var task, log := ctx.taskId, logs(ctx.taskId);
    var c := After(Some(task), inputs);
    hide After, Exec, Mounted, Step, LinksInv, EventsInv, BudgetInv, NotifiedInv;
    ReturnCatchesUp(logs, Some(task), inputs, input);
    Reachable(Some(task), inputs);
    StepKeeps(c, input);
    var back := Step(c, input);
    ExecKeeps(back, Frames(back.socket.value, log[|c.events|..]));
    NotifiedOfLast(CaughtUp(logs, task, inputs, input));
  }

  lemma NotifiedOfLast(d: Client)
    requires NotifiedInv(d) && d.events != [] && IsTerminal(d.events[|d.events| - 1].body)
    requires forall i :: 0 <= i < |d.events| && IsTerminal(d.events[i].body) ==> i == |d.events| - 1
    ensures d.notified == [d.events[|d.events| - 1]]
  {
    if d.terminalNotified {
      var i :| FirstTerminal(d.events, i) && d.notified == [d.events[i]];
      assert i == |d.events| - 1;
    }
  }

  /** Codex to reader: what is shown and notified in the end is the run's own log and outcome. */
  lemma CodexRunReachesReader(cfg: CL.Config, run: seq<CL.Input>, logs: Logs, inputs: seq<Input>, input: Input)
    requires var out := CG.After(cfg, run).out; out.completion.Some? && logs(cfg.ctx.taskId) == out.queued
    requires AllLogs(logs) && Honest(logs, Mounted(Some(cfg.ctx.taskId)), inputs)
    requires After(Some(cfg.ctx.taskId), inputs).taskId == Some(cfg.ctx.taskId)
    requires ComesBack(After(Some(cfg.ctx.taskId), inputs), input)
    ensures var out, d := CG.After(cfg, run).out, CaughtUp(logs, cfg.ctx.taskId, inputs, input);
            d.events == out.queued && d.notified == [out.completion.value]
  {
    hide CG.After, CaughtUp, Honest, AllLogs, After;
    CG.OneTerminal(cfg, run, []);
    ReaderSeesTheOutcome(cfg.ctx, logs, inputs, input);
  }

  /** Hermes to reader, likewise. */
  lemma HermesRunReachesReader(cfg: HR.Config, run: seq<HR.Input>, logs: Logs, inputs: seq<Input>, input: Input)
    requires var r := HR.After(cfg, run).runner; r.phase.Done? && logs(cfg.ctx.taskId) == r.yielded
    requires AllLogs(logs) && Honest(logs, Mounted(Some(cfg.ctx.taskId)), inputs)
    requires After(Some(cfg.ctx.taskId), inputs).taskId == Some(cfg.ctx.taskId)
    requires ComesBack(After(Some(cfg.ctx.taskId), inputs), input)
    ensures var r, d := HR.After(cfg, run).runner, CaughtUp(logs, cfg.ctx.taskId, inputs, input);
            r.completion.Some? && d.events == r.yielded && d.notified == [r.completion.value]
  {
    hide HR.After, CaughtUp, Honest, AllLogs, After;
    HG.OneTerminal(cfg, run, []);
    ReaderSeesTheOutcome(cfg.ctx, logs, inputs, input);
  }
}
