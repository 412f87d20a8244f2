/**
  The normalised Hermes run on top of the raw one: an async generator that maps raw events,
  waits for the raw completion and ends the stream with one terminal event.

  `Runner` is the generator's own state; `Joint` puts it together with the raw run whose queue it
  drains and whose completion it awaits.
 */
module HermesRunning {
  import opened Wrappers
  import opened Events
  import H = HermesProtocol
  import T = HermesExecution
  import FilePathSafety

  /** Schema validation of each payload, as any deterministic functions. */
  datatype Decoder = Decoder(
    started: string -> bool,
    text: string -> Option<string>,
    toolStarted: string -> Option<(string, string)>,
    toolCompleted: string -> Option<(string, string, bool)>,
    fileChanged: string -> Option<(string, string)>,
    completed: string -> Option<Option<string>>,
    failed: string -> bool,
    cancelled: string -> Option<(CancelledBy, Option<string>)>)

  datatype Config = Config(ctx: Context, decode: Decoder, transport: T.Settings)

  const Executed := RunFailed("HERMES_EXECUTION_FAILED", "Hermes execution failed.")
  const InvalidPayload := RunFailed("HERMES_INVALID_EVENT", "Hermes emitted an invalid event payload.")
  const CouldNotStart := RunFailed("HERMES_TRANSPORT_FAILURE", "Hermes transport could not start.")
  const TransportFailed := RunFailed("HERMES_TRANSPORT_FAILURE", "Hermes execution transport failed.")

  /** `HermesEventMapper.mapEvent` before numbering; `None` is its mapping error. */
  function Translated(d: Decoder, e: H.RawEvent): Option<Body> {
    match e.kind
    case RunStarted => if d.started(e.payload) then Some(RunStarted) else None
    case MessageDelta => (match d.text(e.payload) case Some(t) => Some(MessageDelta(t)) case None => None)
    case ToolStarted => (match d.toolStarted(e.payload) case Some(t) => Some(ToolStarted(t.0, t.1)) case None => None)
    case ToolCompleted => (match d.toolCompleted(e.payload) case Some(t) => Some(ToolCompleted(t.0, t.1, t.2)) case None => None)
    case FileChanged =>
      (match d.fileChanged(e.payload)
       case Some(t) => (match FilePathSafety.Parse(t.0) case Some(path) => Some(FileChanged(path, t.1)) case None => None)
       case None => None)
    case RunCompleted => (match d.completed(e.payload) case Some(summary) => Some(RunCompleted(summary)) case None => None)
    case RunFailed => if d.failed(e.payload) then Some(Executed) else None
    case RunCancelled => (match d.cancelled(e.payload) case Some(t) => Some(RunCancelled(t.0, t.1)) case None => None)
  }

  /** A path that may be reported: bounded, free of NUL, without a drive prefix, every segment an ordinary name. */
  ghost predicate Reportable(path: string) {
    && |path| <= 1024 && '\0' !in path && !(|path| > 1 && FilePathSafety.IsDriveLetter(path[0]) && path[1] == ':')
    && FilePathSafety.CleanSegments(path)
  }

  /** What a raw event says, field by field: its payload decodes to just this, and a path is reported with slashes. */
  ghost predicate Conveys(d: Decoder, e: H.RawEvent, body: Body) {
    match body
    case RunStarted => e.kind.RunStarted? && d.started(e.payload)
    case MessageDelta(text) => e.kind.MessageDelta? && d.text(e.payload) == Some(text)
    case ToolStarted(id, name) => e.kind.ToolStarted? && d.toolStarted(e.payload) == Some((id, name))
    case ToolCompleted(id, name, success) => e.kind.ToolCompleted? && d.toolCompleted(e.payload) == Some((id, name, success))
    case FileChanged(path, operation) =>
      e.kind.FileChanged? && d.fileChanged(e.payload).Some? &&
      var (reported, change) := d.fileChanged(e.payload).value;
      change == operation && Reportable(reported) && path == FilePathSafety.Slashed(reported)
    case RunCompleted(summary) => e.kind.RunCompleted? && d.completed(e.payload) == Some(summary)
    case RunFailed(code, message) =>
      e.kind.RunFailed? && d.failed(e.payload) && code == "HERMES_EXECUTION_FAILED" && message == "Hermes execution failed."
    case RunCancelled(who, reason) => e.kind.RunCancelled? && d.cancelled(e.payload) == Some((who, reason))
    case ApprovalRequired(_, _) => false
  }

  /** The translation of an event is what it conveys, and an event that conveys nothing has none. */
  lemma TranslationConveys(d: Decoder, e: H.RawEvent)
    ensures forall body :: Translated(d, e) == Some(body) <==> Conveys(d, e, body)
  {
    hide FilePathSafety.Parse;
    if e.kind.FileChanged? && d.fileChanged(e.payload).Some? {
      FilePathSafety.ParseExactly(d.fileChanged(e.payload).value.0);
    }
  }

  /** Where the generator is suspended. */
  datatype Phase = NotStarted | Streaming | Awaiting | AwaitingAfterMappingError(failed: Event) | Done

  datatype Runner = Runner(
    phase: Phase, kit: Kit, yielded: seq<Event>, completion: Option<Event>,
    rawTerminalSeen: bool, cancellationRequested: bool, cancelledBy: CancelledBy, cancelReason: Option<string>)

  const Idle := Runner(NotStarted, Kit(0, None), [], None, false, false, System, None)

  /** `yield this.#finish(event)`: resolve the completion, hand the event out, end. */
  function Finish(r: Runner, event: Event): Runner {
    r.(phase := Done, yielded := r.yielded + [event],
       completion := if r.completion.None? then Some(event) else r.completion)
  }

  /** Number and guard a terminal event and finish with it; a guard that has ended already just ends the generator. */
  function FinishWith(cfg: Config, r: Runner, body: Body): Runner {
    var (kit, event) := Submit(cfg.ctx, r.kit, body);
    if event.Some? then Finish(r.(kit := kit), event.value) else r.(kit := kit, phase := Done)
  }

  function FinishCancelled(cfg: Config, r: Runner): Runner {
    FinishWith(cfg, r, RunCancelled(r.cancelledBy, r.cancelReason))
  }

  /** The result of a resumption: the new state, and whether the raw run is told to cancel. */
  type Outcome = (Runner, bool)

  function RecordCancellation(r: Runner, who: CancelledBy, reason: Option<string>): Outcome {
    if r.kit.terminal.Some? || r.rawTerminalSeen || r.cancellationRequested then (r, false)
    else (r.(cancellationRequested := true, cancelledBy := who, cancelReason := reason), !r.phase.NotStarted?)
  }

  /** The `catch` around the event loop and the await. */
  function Catch(cfg: Config, r: Runner, mappingError: bool): Outcome {
    if r.kit.terminal.Some? then (r.(phase := Done), false)
    else if r.cancellationRequested && !r.rawTerminalSeen then (FinishCancelled(cfg, r), false)
    else if mappingError then
      var (kit, event) := Submit(cfg.ctx, r.kit, InvalidPayload);
      (r.(kit := kit, phase := if event.Some? then AwaitingAfterMappingError(event.value) else Done), true)
    else (FinishWith(cfg, r, TransportFailed), false)
  }

  /** The first `next`: cancelled runs never start the raw run. The flag asks for the raw run to be started. */
  function Begin(cfg: Config, r: Runner, startThrows: bool): Outcome {
    if r.cancellationRequested then (FinishCancelled(cfg, r), false)
    else if startThrows then (FinishWith(cfg, r, CouldNotStart), false)
    else (r.(phase := Streaming), true)
  }

  /** One raw event arrives from the queue. */
  function OnRaw(cfg: Config, r: Runner, e: H.RawEvent): Outcome {
    if H.IsTerminal(e.kind) then (r.(rawTerminalSeen := true), false)
    else
      var body := Translated(cfg.decode, e);
      if body.None? then Catch(cfg, r, true)
      else
        var (kit, event) := Submit(cfg.ctx, r.kit, body.value);
        if event.None? then (r.(kit := kit, phase := Done), false)
        else (r.(kit := kit, yielded := r.yielded + [event.value]), false)
  }

  /** The raw completion settles while the generator awaits it. */
  function OnSettled(cfg: Config, r: Runner, settlement: T.Settlement): Outcome {
    match r.phase
    case AwaitingAfterMappingError(failed) => (Finish(r, failed), false)
    case _ =>
      if !settlement.Resolved? then Catch(cfg, r, false)
      else
        var body := Translated(cfg.decode, settlement.terminalEvent);
        if body.None? then Catch(cfg, r, true)
        else (FinishWith(cfg, r, body.value), false)
  }

  // ------------------------------------------------------------------ both runs together

  /** `taken` raw events have been drained from the raw run's queue. */
  datatype Joint = Joint(runner: Runner, raw: Option<T.RunState>, taken: nat)

  datatype Input =
    | Cancel(who: CancelledBy, reason: Option<string>)
    | Start(startThrows: bool, launch: T.Launch)
    | Resume
    | Raw(input: T.Input)

  const Created := Joint(Idle, None, 0)

  function Forward(cfg: Config, raw: Option<T.RunState>, cancel: bool): Option<T.RunState> {
    if cancel && raw.Some? then Some(T.Step(cfg.transport, raw.value, T.Input.Cancel)) else raw
  }

  /** The consumer asks for more: drain one event, notice the closed queue, or collect the settled completion. */
  function Resumed(cfg: Config, j: Joint): Joint {
    if j.raw.None? then j
    else
      var raw := j.raw.value;
      match j.runner.phase
      case Streaming =>
        if j.taken < |raw.queued| then
          var (r, cancel) := OnRaw(cfg, j.runner, raw.queued[j.taken]);
          Joint(r, Forward(cfg, j.raw, cancel), j.taken + 1)
        else if raw.closed then j.(runner := j.runner.(phase := Awaiting))
        else j
      case Awaiting =>
        if !T.Settled(raw) then j
        else
          var (r, cancel) := OnSettled(cfg, j.runner, raw.settlement);
          Joint(r, Forward(cfg, j.raw, cancel), j.taken)
      case AwaitingAfterMappingError(_) =>
        if !T.Settled(raw) then j else j.(runner := OnSettled(cfg, j.runner, raw.settlement).0)
      case _ => j
  }

  function Step(cfg: Config, j: Joint, input: Input): Joint {
    match input
    case Cancel(who, reason) =>
      var (r, cancel) := RecordCancellation(j.runner, who, reason);
      Joint(r, Forward(cfg, j.raw, cancel), j.taken)
    case Start(startThrows, launch) =>
      if !j.runner.phase.NotStarted? then j
      else
        var (r, start) := Begin(cfg, j.runner, startThrows);
        Joint(r, if start then Some(T.Begin(cfg.transport, launch)) else None, 0)
    case Resume => Resumed(cfg, j)
    case Raw(raw) => if j.raw.Some? then j.(raw := Some(T.Step(cfg.transport, j.raw.value, raw))) else j
  }

  function Exec(cfg: Config, j: Joint, inputs: seq<Input>): Joint
    decreases |inputs|
  {
    if inputs == [] then j else Exec(cfg, Step(cfg, j, inputs[0]), inputs[1..])
  }

  function After(cfg: Config, inputs: seq<Input>): Joint {
    Exec(cfg, Created, inputs)
  }
}
