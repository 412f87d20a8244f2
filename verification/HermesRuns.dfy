/**
  The normalised Hermes run itself: the generator's fields, proved step by step against
  `HermesRunning`. What it asks of the raw run (start, cancel) is returned to the caller.
 */
module HermesRuns {
  import opened Wrappers
  import opened Events
  import H = HermesProtocol
  import T = HermesExecution
  import opened HermesRunning
  import FilePathSafety

  class HermesRun {
    const cfg: Config
    const factory: EventFactory
    const guard: TerminalEventGuard
    var phase: Phase
    var yielded: seq<Event>
    var completion: Option<Event>
    var rawTerminalSeen: bool
    var cancellationRequested: bool
    var cancelledBy: CancelledBy
    var cancelReason: Option<string>

    ghost function Repr(): set<object> {
      {this, factory, guard}
    }

    ghost predicate Valid()
      reads Repr()
    {
      factory.ctx == cfg.ctx
    }

    ghost function State(): Runner
      reads Repr()
    {
      Runner(phase, Kit(factory.sequence, guard.terminalEvent), yielded, completion, rawTerminalSeen,
             cancellationRequested, cancelledBy, cancelReason)
    }

    /** A signal that is already aborted counts as a cancellation by the system. */
    constructor (cfg: Config, aborted: bool)
      ensures Valid() && this.cfg == cfg && fresh(Repr())
      ensures State() == if aborted then RecordCancellation(Idle, System, None).0 else Idle
    {
      this.cfg := cfg;
      factory := new EventFactory(cfg.ctx);
      guard := new TerminalEventGuard();
      phase, yielded, completion := NotStarted, [], None;
      rawTerminalSeen, cancellationRequested, cancelledBy, cancelReason := false, aborted, System, None;
    }

    method Cancel(who: CancelledBy, reason: Option<string>) returns (cancelRaw: bool)
      requires Valid()
      modifies this
      ensures Valid() && (State(), cancelRaw) == RecordCancellation(old(State()), who, reason)
    {
      if guard.terminalEvent != None || rawTerminalSeen || cancellationRequested { return false; }
      cancellationRequested := true;
      cancelledBy := who;
      cancelReason := reason;
      cancelRaw := phase != NotStarted;
    }

    method FinishEvent(event: Event)
      requires Valid()
      modifies this
      ensures Valid() && State() == Finish(old(State()), event)
    {
      if completion == None { completion := Some(event); }
      yielded := yielded + [event];
      phase := Done;
    }

    method FinishBody(body: Body)
      requires Valid()
      modifies Repr()
      ensures Valid() && State() == FinishWith(cfg, old(State()), body)
    {
      var event := Emit(factory, guard, body);
      if event.Ok? { FinishEvent(event.value); } else { phase := Done; }
    }

    /** The mapper: payload validation, then the body; `None` is its mapping error. */
    method Translate(e: H.RawEvent) returns (body: Option<Body>)
      ensures body == Translated(cfg.decode, e)
      ensures forall b :: body == Some(b) <==> Conveys(cfg.decode, e, b)
    {
      TranslationConveys(cfg.decode, e);
      hide Conveys;
      var d := cfg.decode;
      match e.kind {
        case RunStarted => body := if d.started(e.payload) then Some(RunStarted) else None;
        case MessageDelta =>
          var text := d.text(e.payload);
          body := if text.Some? then Some(MessageDelta(text.value)) else None;
        case ToolStarted =>
          var call := d.toolStarted(e.payload);
          body := if call.Some? then Some(ToolStarted(call.value.0, call.value.1)) else None;
        case ToolCompleted =>
          var call := d.toolCompleted(e.payload);
          body := if call.Some? then Some(ToolCompleted(call.value.0, call.value.1, call.value.2)) else None;
        case FileChanged =>
          var change := d.fileChanged(e.payload);
          if change.None? { return None; }
          var path := FilePathSafety.Parse(change.value.0);
          body := if path.Some? then Some(FileChanged(path.value, change.value.1)) else None;
        case RunCompleted =>
          var summary := d.completed(e.payload);
          body := if summary.Some? then Some(RunCompleted(summary.value)) else None;
        case RunFailed => body := if d.failed(e.payload) then Some(Executed) else None;
        case RunCancelled =>
          var origin := d.cancelled(e.payload);
          body := if origin.Some? then Some(RunCancelled(origin.value.0, origin.value.1)) else None;
      }
    }

    method HandleError(mappingError: bool) returns (cancelRaw: bool)
      requires Valid()
      modifies Repr()
      ensures Valid() && (State(), cancelRaw) == Catch(cfg, old(State()), mappingError)
    {
      cancelRaw := false;
      if guard.terminalEvent != None {
        phase := Done;
      } else if cancellationRequested && !rawTerminalSeen {
        FinishBody(RunCancelled(cancelledBy, cancelReason));
      } else if mappingError {
        var event := Emit(factory, guard, InvalidPayload);
        phase := if event.Ok? then AwaitingAfterMappingError(event.value) else Done;
        cancelRaw := true;
      } else {
        FinishBody(TransportFailed);
      }
    }

    /** The first `next`. */
    method Begin(startThrows: bool) returns (startRaw: bool)
      requires Valid() && phase.NotStarted?
      modifies Repr()
      ensures Valid() && (State(), startRaw) == HermesRunning.Begin(cfg, old(State()), startThrows)
    {
      startRaw := false;
      if cancellationRequested {
        FinishBody(RunCancelled(cancelledBy, cancelReason));
      } else if startThrows {
        FinishBody(CouldNotStart);
      } else {
        phase := Streaming;
        startRaw := true;
      }
    }

    method OnRawEvent(e: H.RawEvent) returns (cancelRaw: bool)
      requires Valid()
      modifies Repr()
      ensures Valid() && (State(), cancelRaw) == OnRaw(cfg, old(State()), e)
    {
      hide Translated, Catch;
      if e.kind == H.RunCompleted || e.kind == H.RunFailed || e.kind == H.RunCancelled {
        rawTerminalSeen := true;
        return false;
      }
      var body := Translate(e);
      if body == None {
        cancelRaw := HandleError(true);
        return;
      }
      var event := Emit(factory, guard, body.value);
      if event.Ok? { yielded := yielded + [event.value]; } else { phase := Done; }
      cancelRaw := false;
    }

    method OnRawSettled(settlement: T.Settlement) returns (cancelRaw: bool)
      requires Valid()
      modifies Repr()
      ensures Valid() && (State(), cancelRaw) == OnSettled(cfg, old(State()), settlement)
    {
      hide Translated, Catch, FinishWith, Finish;
      cancelRaw := false;
      if phase.AwaitingAfterMappingError? {
        FinishEvent(phase.failed);
      } else if !settlement.Resolved? {
        cancelRaw := HandleError(false);
      } else {
        var body := Translate(settlement.terminalEvent);
        if body == None { cancelRaw := HandleError(true); } else { FinishBody(body.value); }
      }
    }
  }
}
