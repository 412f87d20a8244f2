/**
  The event kit every adapter shares: `EventFactory` numbers events, `TerminalEventGuard` lets
  at most one terminal event through and nothing after it.
 */
module Events {
  import opened Wrappers

  datatype CancelledBy = User | Orchestrator | System

  /** What an event says; the envelope adds identity and number. */
  datatype Body =
    | RunStarted
    | MessageDelta(text: string)
    | ToolStarted(toolCallId: string, toolName: string)
    | ToolCompleted(toolCallId: string, toolName: string, success: bool)
    | FileChanged(path: string, operation: string)
    | ApprovalRequired(reason: string, riskLevel: string)
    | RunCompleted(summary: Option<string>)
    | RunFailed(code: string, message: string)
    | RunCancelled(cancelledBy: CancelledBy, cancelReason: Option<string>)

  predicate IsTerminal(body: Body) {
    body.RunCompleted? || body.RunFailed? || body.RunCancelled?
  }

  datatype Event = Event(eventId: string, runId: string, taskId: string, agentId: string, sequence: nat, body: Body)

  /** The run's identity, and the random event identifiers in the order they will be drawn. */
  datatype Context = Context(runId: string, taskId: string, agentId: string, eventIds: nat -> string)

  function Stamp(ctx: Context, sequence: nat, body: Body): Event {
    Event(ctx.eventIds(sequence), ctx.runId, ctx.taskId, ctx.agentId, sequence, body)
  }

  /** Factory counter and guard of one run. */
  datatype Kit = Kit(next: nat, terminal: Option<Event>)

  /** The guard's verdict on an event. */
  function Admit(terminal: Option<Event>, event: Event): Option<Event> {
    if terminal.Some? then terminal else if IsTerminal(event.body) then Some(event) else None
  }

  /** Build one event and submit it to the guard: a number is spent either way. */
  function Submit(ctx: Context, kit: Kit, body: Body): (Kit, Option<Event>) {
    var event := Stamp(ctx, kit.next, body);
    (Kit(kit.next + 1, Admit(kit.terminal, event)), if kit.terminal.Some? then None else Some(event))
  }

  function SubmitAll(ctx: Context, kit: Kit, bodies: seq<Body>): (Kit, seq<Event>)
    decreases |bodies|
  {
    if bodies == [] then (kit, [])
    else
      var (kit1, first) := Submit(ctx, kit, bodies[0]);
      var (kit2, rest) := SubmitAll(ctx, kit1, bodies[1..]);
      (kit2, (if first.Some? then [first.value] else []) + rest)
  }

  /** How many of the bodies are accepted: up to and including the first terminal one. */
  function Cut(bodies: seq<Body>): (n: nat)
    ensures n <= |bodies|
    ensures forall i :: 0 <= i < n && IsTerminal(bodies[i]) ==> i == n - 1
    ensures n < |bodies| ==> n > 0 && IsTerminal(bodies[n - 1])
  {
    if bodies == [] then 0 else if IsTerminal(bodies[0]) then 1 else 1 + Cut(bodies[1..])
  }

  // ------------------------------------------------------------------ the classes

  class EventFactory {
    const ctx: Context
    var sequence: nat

    constructor (ctx: Context)
      ensures this.ctx == ctx && sequence == 0
    {
      this.ctx, sequence := ctx, 0;
    }

    /** Every `runStarted`, `messageDelta`, ... of the program: take an envelope, put the payload in. */
    method Build(body: Body) returns (event: Event)
      modifies this
      ensures event == Stamp(ctx, old(sequence), body) && sequence == old(sequence) + 1
    {
      event := Event(ctx.eventIds(sequence), ctx.runId, ctx.taskId, ctx.agentId, sequence, body);
      sequence := sequence + 1;
    }
  }

  datatype GuardError = EventAfterTermination(attempted: Body, terminal: Body)

  class TerminalEventGuard {
    var terminalEvent: Option<Event>

    constructor ()
      ensures terminalEvent == None
    {
      terminalEvent := None;
    }

    /** Either the event comes back, or the guard throws and remembers what it remembered before. */
    method GuardEvent(event: Event) returns (r: Result<Event, GuardError>)
      modifies this
      ensures terminalEvent == Admit(old(terminalEvent), event)
      ensures r == if old(terminalEvent).Some? then Err(EventAfterTermination(event.body, old(terminalEvent).value.body))
                   else Ok(event)
    {
      if terminalEvent != None {
        return Err(EventAfterTermination(event.body, terminalEvent.value.body));
      }
      if IsTerminal(event.body) { terminalEvent := Some(event); }
      return Ok(event);
    }
  }

  /** `guard.guardEvent(factory.x(...))`, the one way adapters produce events. */
  method Emit(factory: EventFactory, guard: TerminalEventGuard, body: Body) returns (r: Result<Event, GuardError>)
    modifies factory, guard
    ensures var (kit, event) := Submit(factory.ctx, old(Kit(factory.sequence, guard.terminalEvent)), body);
            && Kit(factory.sequence, guard.terminalEvent) == kit
            && (event.Some? ==> r == Ok(event.value)) && (event.None? ==> r.Err?)
  {
    var event := factory.Build(body);
    r := guard.GuardEvent(event);
  }

  // ---------------------------------------------------------------- what a run delivers

  /**
    A log as the server stores it and the client replays it: one run, one task, one agent, numbered
    0..n-1, and nothing after a terminal event.
   */
  ghost predicate WellFormedLog(ctx: Context, log: seq<Event>) {
    forall i :: 0 <= i < |log| ==>
      log[i] == Stamp(ctx, i, log[i].body) && (IsTerminal(log[i].body) ==> i == |log| - 1)
  }

  /**
    Whatever is submitted, although every rejected event still uses up a number, the accepted
    events are numbered from 0 without a hole, they are the submitted bodies up to the first
    terminal one, and nothing follows it.
   */
  lemma {:induction false} DeliveredIsContiguous(ctx: Context, bodies: seq<Body>)
    ensures var (kit, delivered) := SubmitAll(ctx, Kit(0, None), bodies);
            && kit.next == |bodies|
            && |delivered| == Cut(bodies)
            && (forall i :: 0 <= i < |delivered| ==> delivered[i] == Stamp(ctx, i, bodies[i]))
            && (forall i :: 0 <= i < |delivered| ==>
                  && delivered[i].sequence == i && delivered[i].body == bodies[i] && delivered[i].eventId == ctx.eventIds(i)
                  && delivered[i].runId == ctx.runId && delivered[i].taskId == ctx.taskId && delivered[i].agentId == ctx.agentId)
            && WellFormedLog(ctx, delivered)
            && kit.terminal == if |delivered| > 0 && IsTerminal(delivered[|delivered| - 1].body)
                               then Some(delivered[|delivered| - 1]) else None
  {
    SubmitFrom(ctx, 0, bodies);
    hide SubmitAll, Cut;
    var delivered := SubmitAll(ctx, Kit(0, None), bodies).1;
    forall i | 0 <= i < |delivered|
      ensures delivered[i] == Stamp(ctx, i, bodies[i]) && (IsTerminal(delivered[i].body) ==> i == |delivered| - 1)
    {
      assert delivered[i] == Stamp(ctx, 0 + i, bodies[i]);
    }
  }

  lemma {:induction false} SubmitFrom(ctx: Context, next: nat, bodies: seq<Body>)
    ensures var (kit, delivered) := SubmitAll(ctx, Kit(next, None), bodies);
            && kit.next == next + |bodies|
            && |delivered| == Cut(bodies)
            && (forall i :: 0 <= i < |delivered| ==> delivered[i] == Stamp(ctx, next + i, bodies[i]))
            && kit.terminal == if |delivered| > 0 && IsTerminal(delivered[|delivered| - 1].body)
                               then Some(delivered[|delivered| - 1]) else None
    decreases |bodies|
  {
    if bodies != [] {
      if IsTerminal(bodies[0]) {
        var kit := Submit(ctx, Kit(next, None), bodies[0]).0;
        assert kit == Kit(next + 1, Some(Stamp(ctx, next, bodies[0])));
        SubmitAfterTerminal(ctx, kit, bodies[1..]);
      } else {
        SubmitFrom(ctx, next + 1, bodies[1..]);
      }
    }
  }

  lemma {:induction false} SubmitAfterTerminal(ctx: Context, kit: Kit, bodies: seq<Body>)
    requires kit.terminal.Some?
    ensures SubmitAll(ctx, kit, bodies) == (Kit(kit.next + |bodies|, kit.terminal), [])
    decreases |bodies|
  {
    if bodies != [] {
      var after := Submit(ctx, kit, bodies[0]).0;
      SubmitAfterTerminal(ctx, after, bodies[1..]);
      assert [] + SubmitAll(ctx, after, bodies[1..]).1 == [];
    }
  }
}
