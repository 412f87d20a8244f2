/**
  The Claude Code adapter's translation of native messages into events: tool results are
  matched to tool uses, and a successful file edit also reports the changed file.
 */
module ClaudeMapping {
  import opened Wrappers
  import opened Events

  const MAX_PERMISSION_DENIAL_EVENTS := 10
  const EXECUTION_FAILED := "CLAUDE_EXECUTION_FAILED"
  const TURN_LIMIT_REACHED := "CLAUDE_TURN_LIMIT_REACHED"

  datatype Message =
    | SystemInit
    | Ignored
    | TextMessage(text: string)
    | ToolUse(toolUseId: string, toolName: string, rawFilePath: Option<string>)
    | ToolResult(toolUseId: string, success: bool)
    | ResultSuccess(summary: Option<string>, deniedToolNames: seq<string>)
    | ResultError(subtype: string, failureMessage: string, deniedToolNames: seq<string>)

  type PathCheck = string -> Option<string>

  datatype MapperState = MapperState(toolNames: map<string, string>, pendingFileEdits: map<string, string>, completed: set<string>)

  const Fresh := MapperState(map[], map[], {})

  function DenialText(toolName: string): string {
    "Claude Code was blocked from using a tool (\"" + toolName + "\") that is not in this task's permitted tool set."
  }

  function Denials(names: seq<string>): seq<Body> {
    var n := if |names| < MAX_PERMISSION_DENIAL_EVENTS then |names| else MAX_PERMISSION_DENIAL_EVENTS;
    seq(n, i requires 0 <= i < n => ApprovalRequired(DenialText(names[i]), "medium"))
  }

  /** One message: the new correlation state and the events to submit, in order. */
  function Mapped(safe: PathCheck, st: MapperState, m: Message): (MapperState, seq<Body>) {
    match m
    case SystemInit => (st, [])
    case Ignored => (st, [])
    case TextMessage(text) => (st, [MessageDelta(text)])
    case ToolUse(id, name, rawFilePath) =>
      (st.(toolNames := st.toolNames[id := name],
           pendingFileEdits := if rawFilePath.Some? then st.pendingFileEdits[id := rawFilePath.value] else st.pendingFileEdits),
       [ToolStarted(id, name)])
    case ToolResult(id, success) =>
      if id in st.completed || id !in st.toolNames then (st, [])
      else
        (st.(completed := st.completed + {id}, pendingFileEdits := st.pendingFileEdits - {id}),
         if success && id in st.pendingFileEdits && safe(st.pendingFileEdits[id]).Some? then
           [ToolCompleted(id, st.toolNames[id], success), FileChanged(safe(st.pendingFileEdits[id]).value, "modified")]
         else [ToolCompleted(id, st.toolNames[id], success)])
    case ResultSuccess(summary, denied) => (st, Denials(denied) + [RunCompleted(summary)])
    case ResultError(subtype, message, denied) =>
      (st, Denials(denied) +
           [RunFailed(if subtype == "error_max_turns" then TURN_LIMIT_REACHED else EXECUTION_FAILED, message)])
  }

  class EventMapper {
    const factory: EventFactory
    const guard: TerminalEventGuard
    const safePath: PathCheck
    var toolNames: map<string, string>
    var pendingFileEdits: map<string, string>
    var completedToolUseIds: set<string>

    function State(): MapperState
      reads this
    {
      MapperState(toolNames, pendingFileEdits, completedToolUseIds)
    }

    function KitState(): Kit
      reads factory, guard
    {
      Kit(factory.sequence, guard.terminalEvent)
    }

    constructor (factory: EventFactory, guard: TerminalEventGuard, safePath: PathCheck)
      ensures State() == Fresh && this.factory == factory && this.guard == guard && this.safePath == safePath
    {
      this.factory, this.guard, this.safePath := factory, guard, safePath;
      toolNames, pendingFileEdits, completedToolUseIds := map[], map[], {};
    }

    /** Submits events in order; the guard's first refusal is passed on. */
    method EmitAll(bodies: seq<Body>) returns (r: Result<seq<Event>, GuardError>)
      modifies factory, guard
      ensures old(guard.terminalEvent).None? && (forall i :: 0 <= i < |bodies| - 1 ==> !IsTerminal(bodies[i])) ==>
                var (kit, events) := SubmitAll(factory.ctx, old(KitState()), bodies);
                KitState() == kit && r == Ok(events) && |events| == |bodies|
      ensures old(guard.terminalEvent).Some? && |bodies| > 0 ==> r.Err?
    {
      var events: seq<Event> := [];
      SubmitAllNothing(factory.ctx, KitState());
      for i := 0 to |bodies|
        invariant old(guard.terminalEvent).None? && (forall k :: 0 <= k < |bodies| - 1 ==> !IsTerminal(bodies[k])) ==>
                    && SubmitAll(factory.ctx, old(KitState()), bodies[..i]) == (KitState(), events) && |events| == i
                    && (i < |bodies| ==> guard.terminalEvent.None?)
        invariant old(guard.terminalEvent).Some? ==> i == 0 && unchanged(guard)
      {
        SubmitAllSnoc(factory.ctx, old(KitState()), bodies[..i], bodies[i]);
        assert bodies[..i + 1] == bodies[..i] + [bodies[i]];
        var event := Emit(factory, guard, bodies[i]);
        if event.Err? { return Err(event.error); }
        events := events + [event.value];
      }
      assert bodies[..|bodies|] == bodies;
      return Ok(events);
    }

    method MapToolUse(id: string, name: string, rawFilePath: Option<string>) returns (bodies: seq<Body>)
      modifies this
      ensures State() == Mapped(safePath, old(State()), ToolUse(id, name, rawFilePath)).0 && bodies == Mapped(safePath, old(State()), ToolUse(id, name, rawFilePath)).1
    {
      toolNames := toolNames[id := name];
      if rawFilePath.Some? { pendingFileEdits := pendingFileEdits[id := rawFilePath.value]; }
      bodies := [ToolStarted(id, name)];
    }

    method MapToolResult(id: string, success: bool) returns (bodies: seq<Body>)
      modifies this
      ensures State() == Mapped(safePath, old(State()), ToolResult(id, success)).0 && bodies == Mapped(safePath, old(State()), ToolResult(id, success)).1
    {
      if id in completedToolUseIds { return []; }
      if id !in toolNames { return []; }
      completedToolUseIds := completedToolUseIds + {id};
      bodies := [ToolCompleted(id, toolNames[id], success)];
      var rawFilePath := if id in pendingFileEdits then Some(pendingFileEdits[id]) else None;
      pendingFileEdits := pendingFileEdits - {id};
      if success && rawFilePath.Some? {
        var path := safePath(rawFilePath.value);
        if path.Some? { bodies := bodies + [FileChanged(path.value, "modified")]; }
      }
    }

    /** The events of one message, before they are numbered and guarded. */
    method Translate(m: Message) returns (bodies: seq<Body>)
      modifies this
      ensures State() == Mapped(safePath, old(State()), m).0 && bodies == Mapped(safePath, old(State()), m).1
    {
      match m {
        case SystemInit => bodies := [];
        case Ignored => bodies := [];
        case TextMessage(text) => bodies := [MessageDelta(text)];
        case ToolUse(id, name, rawFilePath) => bodies := MapToolUse(id, name, rawFilePath);
        case ToolResult(id, success) => bodies := MapToolResult(id, success);
        case ResultSuccess(summary, denied) => bodies := Denials(denied) + [RunCompleted(summary)];
        case ResultError(subtype, message, denied) =>
          var code := if subtype == "error_max_turns" then TURN_LIMIT_REACHED else EXECUTION_FAILED;
          bodies := Denials(denied) + [RunFailed(code, message)];
      }
    }

    /** Before the run has ended, the message's events come back numbered in order. */
    method MapMessage(m: Message) returns (r: Result<seq<Event>, GuardError>)
      modifies this, factory, guard
      ensures State() == Mapped(safePath, old(State()), m).0
      ensures old(guard.terminalEvent).None? ==>
                var (kit, events) := SubmitAll(factory.ctx, old(KitState()), Mapped(safePath, old(State()), m).1);
                KitState() == kit && r == Ok(events) && |events| == |Mapped(safePath, old(State()), m).1|
      ensures old(guard.terminalEvent).Some? && Mapped(safePath, old(State()), m).1 != [] ==> r.Err?
    {
      OnlyLastIsTerminal(safePath, State(), m);
      hide Mapped;
      var bodies := Translate(m);
      r := EmitAll(bodies);
    }
  }

  /** A message ends the run, if at all, with its last event. */
  lemma OnlyLastIsTerminal(safe: PathCheck, st: MapperState, m: Message)
    ensures var bodies := Mapped(safe, st, m).1;
            forall i :: 0 <= i < |bodies| - 1 ==> !IsTerminal(bodies[i])
  {
  }

  lemma SubmitAllNothing(ctx: Context, kit: Kit)
    ensures SubmitAll(ctx, kit, []) == (kit, [])
  {
  }

  lemma {:induction false} SubmitAllSnoc(ctx: Context, kit: Kit, bodies: seq<Body>, last: Body)
    ensures var (kit1, events) := SubmitAll(ctx, kit, bodies);
            var (kit2, event) := Submit(ctx, kit1, last);
            SubmitAll(ctx, kit, bodies + [last]) == (kit2, events + if event.Some? then [event.value] else [])
    decreases |bodies|
  {
    hide Submit;
    var all := bodies + [last];
    if bodies == [] {
      var (kit2, event) := Submit(ctx, kit, last);
      assert all[0] == last && all[1..] == [];
      SubmitAllNothing(ctx, kit2);
      assert forall s: seq<Event> :: s + [] == s && [] + s == s;
    } else {
      var (kit1, first) := Submit(ctx, kit, bodies[0]);
      assert all[0] == bodies[0] && all[1..] == bodies[1..] + [last];
      SubmitAllSnoc(ctx, kit1, bodies[1..], last);
      var front := if first.Some? then [first.value] else [];
      var (kit2, rest) := SubmitAll(ctx, kit1, bodies[1..]);
      var end := if Submit(ctx, kit2, last).1.Some? then [Submit(ctx, kit2, last).1.value] else [];
      assert front + (rest + end) == (front + rest) + end;
    }
  }

  // -------------------------------------------------------- any sequence of messages

  function StateAfter(safe: PathCheck, ms: seq<Message>): MapperState {
    if ms == [] then Fresh else Mapped(safe, StateAfter(safe, ms[..|ms| - 1]), ms[|ms| - 1]).0
  }

  /** What the `i`-th message of the sequence produces. */
  function Output(safe: PathCheck, ms: seq<Message>, i: nat): seq<Body>
    requires i < |ms|
  {
    Mapped(safe, StateAfter(safe, ms[..i]), ms[i]).1
  }

  predicate IsUse(m: Message, id: string) { m.ToolUse? && m.toolUseId == id }

  predicate IsResult(m: Message, id: string) { m.ToolResult? && m.toolUseId == id }

  ghost predicate UsedIn(ms: seq<Message>, id: string) {
    exists j :: 0 <= j < |ms| && IsUse(ms[j], id)
  }

  /** A result for the tool use has already arrived after its use. */
  ghost predicate ResolvedIn(ms: seq<Message>, id: string) {
    exists k :: 0 <= k < |ms| && IsResult(ms[k], id) && UsedIn(ms[..k], id)
  }

  /** The name given by the latest use of this id. */
  function LatestName(ms: seq<Message>, id: string): Option<string> {
    if ms == [] then None
    else if IsUse(ms[|ms| - 1], id) then Some(ms[|ms| - 1].toolName)
    else LatestName(ms[..|ms| - 1], id)
  }

  /** The file path given by the latest use of this id that names a file. */
  function LatestFile(ms: seq<Message>, id: string): Option<string> {
    if ms == [] then None
    else if IsUse(ms[|ms| - 1], id) && ms[|ms| - 1].rawFilePath.Some? then ms[|ms| - 1].rawFilePath
    else LatestFile(ms[..|ms| - 1], id)
  }

  /** The mapper's set of completed ids and the keys of its name map are exactly what the history says. */
  lemma {:induction false} IdsAreHistory(safe: PathCheck, ms: seq<Message>, id: string)
    ensures id in StateAfter(safe, ms).completed <==> ResolvedIn(ms, id)
    ensures id in StateAfter(safe, ms).toolNames <==> UsedIn(ms, id)
    decreases |ms|
  {
    if ms != [] {
      hide ResolvedIn, UsedIn;
      var n := |ms| - 1;
      IdsAreHistory(safe, ms[..n], id);
      Snoc(ms[..n], ms[n], id);
      assert ms == ms[..n] + [ms[n]];
    }
  }

  /** So are the names and, until the first result, the pending files. */
  lemma {:induction false} StateIsHistory(safe: PathCheck, ms: seq<Message>, id: string)
    ensures id in StateAfter(safe, ms).completed <==> ResolvedIn(ms, id)
    ensures id in StateAfter(safe, ms).toolNames <==> UsedIn(ms, id)
    ensures var st := StateAfter(safe, ms);
            && LatestName(ms, id) == (if id in st.toolNames then Some(st.toolNames[id]) else None)
            && (id !in st.completed ==>
                  LatestFile(ms, id) == if id in st.pendingFileEdits then Some(st.pendingFileEdits[id]) else None)
    decreases |ms|
  {
    IdsAreHistory(safe, ms, id);
    if ms != [] {
      hide ResolvedIn, UsedIn;
      StateIsHistory(safe, ms[..|ms| - 1], id);
    }
  }

  lemma Snoc(ms: seq<Message>, m: Message, id: string)
    ensures UsedIn(ms + [m], id) <==> UsedIn(ms, id) || IsUse(m, id)
    ensures ResolvedIn(ms + [m], id) <==> ResolvedIn(ms, id) || (IsResult(m, id) && UsedIn(ms, id))
  {
    var all := ms + [m];
    assert all[|ms|] == m && all[..|ms|] == ms;
    if j :| 0 <= j < |ms| && IsUse(ms[j], id) { assert IsUse(all[j], id); }
    if k :| 0 <= k < |ms| && IsResult(ms[k], id) && UsedIn(ms[..k], id) {
      assert IsResult(all[k], id) && all[..k] == ms[..k];
    }
    if k :| 0 <= k < |all| && IsResult(all[k], id) && UsedIn(all[..k], id) && k < |ms| {
      assert IsResult(ms[k], id) && all[..k] == ms[..k];
    }
  }

  /**
    What a tool result produces, from the message history alone: nothing unless it is the first
    result after a use of its id; then the completion under the latest name, and the file change
    only for a success whose use named a safe file.
   */
  lemma ResultIsHistory(safe: PathCheck, ms: seq<Message>, i: nat)
    requires i < |ms| && ms[i].ToolResult?
    ensures var id, before := ms[i].toolUseId, ms[..i];
            Output(safe, ms, i) ==
            if !UsedIn(before, id) || ResolvedIn(before, id) || LatestName(before, id).None? then []
            else if ms[i].success && LatestFile(before, id).Some? && safe(LatestFile(before, id).value).Some? then
              [ToolCompleted(id, LatestName(before, id).value, true),
               FileChanged(safe(LatestFile(before, id).value).value, "modified")]
            else [ToolCompleted(id, LatestName(before, id).value, ms[i].success)]
    ensures UsedIn(ms[..i], ms[i].toolUseId) ==> LatestName(ms[..i], ms[i].toolUseId).Some?
  {
    StateIsHistory(safe, ms[..i], ms[i].toolUseId);
  }

  /** A denied tool, as it is reported. */
  predicate IsDenial(body: Body, toolName: string) {
    body == ApprovalRequired(
      "Claude Code was blocked from using a tool (\"" + toolName + "\") that is not in this task's permitted tool set.", "medium")
  }

  /** What every other message produces; a result first reports the first ten denied tools, in order. */
  lemma OtherOutputs(safe: PathCheck, ms: seq<Message>, i: nat)
    requires i < |ms|
    ensures var m, out := ms[i], Output(safe, ms, i);
      && (m.SystemInit? || m.Ignored? ==> out == [])
      && (m.TextMessage? ==> out == [MessageDelta(m.text)])
      && (m.ToolUse? ==> out == [ToolStarted(m.toolUseId, m.toolName)])
      && (m.ResultSuccess? || m.ResultError? ==>
            && |out| == (if |m.deniedToolNames| < 10 then |m.deniedToolNames| else 10) + 1
            && (forall k :: 0 <= k < |out| - 1 ==> IsDenial(out[k], m.deniedToolNames[k]))
            && out[|out| - 1] == if m.ResultSuccess? then RunCompleted(m.summary)
                                 else RunFailed(if m.subtype == "error_max_turns" then "CLAUDE_TURN_LIMIT_REACHED" else "CLAUDE_EXECUTION_FAILED",
                                                m.failureMessage))
  {
  }

  /**
    The tool protocol over any message sequence: at most one message per id yields a completion,
    and only after a start for the id was emitted.
   */
  lemma ToolProtocol(safe: PathCheck, ms: seq<Message>, i: nat, j: nat, id: string)
    requires i < j < |ms|
    ensures !(Completes(Output(safe, ms, i), id) && Completes(Output(safe, ms, j), id))
    ensures Completes(Output(safe, ms, j), id) ==>
              exists k :: 0 <= k < j && ms[k].ToolUse? && Output(safe, ms, k) == [ToolStarted(id, ms[k].toolName)]
  {
    if Completes(Output(safe, ms, j), id) {
      CompletionIsFirstResult(safe, ms, j, id);
      var k :| 0 <= k < |ms[..j]| && IsUse(ms[..j][k], id);
      assert Output(safe, ms, k) == [ToolStarted(id, ms[k].toolName)];
      CompletionIsFirstResult(safe, ms, i, id);
      assert ms[..j][..i] == ms[..i] && ms[..j][i] == ms[i];
    }
  }

  lemma CompletionIsFirstResult(safe: PathCheck, ms: seq<Message>, i: nat, id: string)
    requires i < |ms|
    ensures Completes(Output(safe, ms, i), id) ==>
              IsResult(ms[i], id) && UsedIn(ms[..i], id) && !ResolvedIn(ms[..i], id)
  {
    if ms[i].ToolResult? { ResultIsHistory(safe, ms, i); }
  }

  /** A file change comes only with the completion of a successful tool use, so at most once per id. */
  lemma FileChangeNeedsSuccess(safe: PathCheck, ms: seq<Message>, i: nat)
    requires i < |ms| && ChangesFile(Output(safe, ms, i))
    ensures ms[i].ToolResult? && ms[i].success && Completes(Output(safe, ms, i), ms[i].toolUseId)
    ensures |Output(safe, ms, i)| == 2 && LatestFile(ms[..i], ms[i].toolUseId).Some?
  {
    if ms[i].ToolResult? {
      ResultIsHistory(safe, ms, i);
      assert Output(safe, ms, i)[0].ToolCompleted?;
    }
  }

  ghost predicate Completes(out: seq<Body>, id: string) {
    exists i :: 0 <= i < |out| && out[i].ToolCompleted? && out[i].toolCallId == id
  }

  ghost predicate ChangesFile(out: seq<Body>) {
    exists i :: 0 <= i < |out| && out[i].FileChanged?
  }
}
