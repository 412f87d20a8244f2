/**
  The Codex adapter's translation of native messages into events: item-id correlation for
  tools, and suppression of repeated file changes.
 */
module CodexMapping {
  import opened Wrappers
  import opened Events

  const TOOL_NAME := "Codex command"
  const EXECUTION_FAILED := "CODEX_EXECUTION_FAILED"

  datatype ChangeKind = Created | Modified | Deleted

  datatype Message =
    | Ignored
    | TextMessage(text: string)
    | ToolStart(itemId: string)
    | ToolEnd(itemId: string, success: bool)
    | FileChange(itemId: string, rawPath: string, kind: ChangeKind)
    | ResultSuccess(summary: Option<string>)
    | ResultError(failureMessage: string)

  /** Path safety depends on the file system: any deterministic function from raw to safe path. */
  type PathCheck = string -> Option<string>

  datatype MapperState = MapperState(started: set<string>, completed: set<string>, changes: set<string>)

  const Fresh := MapperState({}, {}, {})

  function KindName(kind: ChangeKind): string {
    match kind case Created => "created" case Modified => "modified" case Deleted => "deleted"
  }

  function Key(itemId: string, path: string, kind: ChangeKind): string {
    itemId + ":" + path + ":" + KindName(kind)
  }

  /** One message: the new correlation state and the event to submit, if any. */
  function Mapped(safe: PathCheck, st: MapperState, m: Message): (MapperState, Option<Body>) {
    match m
    case Ignored => (st, None)
    case TextMessage(text) => (st, Some(MessageDelta(text)))
    case ToolStart(id) =>
      if id in st.started then (st, None)
      else (st.(started := st.started + {id}), Some(ToolStarted(id, TOOL_NAME)))
    case ToolEnd(id, success) =>
      if id in st.completed || id !in st.started then (st, None)
      else (st.(completed := st.completed + {id}), Some(ToolCompleted(id, TOOL_NAME, success)))
    case FileChange(id, rawPath, kind) =>
      (match safe(rawPath)
       case None => (st, None)
       case Some(path) =>
         if Key(id, path, kind) in st.changes then (st, None)
         else (st.(changes := st.changes + {Key(id, path, kind)}), Some(FileChanged(path, KindName(kind)))))
    case ResultSuccess(summary) => (st, Some(RunCompleted(summary)))
    case ResultError(message) => (st, Some(RunFailed(EXECUTION_FAILED, message)))
  }

  class EventMapper {
    const factory: EventFactory
    const guard: TerminalEventGuard
    const safePath: PathCheck
    var startedToolItemIds: set<string>
    var completedToolItemIds: set<string>
    var emittedFileChanges: set<string>

    function State(): MapperState
      reads this
    {
      MapperState(startedToolItemIds, completedToolItemIds, emittedFileChanges)
    }

    constructor (factory: EventFactory, guard: TerminalEventGuard, safePath: PathCheck)
      ensures State() == Fresh && this.factory == factory && this.guard == guard && this.safePath == safePath
    {
      this.factory, this.guard, this.safePath := factory, guard, safePath;
      startedToolItemIds, completedToolItemIds, emittedFileChanges := {}, {}, {};
    }

    /** The event goes through factory and guard; the guard's refusal is passed on. */
    method MapMessage(m: Message) returns (r: Result<seq<Event>, GuardError>)
      modifies this, factory, guard
      ensures var (st, body) := Mapped(safePath, old(State()), m);
              && State() == st
              && (body.None? ==> r == Ok([]) && unchanged(factory) && unchanged(guard))
              && (body.Some? ==>
                    var (kit, event) := Submit(factory.ctx, old(Kit(factory.sequence, guard.terminalEvent)), body.value);
                    && Kit(factory.sequence, guard.terminalEvent) == kit
                    && (event.Some? ==> r == Ok([event.value])) && (event.None? ==> r.Err?))
    {
      var body: Body;
      match m {
        case Ignored =>
          return Ok([]);
        case TextMessage(text) =>
          body := MessageDelta(text);
        case ToolStart(id) =>
          if id in startedToolItemIds { return Ok([]); }
          startedToolItemIds := startedToolItemIds + {id};
          body := ToolStarted(id, TOOL_NAME);
        case ToolEnd(id, success) =>
          if id in completedToolItemIds { return Ok([]); }
          if id !in startedToolItemIds { return Ok([]); }
          completedToolItemIds := completedToolItemIds + {id};
          body := ToolCompleted(id, TOOL_NAME, success);
        case FileChange(id, rawPath, kind) =>
          var path := safePath(rawPath);
          if path.None? { return Ok([]); }
          var dedupeKey := Key(id, path.value, kind);
          if dedupeKey in emittedFileChanges { return Ok([]); }
          emittedFileChanges := emittedFileChanges + {dedupeKey};
          body := FileChanged(path.value, KindName(kind));
        case ResultSuccess(summary) =>
          body := RunCompleted(summary);
        case ResultError(message) =>
          body := RunFailed(EXECUTION_FAILED, message);
      }
      var event := Emit(factory, guard, body);
      if event.Ok? { r := Ok([event.value]); } else { r := Err(event.error); }
    }
  }

  // -------------------------------------------------------- any sequence of messages

  function StateAfter(safe: PathCheck, ms: seq<Message>): MapperState {
    if ms == [] then Fresh else Mapped(safe, StateAfter(safe, ms[..|ms| - 1]), ms[|ms| - 1]).0
  }

  /** What the `i`-th message of the sequence produces. */
  function Output(safe: PathCheck, ms: seq<Message>, i: nat): Option<Body>
    requires i < |ms|
  {
    Mapped(safe, StateAfter(safe, ms[..i]), ms[i]).1
  }

  ghost predicate StartedIn(ms: seq<Message>, id: string) {
    exists j :: 0 <= j < |ms| && ms[j] == ToolStart(id)
  }

  predicate IsEnd(m: Message, id: string) {
    m.ToolEnd? && m.itemId == id
  }

  ghost predicate CompletedIn(ms: seq<Message>, id: string) {
    exists k :: 0 <= k < |ms| && IsEnd(ms[k], id) && StartedIn(ms[..k], id)
  }

  /** A safe file change with this suppression key. */
  predicate HasKey(safe: PathCheck, m: Message, key: string) {
    m.FileChange? && safe(m.rawPath).Some? && Key(m.itemId, safe(m.rawPath).value, m.kind) == key
  }

  ghost predicate KeyIn(safe: PathCheck, ms: seq<Message>, key: string) {
    exists j :: 0 <= j < |ms| && HasKey(safe, ms[j], key)
  }

  /** The mapper's three sets are exactly what the history says. */
  lemma {:induction false} StateIsHistory(safe: PathCheck, ms: seq<Message>, id: string, key: string)
    ensures id in StateAfter(safe, ms).started <==> StartedIn(ms, id)
    ensures id in StateAfter(safe, ms).completed <==> CompletedIn(ms, id)
    ensures key in StateAfter(safe, ms).changes <==> KeyIn(safe, ms, key)
    decreases |ms|
  {
    if ms != [] {
      var n := |ms| - 1;
      var before := ms[..n];
      StateIsHistory(safe, before, id, key);
      Snoc(safe, before, ms[n], id, key);
      assert ms == before + [ms[n]];
    }
  }

  lemma Snoc(safe: PathCheck, ms: seq<Message>, m: Message, id: string, key: string)
    ensures StartedIn(ms + [m], id) <==> StartedIn(ms, id) || m == ToolStart(id)
    ensures CompletedIn(ms + [m], id) <==> CompletedIn(ms, id) || (IsEnd(m, id) && StartedIn(ms, id))
    ensures KeyIn(safe, ms + [m], key) <==> KeyIn(safe, ms, key) || HasKey(safe, m, key)
  {
    var all := ms + [m];
    assert all[|ms|] == m && all[..|ms|] == ms;
    if j :| 0 <= j < |ms| && ms[j] == ToolStart(id) { assert all[j] == ToolStart(id); }
    if j :| 0 <= j < |ms| && HasKey(safe, ms[j], key) { assert HasKey(safe, all[j], key); }
    if k :| 0 <= k < |ms| && IsEnd(ms[k], id) && StartedIn(ms[..k], id) {
      assert IsEnd(all[k], id) && all[..k] == ms[..k];
    }
    if k :| 0 <= k < |all| && IsEnd(all[k], id) && StartedIn(all[..k], id) && k < |ms| {
      assert IsEnd(ms[k], id) && all[..k] == ms[..k];
    }
  }

  /** What each message produces, from the message history alone. */
  lemma OutputIsHistory(safe: PathCheck, ms: seq<Message>, i: nat)
    requires i < |ms|
    ensures var m, before, out := ms[i], ms[..i], Output(safe, ms, i);
      && (m.ToolStart? ==>
            out == if StartedIn(before, m.itemId) then None else Some(ToolStarted(m.itemId, TOOL_NAME)))
      && (m.ToolEnd? ==>
            out == if StartedIn(before, m.itemId) && !CompletedIn(before, m.itemId)
                   then Some(ToolCompleted(m.itemId, TOOL_NAME, m.success)) else None)
      && (m.FileChange? ==>
            out == if safe(m.rawPath).Some? && !KeyIn(safe, before, Key(m.itemId, safe(m.rawPath).value, m.kind))
                   then Some(FileChanged(safe(m.rawPath).value, KindName(m.kind))) else None)
      && (m.TextMessage? ==> out == Some(MessageDelta(m.text)))
      && (m.ResultSuccess? ==> out == Some(RunCompleted(m.summary)))
      && (m.ResultError? ==> out == Some(RunFailed("CODEX_EXECUTION_FAILED", m.failureMessage)))
      && (m.Ignored? ==> out == None)
  {
    var m := ms[i];
    if m.ToolStart? || m.ToolEnd? {
      StateIsHistory(safe, ms[..i], m.itemId, "");
    } else if m.FileChange? && safe(m.rawPath).Some? {
      StateIsHistory(safe, ms[..i], m.itemId, Key(m.itemId, safe(m.rawPath).value, m.kind));
    }
  }

  /**
    The tool protocol over any message sequence: per item at most one start and one completion,
    and a completion only after the start was emitted.
   */
  lemma ToolProtocol(safe: PathCheck, ms: seq<Message>, i: nat, j: nat, id: string)
    requires i < j < |ms|
    ensures !(Output(safe, ms, i) == Some(ToolStarted(id, TOOL_NAME)) && Output(safe, ms, j) == Some(ToolStarted(id, TOOL_NAME)))
    ensures !(IsCompletion(Output(safe, ms, i), id) && IsCompletion(Output(safe, ms, j), id))
    ensures IsCompletion(Output(safe, ms, j), id) ==>
              exists k :: 0 <= k < j && Output(safe, ms, k) == Some(ToolStarted(id, TOOL_NAME))
  {
    OutputIsHistory(safe, ms, i);
    OutputIsHistory(safe, ms, j);
    assert ms[..j][i] == ms[i] && ms[..j][..i] == ms[..i];
    if IsCompletion(Output(safe, ms, j), id) {
      assert ms[j].ToolEnd? && ms[j].itemId == id;
      var k := FirstStart(ms[..j], id);
      assert ms[..j][..k] == ms[..k];
      OutputIsHistory(safe, ms, k);
    }
  }

  predicate IsCompletion(out: Option<Body>, id: string) {
    out.Some? && out.value.ToolCompleted? && out.value.toolCallId == id
  }

  lemma {:induction false} FirstStart(ms: seq<Message>, id: string) returns (k: nat)
    requires StartedIn(ms, id)
    ensures k < |ms| && ms[k] == ToolStart(id) && !StartedIn(ms[..k], id)
    decreases |ms|
  {
    k :| 0 <= k < |ms| && ms[k] == ToolStart(id);
    if StartedIn(ms[..k], id) {
      var earlier := FirstStart(ms[..k], id);
      assert ms[..k][..earlier] == ms[..earlier];
      k := earlier;
    }
  }

  // ------------------------------------------------------------- repeated file changes

  /** The same change of the same item is reported once. */
  lemma NoRepeatedChange(safe: PathCheck, ms: seq<Message>, i: nat, j: nat)
    requires i < j < |ms| && ms[i].FileChange? && ms[j].FileChange?
    requires ms[i].itemId == ms[j].itemId && ms[i].kind == ms[j].kind && safe(ms[i].rawPath) == safe(ms[j].rawPath)
    ensures Output(safe, ms, j).None?
  {
    OutputIsHistory(safe, ms, j);
    if safe(ms[j].rawPath).Some? {
      assert HasKey(safe, ms[..j][i], Key(ms[j].itemId, safe(ms[j].rawPath).value, ms[j].kind));
    }
  }

  /** `id2` continues `id1` with a colon, and `path1` takes the rest over. */
  ghost predicate ColonShift(id1: string, path1: string, id2: string, path2: string) {
    exists x: string :: id2 == id1 + ":" + x && path1 == x + ":" + path2
  }

  /**
    The suppression key is a plain concatenation, so it is not injective. Two keys are equal
    exactly for the same change, or when one item id continues the other across a colon that the
    other change has in its path.
   */
  lemma KeysCollide(id1: string, path1: string, kind1: ChangeKind, id2: string, path2: string, kind2: ChangeKind)
    ensures Key(id1, path1, kind1) == Key(id2, path2, kind2) <==>
            kind1 == kind2 && ((id1 == id2 && path1 == path2) || ColonShift(id1, path1, id2, path2)
                               || ColonShift(id2, path2, id1, path1))
  {
    var a1, a2 := id1 + ":" + path1, id2 + ":" + path2;
    SameSuffix(a1, kind1, a2, kind2);
    if a1 == a2 {
      if |id1| == |id2| {
        assert a1[..|id1|] == id1 && a2[..|id2|] == id2;
        assert a1[|id1| + 1..] == path1 && a2[|id2| + 1..] == path2;
      } else if |id1| < |id2| {
        ShiftFromEqual(id1, path1, id2, path2);
      } else {
        ShiftFromEqual(id2, path2, id1, path1);
      }
    }
    if ColonShift(id1, path1, id2, path2) { EqualFromShift(id1, path1, id2, path2); }
    if ColonShift(id2, path2, id1, path1) { EqualFromShift(id2, path2, id1, path1); }
  }

  lemma SameSuffix(a1: string, kind1: ChangeKind, a2: string, kind2: ChangeKind)
    ensures a1 + ":" + KindName(kind1) == a2 + ":" + KindName(kind2) <==> a1 == a2 && kind1 == kind2
  {
    var s1, s2 := a1 + ":" + KindName(kind1), a2 + ":" + KindName(kind2);
    if s1 == s2 {
      assert s1[|s1| - 8] == s2[|s1| - 8];
      assert |a1| == |a2|;
      assert s1[..|a1|] == a1 && s2[..|a2|] == a2;
      assert s1[|a1| + 1] == KindName(kind1)[0] && s2[|a2| + 1] == KindName(kind2)[0];
    }
  }

  lemma ShiftFromEqual(id1: string, path1: string, id2: string, path2: string)
    requires id1 + ":" + path1 == id2 + ":" + path2 && |id1| < |id2|
    ensures ColonShift(id1, path1, id2, path2)
  {
    var whole := id1 + ":" + path1;
    var x := id2[|id1| + 1..];
    assert whole[..|id2|] == id2 && whole[..|id1|] == id1 && whole[|id1|] == ':';
    assert id2 == id2[..|id1|] + [id2[|id1|]] + x;
    assert id2[..|id1|] == whole[..|id1|];
    assert whole == id1 + ":" + x + ":" + path2;
    assert whole[|id1| + 1..] == path1;
    assert whole[|id1| + 1..] == x + ":" + path2;
  }

  lemma EqualFromShift(id1: string, path1: string, id2: string, path2: string)
    requires ColonShift(id1, path1, id2, path2)
    ensures id1 + ":" + path1 == id2 + ":" + path2
  {
    var x: string :| id2 == id1 + ":" + x && path1 == x + ":" + path2;
    assert id1 + ":" + (x + ":" + path2) == (id1 + ":" + x) + ":" + path2;
  }

  /** So a change that never happened before can be dropped: item `a:b` changing `c`, then item `a` changing `b:c`. */
  lemma DistinctChangeLost()
    ensures var safe := (path: string) => Some(path);
            var ms := [FileChange("a:b", "c", Created), FileChange("a", "b:c", Created)];
            Output(safe, ms, 0) == Some(FileChanged("c", "created")) && Output(safe, ms, 1) == None
  {
    var safe := (path: string) => Some(path);
    var ms := [FileChange("a:b", "c", Created), FileChange("a", "b:c", Created)];
    var key := Key("a", "b:c", Created);
    EqualFromShiftWitness("a", "b:c", "a:b", "c", "b");
    KeysCollide("a", "b:c", Created, "a:b", "c", Created);
    assert HasKey(safe, ms[..1][0], key);
    OutputIsHistory(safe, ms, 1);
    assert ms[..0] == [];
  }

  lemma EqualFromShiftWitness(id1: string, path1: string, id2: string, path2: string, x: string)
    requires id2 == id1 + ":" + x && path1 == x + ":" + path2
    ensures ColonShift(id1, path1, id2, path2)
  {
  }

  /**
    Exactly when a safe change is dropped: an earlier safe change is the same change, or its item
    id and path are this one's moved across a colon.
   */
  lemma ChangeDroppedIff(safe: PathCheck, ms: seq<Message>, j: nat)
    requires j < |ms| && ms[j].FileChange? && safe(ms[j].rawPath).Some?
    ensures Output(safe, ms, j).None? <==>
            exists i :: 0 <= i < j && SameOrShifted(safe, ms[i], ms[j])
  {
    var m := ms[j];
    var key := Key(m.itemId, safe(m.rawPath).value, m.kind);
    OutputIsHistory(safe, ms, j);
    forall i | 0 <= i < j
      ensures HasKey(safe, ms[..j][i], key) <==> SameOrShifted(safe, ms[i], m)
    {
      if ms[i].FileChange? && safe(ms[i].rawPath).Some? {
        KeysCollide(ms[i].itemId, safe(ms[i].rawPath).value, ms[i].kind, m.itemId, safe(m.rawPath).value, m.kind);
      }
    }
    if i :| 0 <= i < j && SameOrShifted(safe, ms[i], m) { assert HasKey(safe, ms[..j][i], key); }
  }

  ghost predicate SameOrShifted(safe: PathCheck, a: Message, b: Message) {
    && a.FileChange? && b.FileChange? && a.kind == b.kind && safe(a.rawPath).Some? && safe(b.rawPath).Some?
    && var p, q := safe(a.rawPath).value, safe(b.rawPath).value;
       (a.itemId == b.itemId && p == q) || ColonShift(a.itemId, p, b.itemId, q) || ColonShift(b.itemId, q, a.itemId, p)
  }
}
