/**
  What the event stream client keeps against any server and any network, and what it gives the
  reader of an honest one.
 */
module TaskEventsSafety {
  import opened Wrappers
  import opened Events
  import opened TaskEvents

  function AsSet(ref: Option<nat>): set<nat> {
    if ref.Some? then {ref.value} else {}
  }

  /** The references name exactly the live socket and the armed timer, of which there is at most one in all. */
  ghost predicate LinksInv(c: Client) {
    && c.attached.Keys == AsSet(c.socket) && c.armed.Keys == AsSet(c.timer)
    && (c.socket.None? || c.timer.None?)
    && (forall id | id in c.attached :: id < c.nextId && c.attached[id].generation == c.generation && c.taskId == Some(c.attached[id].taskId))
    && (forall id | id in c.armed :: id < c.nextId && c.armed[id].afterSequence == Resume(c))
    && (c.taskId.None? ==> c.socket.None? && c.timer.None?)
    && forall i :: 0 <= i < |c.openings| ==> c.openings[i].afterSequence == c.openings[i].accepted - 1
  }

  /** Accepted events are numbered 0..n-1 and share one task, run and agent. */
  ghost predicate EventsInv(c: Client) {
    && (forall i :: 0 <= i < |c.events| ==>
          c.events[i].sequence == i && c.events[i].taskId == c.identity.taskId
          && c.events[i].runId == c.events[0].runId && c.events[i].agentId == c.events[0].agentId)
    && c.identity.runId == (if |c.events| > 0 then Some(c.events[0].runId) else None)
    && c.identity.agentId == (if |c.events| > 0 then Some(c.events[0].agentId) else None)
    && c.identity.taskId == if c.taskId.Some? then c.taskId.value else ""
  }

  /** The position of the first terminal event. */
  ghost predicate FirstTerminal(events: seq<Event>, i: int) {
    0 <= i < |events| && IsTerminal(events[i].body) && forall k :: 0 <= k < i ==> !IsTerminal(events[k].body)
  }

  ghost predicate NoTerminal(events: seq<Event>) {
    forall k :: 0 <= k < |events| ==> !IsTerminal(events[k].body)
  }

  /** The terminal callback has been called for the first terminal event, once, and for nothing else. */
  ghost predicate NotifiedInv(c: Client) {
    && c.terminalReceived == c.terminalNotified
    && (if c.terminalNotified then exists i :: FirstTerminal(c.events, i) && c.notified == [c.events[i]]
        else NoTerminal(c.events) && c.notified == [])
  }

  ghost predicate BudgetInv(c: Client) {
    && c.attempt <= |RECONNECT_DELAYS|
    && c.scheduled <= |RECONNECT_DELAYS| * (c.acceptedEver + c.resets) + c.attempt
  }

  ghost predicate Inv(c: Client) {
    LinksInv(c) && EventsInv(c) && NotifiedInv(c) && BudgetInv(c)
  }

  // ------------------------------------------------------------------ shared steps

  /** Everything but connection bookkeeping. */
  ghost predicate SameEvents(c: Client, d: Client) {
    && d.events == c.events && d.identity == c.identity && d.taskId == c.taskId
    && d.terminalNotified == c.terminalNotified && d.terminalReceived == c.terminalReceived && d.notified == c.notified
    && d.acceptedEver == c.acceptedEver
  }

  lemma SameEventsKeep(c: Client, d: Client)
    requires EventsInv(c) && NotifiedInv(c) && SameEvents(c, d)
    ensures EventsInv(d) && NotifiedInv(d)
  {
  }

  lemma ClosingKeeps(c: Client)
    requires LinksInv(c)
    ensures LinksInv(CloseSocket(c)) && CloseSocket(c).socket.None? && CloseSocket(c).attached == map[]
    ensures LinksInv(ClearTimer(c)) && ClearTimer(c).timer.None? && ClearTimer(c).armed == map[]
    ensures SameEvents(c, CloseSocket(c)) && SameEvents(c, ClearTimer(c))
    ensures BudgetInv(c) ==> BudgetInv(CloseSocket(c)) && BudgetInv(ClearTimer(c))
  {
  }

  lemma ScheduleKeeps(c: Client)
    requires LinksInv(c) && BudgetInv(c) && c.socket.None? && c.taskId.Some?
    ensures LinksInv(Schedule(c, Resume(c))) && BudgetInv(Schedule(c, Resume(c))) && SameEvents(c, Schedule(c, Resume(c)))
    ensures var d := Schedule(c, Resume(c)); d.timer.Some? || d.connection.Disconnected?
  {
    ClosingKeeps(c);
    CloseKeepsBudget(c);
    hide ClearTimer;
    if c.attempt < |RECONNECT_DELAYS| { ArmKeeps(ClearTimer(c), RECONNECT_DELAYS[c.attempt]); }
  }

  lemma ArmKeeps(c: Client, delay: int)
    requires LinksInv(c) && c.socket.None? && c.timer.None? && c.taskId.Some?
    ensures LinksInv(c.(connection := Reconnecting, attempt := c.attempt + 1, scheduled := c.scheduled + 1, timer := Some(c.nextId),
                        nextId := c.nextId + 1, armed := c.armed[c.nextId := Reconnect(Resume(c), delay)]))
  {
  }

  lemma ConnectKeeps(c: Client)
    requires LinksInv(c) && c.timer.None?
    ensures LinksInv(Connect(c, Resume(c))) && SameEvents(c, Connect(c, Resume(c)))
    ensures var d := Connect(c, Resume(c)); d.attempt == c.attempt && d.scheduled == c.scheduled && d.resets == c.resets
    ensures c.taskId.Some? ==> Connect(c, Resume(c)).socket.Some?
  {
    ClosingKeeps(c);
  }

  lemma AcceptKeeps(c: Client, e: Event)
    requires Inv(c) && c.timer.None? && Classify(e, c.events, c.identity).Accepted?
    ensures Inv(Accept(c, e))
  {
    hide Accept, LinksInv, EventsInv, NotifiedInv, BudgetInv;
    AcceptAppends(c, e);
    AcceptNotifies(c, e);
    AcceptRestoresBudget(c, e);
  }

  lemma AcceptAppends(c: Client, e: Event)
    requires LinksInv(c) && EventsInv(c) && c.timer.None? && Classify(e, c.events, c.identity).Accepted?
    ensures LinksInv(Accept(c, e)) && EventsInv(Accept(c, e))
  {
  }

  lemma AcceptRestoresBudget(c: Client, e: Event)
    requires BudgetInv(c)
    ensures BudgetInv(Accept(c, e))
  {
    assert |RECONNECT_DELAYS| == 5;
  }

  lemma AcceptNotifies(c: Client, e: Event)
    requires NotifiedInv(c)
    ensures NotifiedInv(Accept(c, e))
  {
    var d := Accept(c, e);
    if c.terminalNotified {
      var i :| FirstTerminal(c.events, i) && c.notified == [c.events[i]];
      assert FirstTerminal(d.events, i) && d.notified == [d.events[i]];
    } else if IsTerminal(e.body) {
      assert FirstTerminal(d.events, |c.events|) && d.notified == [d.events[|c.events|]];
    }
  }

  lemma RefuseKeeps(c: Client, problem: Problem)
    requires Inv(c)
    ensures Inv(Refuse(c, problem))
  {
    var told := c.(lastError := Some(problem));
    ClosingKeeps(told);
    hide CloseSocket;
    SameEventsKeep(c, Refuse(c, problem));
    CloseKeepsBudget(told);
  }

  lemma CloseKeepsBudget(c: Client)
    ensures CloseSocket(c).attempt == c.attempt && CloseSocket(c).scheduled == c.scheduled && CloseSocket(c).resets == c.resets
    ensures ClearTimer(c).attempt == c.attempt && ClearTimer(c).scheduled == c.scheduled && ClearTimer(c).resets == c.resets
    ensures CloseSocket(c).timer == c.timer && ClearTimer(c).socket == c.socket
  {
  }

  lemma MessageKeeps(c: Client, id: nat, frame: Frame)
    requires Inv(c) && Heard(c, id)
    ensures Inv(OnMessage(c, frame))
  {
    assert c.socket == Some(id) && c.timer.None?;
    match frame {
      case NotText => SameEventsKeep(c, OnMessage(c, frame));
      case Unparsable => RefuseKeeps(c, NotUnderstood);
      case Parsed(e) =>
        match Classify(e, c.events, c.identity) {
          case Accepted => AcceptKeeps(c, e);
          case Duplicate =>
          case Gap => GapKeeps(c);
          case Conflict => RefuseKeeps(c, ConflictingData);
          case _ => RefuseKeeps(c, DifferentTaskOrRun);
        }
    }
    hide Accept, Refuse, Schedule, CloseSocket;
  }

  lemma GapKeeps(c: Client)
    requires Inv(c) && c.taskId.Some?
    ensures Inv(Schedule(CloseSocket(c.(lastError := Some(SkippedAhead))), Resume(c)))
  {
    var told := c.(lastError := Some(SkippedAhead));
    assert LinksInv(told) && BudgetInv(told);
    hide CloseSocket, Schedule, LinksInv, EventsInv, NotifiedInv, BudgetInv;
    ClosingKeeps(told);
    assert BudgetInv(CloseSocket(told)) && Resume(c) == Resume(CloseSocket(told));
    ScheduleKeeps(CloseSocket(told));
    SameEventsKeep(c, Schedule(CloseSocket(told), Resume(c)));
  }

  lemma CloseKeeps(c: Client, id: nat, code: int)
    requires Inv(c) && Heard(c, id)
    ensures Inv(OnClose(c, id, code))
  {
    DetachKeeps(c, id);
    var closed := c.(attached := c.attached - {id}, socket := None);
    hide Schedule, LinksInv;
    ScheduleKeeps(closed);
    ToldKeeps(closed, Closed(code));
    ScheduleKeeps(closed.(lastError := Some(Closed(code))));
    SameEventsKeep(c, OnClose(c, id, code));
  }

  lemma DetachKeeps(c: Client, id: nat)
    requires LinksInv(c) && Heard(c, id)
    ensures var closed := c.(attached := c.attached - {id}, socket := None);
            c.socket == Some(id) && c.taskId.Some? && LinksInv(closed)
            && (forall connection :: LinksInv(closed.(connection := connection)))
  {
  }

  lemma ToldKeeps(c: Client, problem: Problem)
    requires LinksInv(c)
    ensures forall connection :: LinksInv(c.(lastError := Some(problem), connection := connection))
    ensures LinksInv(c.(lastError := Some(problem)))
  {
  }

  lemma TimerKeeps(c: Client, id: nat)
    requires Inv(c) && id in c.armed
    ensures Inv(OnTimer(c, id))
  {
    var fired := c.(armed := c.armed - {id}, timer := None);
    assert c.timer == Some(id) && LinksInv(fired);
    hide Connect;
    ConnectKeeps(fired);
    SameEventsKeep(c, OnTimer(c, id));
  }

  lemma ReconnectKeeps(c: Client)
    requires Inv(c)
    ensures Inv(ManualReconnect(c))
  {
    ClosingKeeps(c);
    CloseKeepsBudget(c);
    var ready := ClearTimer(c).(attempt := 0, lastError := None, resets := c.resets + 1);
    hide Connect, ClearTimer;
    ConnectKeeps(ready);
    SameEventsKeep(c, ManualReconnect(c));
  }

  lemma SwitchKeeps(c: Client, taskId: Option<string>)
    requires Inv(c)
    ensures Inv(SwitchTask(c, taskId))
  {
    var torn := Teardown(c);
    TeardownKeeps(c);
    var blank := CloseSocket(ClearTimer(torn.(generation := torn.generation + 1)));
    SilenceKeeps(torn.(generation := torn.generation + 1));
    hide CloseSocket, ClearTimer, Teardown, Connect;
    var ready := Renewed(blank, taskId);
    RenewedKeeps(blank, taskId);
    ConnectKeeps(ready);
    if taskId.Some? { SameEventsKeep(ready, Connect(ready, -1)); }
  }

  lemma RenewedKeeps(c: Client, taskId: Option<string>)
    requires c.attached == map[] && c.armed == map[] && c.socket.None? && c.timer.None?
    requires forall i :: 0 <= i < |c.openings| ==> c.openings[i].afterSequence == c.openings[i].accepted - 1
    requires c.scheduled <= |RECONNECT_DELAYS| * (c.acceptedEver + c.resets + 1)
    ensures Inv(Renewed(c, taskId)) && Inv(Renewed(c, taskId).(connection := Idle))
  {
  }

  /** With no socket left, closing and clearing leave nothing live. */
  lemma SilenceKeeps(c: Client)
    requires c.attached.Keys == AsSet(c.socket) && c.armed.Keys == AsSet(c.timer)
    requires forall i :: 0 <= i < |c.openings| ==> c.openings[i].afterSequence == c.openings[i].accepted - 1
    ensures var d := CloseSocket(ClearTimer(c));
      && d.attached == map[] && d.armed == map[] && d.socket.None? && d.timer.None? && d.openings == c.openings
      && d.attempt == c.attempt && d.scheduled == c.scheduled && d.resets == c.resets && d.acceptedEver == c.acceptedEver
  {
  }

  lemma TeardownKeeps(c: Client)
    requires LinksInv(c)
    ensures var d := Teardown(c);
      && d.attached.Keys == AsSet(d.socket) && d.armed.Keys == AsSet(d.timer) && d.openings == c.openings
      && d.attempt == c.attempt && d.scheduled == c.scheduled && d.resets == c.resets && d.acceptedEver == c.acceptedEver
  {
    if c.taskId.Some? { SilenceKeeps(c.(generation := c.generation + 1)); }
  }

  lemma StepKeeps(c: Client, input: Input)
    requires Inv(c)
    ensures Inv(Step(c, input))
  {
    hide OnMessage, OnClose, OnTimer, ManualReconnect, SwitchTask;
    match input {
      case Opened(id) => SameEventsKeep(c, Step(c, input));
      case Message(id, frame) => if Heard(c, id) { MessageKeeps(c, id, frame); }
      case SocketError(_) =>
      case SocketClosed(id, code) => if Heard(c, id) { CloseKeeps(c, id, code); }
      case TimerFires(id) => if id in c.armed { TimerKeeps(c, id); }
      case UserReconnects => ReconnectKeeps(c);
      case TaskChanges(taskId) => SwitchKeeps(c, taskId);
    }
  }

  lemma {:induction false} ExecKeeps(c: Client, inputs: seq<Input>)
    requires Inv(c)
    ensures Inv(Exec(c, inputs))
    decreases |inputs|
  {
    if inputs != [] {
      hide Inv, Step;
      StepKeeps(c, inputs[0]);
      ExecKeeps(Step(c, inputs[0]), inputs[1..]);
    }
  }
}
