/**
  The event stream hook itself: the references its handlers update, proved step by step against
  `TaskEvents`.
 */
module TaskEventsClients {
  import opened Wrappers
  import opened Events
  import opened TaskEvents

  class TaskEventsClient {
    var taskId: Option<string>
    var events: seq<Event>
    var identity: Identity
    var socket: Option<nat>
    var generation: nat
    var reconnectTimer: Option<nat>
    var reconnectAttempt: nat
    var terminalNotified: bool
    var connectionState: ConnectionState
    var lastError: Option<Problem>
    var terminalEventReceived: bool
    /** The world outside: sockets with attached handlers, armed timers, fresh names. */
    var attached: map<nat, Socket>
    var armed: map<nat, Reconnect>
    var nextId: nat
    ghost var openings: seq<Opening>
    ghost var notified: seq<Event>
    ghost var scheduled: nat
    ghost var acceptedEver: nat
    ghost var resets: nat

    ghost function State(): Client
      reads this
    {
      Client(taskId, events, identity, socket, generation, reconnectTimer, reconnectAttempt, terminalNotified,
             connectionState, lastError, terminalEventReceived, attached, armed, nextId,
             openings, notified, scheduled, acceptedEver, resets)
    }

    constructor ()
      ensures State() == Blank
    {
      taskId, events, identity, socket, generation := None, [], Identity("", None, None), None, 0;
      reconnectTimer, reconnectAttempt, terminalNotified, connectionState := None, 0, false, Idle;
      lastError, terminalEventReceived, attached, armed, nextId := None, false, map[], map[], 0;
      openings, notified, scheduled, acceptedEver, resets := [], [], 0, 0, 0;
    }

    method ClearReconnectTimer()
      modifies this`reconnectTimer, this`armed
      ensures State() == ClearTimer(old(State()))
    {
      if reconnectTimer != None {
        armed := armed - {reconnectTimer.value};
        reconnectTimer := None;
      }
    }

    method CloseCurrentSocket()
      modifies this`socket, this`attached
      ensures State() == CloseSocket(old(State()))
    {
      if socket == None { return; }
      attached := attached - {socket.value};
      socket := None;
    }

    method ScheduleReconnect(afterSequence: int)
      modifies this
      ensures State() == Schedule(old(State()), afterSequence)
    {
      var current := reconnectAttempt;
      if current >= |RECONNECT_DELAYS| {
        connectionState := Disconnected;
        return;
      }
      var delay := RECONNECT_DELAYS[current];
      SpendAttempt();
      ClearReconnectTimer();
      ArmReconnectTimer(Reconnect(afterSequence, delay));
    }

    method SpendAttempt()
      modifies this`connectionState, this`reconnectAttempt, this`scheduled
      ensures State() == old(State()).(connection := Reconnecting, attempt := old(reconnectAttempt) + 1, scheduled := old(scheduled) + 1)
    {
      connectionState, reconnectAttempt, scheduled := Reconnecting, reconnectAttempt + 1, scheduled + 1;
    }

    method ArmReconnectTimer(reconnect: Reconnect)
      modifies this`armed, this`reconnectTimer, this`nextId
      ensures State() == old(State()).(armed := old(armed)[old(nextId) := reconnect], timer := Some(old(nextId)), nextId := old(nextId) + 1)
    {
      armed := armed[nextId := reconnect];
      reconnectTimer := Some(nextId);
      nextId := nextId + 1;
    }

    method Connect(afterSequence: int)
      modifies this
      ensures State() == TaskEvents.Connect(old(State()), afterSequence)
    {
      if taskId == None { return; }
      CloseCurrentSocket();
      connectionState := Connecting;
      openings := openings + [Opening(taskId.value, afterSequence, |events|)];
      OpenSocket(Socket(taskId.value, afterSequence, generation));
    }

    method OpenSocket(next: Socket)
      modifies this`attached, this`socket, this`nextId
      ensures State() == old(State()).(attached := old(attached)[old(nextId) := next], socket := Some(old(nextId)), nextId := old(nextId) + 1)
    {
      attached := attached[nextId := next];
      socket := Some(nextId);
      nextId := nextId + 1;
    }

    method OnOpen(id: nat)
      modifies this`connectionState
      ensures State() == Step(old(State()), Opened(id))
    {
      if id in attached && attached[id].generation == generation { connectionState := Connected; }
    }

    method AcceptEvent(event: Event)
      modifies this
      ensures State() == Accept(old(State()), event)
    {
      if identity.runId == None { identity := Identity(identity.taskId, Some(event.runId), Some(event.agentId)); }
      events := events + [event];
      acceptedEver := acceptedEver + 1;
      reconnectAttempt := 0;
      if IsTerminal(event.body) { NotifyTerminal(event); }
    }

    method NotifyTerminal(event: Event)
      modifies this`terminalEventReceived, this`terminalNotified, this`notified
      ensures State() == old(State()).(terminalReceived := true, terminalNotified := true,
                notified := if old(terminalNotified) then old(notified) else old(notified) + [event])
    {
      terminalEventReceived := true;
      if !terminalNotified {
        terminalNotified := true;
        notified := notified + [event];
      }
    }

    method RefuseStream(problem: Problem)
      modifies this
      ensures State() == Refuse(old(State()), problem)
    {
      lastError := Some(problem);
      CloseCurrentSocket();
      connectionState := Error;
    }

    method OnMessage(id: nat, frame: Frame)
      modifies this
      ensures State() == Step(old(State()), Message(id, frame))
    {
      hide Classify, Accept, Schedule, CloseSocket;
      if id !in attached || attached[id].generation != generation { return; }
      match frame {
        case NotText => lastError := Some(NonTextMessage);
        case Unparsable => RefuseStream(NotUnderstood);
        case Parsed(event) =>
          match Classify(event, events, identity) {
            case Accepted => AcceptEvent(event);
            case Duplicate =>
            case Gap =>
              lastError := Some(SkippedAhead);
              CloseCurrentSocket();
              KeepsEvents(old(State()).(lastError := lastError));
              ScheduleReconnect(|events| - 1);
            case Conflict => RefuseStream(ConflictingData);
            case _ => RefuseStream(DifferentTaskOrRun);
          }
      }
    }

    method OnClose(id: nat, code: int)
      modifies this
      ensures State() == Step(old(State()), SocketClosed(id, code))
    {
      hide Schedule;
      if id !in attached || attached[id].generation != generation { return; }
      attached := attached - {id};
      socket := None;
      if terminalNotified && code == CLOSE_NORMAL {
        connectionState := Completed;
        return;
      }
      if code == CLOSE_NORMAL {
        ScheduleReconnect(|events| - 1);
        return;
      }
      lastError := Some(Closed(code));
      if code in NON_RETRYABLE {
        connectionState := Error;
        return;
      }
      ScheduleReconnect(|events| - 1);
    }

    method OnReconnectTimer(id: nat)
      requires id in armed
      modifies this
      ensures State() == OnTimer(old(State()), id)
    {
      var afterSequence := armed[id].afterSequence;
      armed := armed - {id};
      reconnectTimer := None;
      Connect(afterSequence);
    }

    /** `reconnect`, offered to the user. */
    method ReconnectNow()
      modifies this
      ensures State() == ManualReconnect(old(State()))
    {
      hide ClearTimer, TaskEvents.Connect;
      ClearReconnectTimer();
      KeepsEvents(old(State()));
      reconnectAttempt := 0;
      lastError := None;
      resets := resets + 1;
      Connect(|events| - 1);
    }

    /** The effect's teardown. */
    method TearDown()
      modifies this
      ensures State() == Teardown(old(State()))
    {
      if taskId == None { return; }
      generation := generation + 1;
      ClearReconnectTimer();
      CloseCurrentSocket();
    }

    /** Forget the previous task and take up the new one. */
    method Renew(newTask: Option<string>)
      modifies this
      ensures State() == Renewed(old(State()), newTask)
    {
      ForgetEvents();
      lastError, reconnectAttempt := None, 0;
      identity := Identity(if newTask != None then newTask.value else "", None, None);
      resets := resets + 1;
      taskId := newTask;
    }

    method ForgetEvents()
      modifies this`events, this`terminalEventReceived, this`terminalNotified, this`notified
      ensures State() == old(State()).(events := [], terminalReceived := false, terminalNotified := false, notified := [])
    {
      events, terminalEventReceived, terminalNotified, notified := [], false, false, [];
    }

    /** The effect for a new task, after the previous one's teardown. */
    method ChangeTask(newTask: Option<string>)
      modifies this
      ensures State() == SwitchTask(old(State()), newTask)
    {
      hide Teardown, ClearTimer, CloseSocket, Renewed, TaskEvents.Connect;
      TearDown();
      generation := generation + 1;
      ClearReconnectTimer();
      CloseCurrentSocket();
      Renew(newTask);
      if newTask == None {
        connectionState := Idle;
        return;
      }
      Connect(-1);
    }
  }

  lemma KeepsEvents(c: Client)
    ensures CloseSocket(c).events == c.events && ClearTimer(c).events == c.events && ClearTimer(c).resets == c.resets
  {
  }
}
