/**
  What the event stream client does about each thing that happens to it: it never just stops.
 */
module TaskEventsProgress {
  import opened Wrappers
  import opened Events
  import opened TaskEvents
  import opened TaskEventsSafety
  import opened TaskEventsGuarantees

  // -------------------------------------------------------------------------- the status

  /** The connection state says what is going on, and every way to stand still has its reason. */
  ghost predicate StatusInv(c: Client) {
    if c.taskId.None? then c.connection.Idle?
    else
      && !c.connection.Idle?
      && (c.socket.Some? <==> c.connection.Connecting? || c.connection.Connected?)
      && (c.timer.Some? <==> c.connection.Reconnecting?)
      && (c.connection.Completed? ==> c.terminalNotified)
      && (c.connection.Disconnected? ==> c.attempt == 5)
  }

  /** The budget counter: reset by progress, otherwise one up for each reconnect scheduled. */
  ghost predicate Spends(c: Client, d: Client) {
    && c.scheduled <= d.scheduled
    && d.attempt == if d.acceptedEver != c.acceptedEver || d.resets != c.resets then 0 else c.attempt + (d.scheduled - c.scheduled)
  }

  lemma StatusStep(c: Client, input: Input)
    requires Inv(c) && StatusInv(c)
    ensures StatusInv(Step(c, input)) && Spends(c, Step(c, input))
  {
    hide EventsInv, NotifiedInv;
    match input {
      case Message(id, frame) => if Heard(c, id) { MessageStatus(c, frame); }
      case SocketClosed(id, code) => if Heard(c, id) { CloseStatus(c, id, code); }
      case _ =>
    }
    hide OnMessage, OnClose;
  }

  /** Scheduling from a client with nothing live. */
  lemma ScheduleStatus(c: Client, afterSequence: int)
    requires c.taskId.Some? && c.socket.None? && c.timer.None? && c.attempt <= 5
    ensures StatusInv(Schedule(c, afterSequence)) && Spends(c, Schedule(c, afterSequence))
    ensures Schedule(c, afterSequence).acceptedEver == c.acceptedEver && Schedule(c, afterSequence).resets == c.resets
  {
  }

  lemma MessageStatus(c: Client, frame: Frame)
    requires Inv(c) && StatusInv(c) && c.socket.Some?
    ensures StatusInv(OnMessage(c, frame)) && Spends(c, OnMessage(c, frame))
  {
    hide EventsInv, NotifiedInv, Classify, Schedule;
    ScheduleStatus(CloseSocket(c.(lastError := Some(SkippedAhead))), Resume(c));
  }

  lemma CloseStatus(c: Client, id: nat, code: int)
    requires Inv(c) && StatusInv(c) && Heard(c, id)
    ensures StatusInv(OnClose(c, id, code)) && Spends(c, OnClose(c, id, code))
  {
    hide EventsInv, NotifiedInv, Schedule;
    var closed := c.(attached := c.attached - {id}, socket := None);
    ScheduleStatus(closed, Resume(c));
    ScheduleStatus(closed.(lastError := Some(Closed(code))), Resume(c));
  }

  lemma {:induction false} ExecStatus(c: Client, inputs: seq<Input>)
    requires Inv(c) && StatusInv(c)
    ensures StatusInv(Exec(c, inputs))
    decreases |inputs|
  {
    if inputs != [] {
      hide Inv, StatusInv, Step;
      StepKeeps(c, inputs[0]);
      StatusStep(c, inputs[0]);
      ExecStatus(Step(c, inputs[0]), inputs[1..]);
    }
  }

  lemma AfterStatus(taskId: Option<string>, inputs: seq<Input>)
    ensures Inv(After(taskId, inputs)) && StatusInv(After(taskId, inputs))
  {
    Reachable(taskId, inputs);
    MountedKeeps(taskId);
    MountedStatus(taskId);
    hide Inv, StatusInv, Mounted;
    ExecStatus(Mounted(taskId), inputs);
  }

  lemma MountedStatus(taskId: Option<string>)
    ensures StatusInv(Mounted(taskId)) && Mounted(taskId).attempt == 0
  {
  }

  /**
    A client with a task is always attached to the stream, waiting to reconnect, completed after a terminal event,
    out of budget, or in error; these exclude each other. Behind an honest server an error is a refusal:
    a close code that forbids retrying.
   */
  lemma AlwaysSomewhere(taskId: Option<string>, inputs: seq<Input>)
    requires After(taskId, inputs).taskId.Some?
    ensures var c := After(taskId, inputs);
      && (c.connection.Connecting? || c.connection.Connected? <==> |c.attached| == 1)
      && (c.connection.Reconnecting? <==> |c.armed| == 1)
      && |c.attached| + |c.armed| <= 1
      && (|c.attached| + |c.armed| == 0 ==>
            || (c.connection.Completed? && !NoTerminal(c.events))
            || (c.connection.Disconnected? && c.attempt == 5)
            || c.connection.Error?)
    ensures forall logs :: AllLogs(logs) && Honest(logs, Mounted(taskId), inputs) && After(taskId, inputs).connection.Error? ==>
              After(taskId, inputs).lastError.Some? && After(taskId, inputs).lastError.value in
                {Closed(4400), Closed(4404), Closed(1003), Closed(4403)}
  {
    hide Exec, Mounted, EventsInv, BudgetInv;
    AfterStatus(taskId, inputs);
    var c := After(taskId, inputs);
    assert |c.attached| == |c.attached.Keys| && |c.armed| == |c.armed.Keys|;
    forall logs | AllLogs(logs) && Honest(logs, Mounted(taskId), inputs)
      ensures c.connection.Error? ==> c.lastError.Some? && c.lastError.value in {Closed(4400), Closed(4404), Closed(1003), Closed(4403)}
    {
      PrefixSafety(logs, taskId, inputs);
    }
  }

  /** The attempts since the last accepted event, manual reconnect or task change, counted from the history. */
  function Attempts(taskId: Option<string>, inputs: seq<Input>): int
    decreases |inputs|
  {
    if inputs == [] then 0
    else
      var before := inputs[..|inputs| - 1];
      var c, d := After(taskId, before), After(taskId, inputs);
      if d.acceptedEver != c.acceptedEver || d.resets != c.resets then 0
      else Attempts(taskId, before) + (d.scheduled - c.scheduled)
  }

  lemma {:induction false} AttemptsAreSpent(taskId: Option<string>, inputs: seq<Input>)
    ensures After(taskId, inputs).attempt == Attempts(taskId, inputs)
    decreases |inputs|
  {
    hide Exec, Mounted, Inv, StatusInv, Step;
    if inputs == [] {
      MountedStatus(taskId);
      assert After(taskId, inputs) == Mounted(taskId) by { NothingHappened(taskId); }
    } else {
      var before, last := inputs[..|inputs| - 1], inputs[|inputs| - 1];
      assert inputs == before + [last];
      AttemptsAreSpent(taskId, before);
      AfterSnoc(taskId, before, last);
      AfterStatus(taskId, before);
      StatusStep(After(taskId, before), last);
    }
  }

  lemma NothingHappened(taskId: Option<string>)
    ensures After(taskId, []) == Mounted(taskId)
  {
  }

  lemma {:induction false} ExecAppend(c: Client, xs: seq<Input>, ys: seq<Input>)
    ensures Exec(c, xs + ys) == Exec(Exec(c, xs), ys)
    decreases |xs|
  {
    hide Step;
    if xs == [] {
      assert xs + ys == ys;
    } else {
      assert (xs + ys)[1..] == xs[1..] + ys;
      ExecAppend(Step(c, xs[0]), xs[1..], ys);
    }
  }

  lemma AfterSnoc(taskId: Option<string>, before: seq<Input>, last: Input)
    ensures After(taskId, before + [last]) == Step(After(taskId, before), last)
  {
    hide Step, Mounted;
    ExecAppend(Mounted(taskId), before, [last]);
    assert [last][1..] == [];
  }

  // ------------------------------------------------------------------- event by event

  /** Nothing is attached; one timer waits, with the current offset and the delay for this attempt, unless the budget is spent. */
  ghost predicate Waits(c: Client, d: Client) {
    && d.events == c.events && d.attached == map[]
    && if c.attempt < 5 then
         && d.connection.Reconnecting? && d.attempt == c.attempt + 1
         && d.timer.Some? && d.armed == map[d.timer.value := Reconnect(|c.events| - 1, [250, 500, 1000, 2000, 4000][c.attempt])]
       else d.connection.Disconnected? && d.armed == map[] && d.attempt == c.attempt
  }

  /** Nothing is attached, nothing waits. */
  ghost predicate Stops(c: Client, d: Client, state: ConnectionState) {
    d.events == c.events && d.attached == map[] && d.armed == map[] && d.connection == state
  }

  /** One socket is attached, open at this offset of this task; nothing waits. */
  ghost predicate Attaches(d: Client, task: string, afterSequence: int) {
    && d.armed == map[] && d.connection.Connecting?
    && d.socket.Some? && d.attached == map[d.socket.value := Socket(task, afterSequence, d.generation)]
  }

  lemma ScheduleWaits(c: Client)
    requires c.attached == map[] && c.armed == map[] && c.timer.None? && c.attempt <= 5
    ensures Waits(c, Schedule(c, Resume(c)))
  {
  }

  /**
    A close that is heard is never the end of it: normal after a terminal event completes, four codes are
    final, and any other code waits for a reconnect from the current offset as long as the budget lasts.
   */
  lemma CloseDecides(taskId: Option<string>, inputs: seq<Input>, id: nat, code: int)
    requires Heard(After(taskId, inputs), id)
    ensures var c, d := After(taskId, inputs), After(taskId, inputs + [SocketClosed(id, code)]);
      if code == 1000 && !NoTerminal(c.events) then Stops(c, d, Completed)
      else if code in {4400, 4404, 1003, 4403} then Stops(c, d, Error) && d.lastError == Some(Closed(code))
      else Waits(c, d)
  {
    hide Exec, Mounted, EventsInv;
    var c := After(taskId, inputs);
    AfterSnoc(taskId, inputs, SocketClosed(id, code));
    AfterStatus(taskId, inputs);
    var closed := c.(attached := c.attached - {id}, socket := None);
    AloneAttached(c, id);
    ScheduleWaits(closed);
    ScheduleWaits(closed.(lastError := Some(Closed(code))));
    hide LinksInv, Schedule, Waits, StatusInv;
  }

  lemma AloneAttached(c: Client, id: nat)
    requires LinksInv(c) && Heard(c, id)
    ensures c.attached - {id} == map[] && c.armed == map[] && c.socket == Some(id) && c.timer.None?
  {
  }

  /** The event is of another task, run or agent than the stream shown. */
  predicate Foreign(c: Client, e: Event) {
    || Some(e.taskId) != c.taskId
    || (c.events != [] && (e.runId != c.events[0].runId || e.agentId != c.events[0].agentId))
  }

  /**
    What each frame does. A non-text frame is only noted; one that is not understood, is foreign, or
    contradicts an event shown stops the stream; a repetition changes nothing; the next event is shown and restores
    the budget; one that skips ahead drops the connection and waits for a reconnect from the current offset.
   */
  lemma FrameDecides(taskId: Option<string>, inputs: seq<Input>, id: nat, frame: Frame)
    requires Heard(After(taskId, inputs), id)
    ensures var c, d := After(taskId, inputs), After(taskId, inputs + [Message(id, frame)]);
      match frame
      case NotText => d == c.(lastError := Some(NonTextMessage))
      case Unparsable => Stops(c, d, Error) && d.lastError == Some(NotUnderstood)
      case Parsed(e) =>
        if Foreign(c, e) then Stops(c, d, Error) && d.lastError == Some(DifferentTaskOrRun)
        else if e.sequence > |c.events| then Waits(c, d)
        else if e.sequence < |c.events| then
          if e.eventId == c.events[e.sequence].eventId then d == c else Stops(c, d, Error) && d.lastError == Some(ConflictingData)
        else d.events == c.events + [e] && d.attempt == 0 && d.attached == c.attached && d.armed == c.armed && d.connection == c.connection
  {
    hide Exec, Mounted, Schedule;
    var c := After(taskId, inputs);
    AfterSnoc(taskId, inputs, Message(id, frame));
    AfterStatus(taskId, inputs);
    AloneAttached(c, id);
    var told := c.(lastError := Some(SkippedAhead));
    ClosingKeeps(told);
    ScheduleWaits(CloseSocket(told));
    hide LinksInv, NotifiedInv, BudgetInv, StatusInv, Waits;
  }

  /** Coming back, by the timer, by the user, or with another task, attaches one socket at the right offset. */
  lemma ReturnDecides(taskId: Option<string>, inputs: seq<Input>, last: Input)
    requires last.TimerFires? || last.UserReconnects? || last.TaskChanges?
    ensures var c, d := After(taskId, inputs), After(taskId, inputs + [last]);
      match last
      case TimerFires(id) =>
        if id in c.armed then c.taskId.Some? && Attaches(d, c.taskId.value, |c.events| - 1) && d.events == c.events else d == c
      case UserReconnects =>
        c.taskId.Some? ==> Attaches(d, c.taskId.value, |c.events| - 1) && d.events == c.events && d.attempt == 0
      case TaskChanges(task) =>
        && d.taskId == task && d.events == [] && d.attempt == 0 && d.lastError == None && !d.terminalReceived
        && if task.Some? then Attaches(d, task.value, -1) else d.attached == map[] && d.armed == map[] && d.connection.Idle?
      case _ => true
  {
    hide Exec, Mounted, EventsInv, NotifiedInv, BudgetInv;
    var c := After(taskId, inputs);
    AfterSnoc(taskId, inputs, last);
    AfterStatus(taskId, inputs);
    match last {
      case TimerFires(id) => if id in c.armed { ConnectAttaches(c.(armed := c.armed - {id}, timer := None), c.armed[id].afterSequence); }
      case UserReconnects =>
        ClosingKeeps(c);
        ConnectAttaches(ClearTimer(c).(attempt := 0, lastError := None, resets := c.resets + 1), Resume(c));
      case TaskChanges(task) =>
        var torn := Teardown(c);
        TeardownKeeps(c);
        SilenceKeeps(torn.(generation := torn.generation + 1));
        var blank := CloseSocket(ClearTimer(torn.(generation := torn.generation + 1)));
        hide Teardown, ClearTimer, CloseSocket;
        ConnectAttaches(Renewed(blank, task), -1);
    }
    hide LinksInv, Connect, StatusInv;
  }

  lemma ConnectAttaches(c: Client, afterSequence: int)
    requires c.attached.Keys == AsSet(c.socket) && c.armed == map[]
    ensures var d := Connect(c, afterSequence);
            c.taskId.Some? ==> Attaches(d, c.taskId.value, afterSequence) && d.events == c.events && d.attempt == c.attempt
                               && d.taskId == c.taskId && d.lastError == c.lastError && d.terminalReceived == c.terminalReceived
  {
    if c.taskId.Some? {
      var d := Connect(c, afterSequence);
      assert d.attached == map[c.nextId := Socket(c.taskId.value, afterSequence, d.generation)];
    }
  }

  /** A socket whose handlers are gone, or that belongs to an earlier generation, is not heard; errors wait for the close. */
  lemma UnheardIsIgnored(taskId: Option<string>, inputs: seq<Input>, id: nat, frame: Frame, code: int)
    ensures !Heard(After(taskId, inputs), id) ==>
              && After(taskId, inputs + [Message(id, frame)]) == After(taskId, inputs)
              && After(taskId, inputs + [SocketClosed(id, code)]) == After(taskId, inputs)
              && After(taskId, inputs + [Opened(id)]) == After(taskId, inputs)
    ensures After(taskId, inputs + [SocketError(id)]) == After(taskId, inputs)
    ensures Heard(After(taskId, inputs), id) ==>
              After(taskId, inputs + [Opened(id)]) == After(taskId, inputs).(connection := Connected)
  {
    hide After;
    AfterSnoc(taskId, inputs, Message(id, frame));
    AfterSnoc(taskId, inputs, SocketClosed(id, code));
    AfterSnoc(taskId, inputs, Opened(id));
    AfterSnoc(taskId, inputs, SocketError(id));
  }
}
