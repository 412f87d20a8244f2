/**
  The promises of the event stream client, spelled out: against any server and network first, then
  for an honest server behind an arbitrary network.
 */
module TaskEventsGuarantees {
  import opened Wrappers
  import opened Events
  import opened TaskEvents
  import opened TaskEventsSafety

  lemma MountedKeeps(taskId: Option<string>)
    ensures Inv(Mounted(taskId))
  {
  }

  lemma Reachable(taskId: Option<string>, inputs: seq<Input>)
    ensures Inv(After(taskId, inputs))
  {
    hide Mounted, Inv;
    MountedKeeps(taskId);
    ExecKeeps(Mounted(taskId), inputs);
  }

  /**
    Resume offsets never go stale. At most one socket is attached or one reconnect timer armed, never
    both; a waiting timer carries the offset that is right at this moment; and every socket ever
    opened asked for exactly what followed the events accepted by then.
   */
  lemma ResumeOffsetIsCurrent(taskId: Option<string>, inputs: seq<Input>)
    ensures var c := After(taskId, inputs);
      && |c.attached| + |c.armed| <= 1
      && (forall id | id in c.armed :: c.armed[id].afterSequence == |c.events| - 1)
      && (forall i :: 0 <= i < |c.openings| ==> c.openings[i].afterSequence == c.openings[i].accepted - 1)
  {
    Reachable(taskId, inputs);
    hide Exec, Mounted, EventsInv, NotifiedInv, BudgetInv;
    var c := After(taskId, inputs);
    assert |c.attached| == |c.attached.Keys| && |c.armed| == |c.armed.Keys|;
  }

  /** Whatever arrives, what is shown is one stream: numbered 0..n-1, of the requested task, one run and one agent. */
  lemma ShowsOneStream(task: string, inputs: seq<Input>)
    ensures var c := After(Some(task), inputs);
            forall i :: 0 <= i < |c.events| ==>
              && c.events[i].sequence == i && (c.taskId.Some? ==> c.events[i].taskId == c.taskId.value)
              && c.events[i].runId == c.events[0].runId && c.events[i].agentId == c.events[0].agentId
  {
    Reachable(Some(task), inputs);
    hide Exec, Mounted, LinksInv, NotifiedInv, BudgetInv;
  }

  /** Whatever arrives, the callback is called for the first terminal event shown, once; otherwise never. */
  lemma NotifiesOnce(taskId: Option<string>, inputs: seq<Input>)
    ensures var c := After(taskId, inputs);
      && (NoTerminal(c.events) ==> c.notified == [])
      && (!NoTerminal(c.events) ==> exists i :: FirstTerminal(c.events, i) && c.notified == [c.events[i]])
  {
    Reachable(taskId, inputs);
    hide Exec, Mounted, LinksInv, EventsInv, BudgetInv;
    var c := After(taskId, inputs);
    if c.terminalNotified {
      var i :| FirstTerminal(c.events, i) && c.notified == [c.events[i]];
    }
  }

  // ------------------------------------------------------------------------- retry budget

  /** No manual reconnect and no task change among the inputs. */
  predicate Unattended(inputs: seq<Input>) {
    forall i :: 0 <= i < |inputs| ==> !inputs[i].UserReconnects? && !inputs[i].TaskChanges?
  }

  /** Only accepting an event, or the user, moves the counts of accepted events and resets. */
  ghost predicate SameCounts(c: Client, d: Client) {
    d.resets == c.resets && (c.acceptedEver == |c.events| ==> d.acceptedEver == |d.events|)
  }

  lemma LinksKeepCounts(c: Client, afterSequence: int)
    ensures SameCounts(c, CloseSocket(c)) && SameCounts(c, ClearTimer(c))
    ensures SameCounts(c, Schedule(c, afterSequence)) && SameCounts(c, Connect(c, afterSequence))
  {
  }

  lemma UnattendedMessage(c: Client, frame: Frame)
    ensures SameCounts(c, OnMessage(c, frame))
  {
    hide Classify, Schedule, CloseSocket;
    LinksKeepCounts(c.(lastError := Some(SkippedAhead)), Resume(c));
    LinksKeepCounts(CloseSocket(c.(lastError := Some(SkippedAhead))), Resume(c));
    LinksKeepCounts(c.(lastError := Some(NotUnderstood)), 0);
    LinksKeepCounts(c.(lastError := Some(ConflictingData)), 0);
    LinksKeepCounts(c.(lastError := Some(DifferentTaskOrRun)), 0);
  }

  lemma UnattendedStep(c: Client, input: Input)
    requires !input.UserReconnects? && !input.TaskChanges?
    ensures SameCounts(c, Step(c, input))
  {
    hide OnMessage, Schedule, Connect;
    match input {
      case Message(id, frame) => UnattendedMessage(c, frame);
      case SocketClosed(id, code) =>
        var closed := c.(attached := c.attached - {id}, socket := None);
        LinksKeepCounts(closed, Resume(c));
        LinksKeepCounts(closed.(lastError := Some(Closed(code))), Resume(c));
      case TimerFires(id) =>
        if id in c.armed { LinksKeepCounts(c.(armed := c.armed - {id}, timer := None), c.armed[id].afterSequence); }
      case _ =>
    }
  }

  lemma {:induction false} UnattendedExec(c: Client, inputs: seq<Input>)
    requires Unattended(inputs) && c.acceptedEver == |c.events|
    ensures Exec(c, inputs).resets == c.resets && Exec(c, inputs).acceptedEver == |Exec(c, inputs).events|
    decreases |inputs|
  {
    if inputs != [] {
      hide Step;
      UnattendedStep(c, inputs[0]);
      UnattendedExec(Step(c, inputs[0]), inputs[1..]);
    }
  }

  /**
    Bounded retries: over any run, automatic reconnects never exceed five for each accepted event,
    each manual reconnect or task change, and five more; left alone, five per event shown plus five.
   */
  lemma RetryBound(taskId: Option<string>, inputs: seq<Input>)
    ensures var c := After(taskId, inputs);
      && c.scheduled <= 5 * (c.acceptedEver + c.resets + 1)
      && (Unattended(inputs) ==> c.scheduled <= 5 * (|c.events| + 1))
  {
    Reachable(taskId, inputs);
    if Unattended(inputs) {
      MountedCounts(taskId);
      UnattendedExec(Mounted(taskId), inputs);
    }
    hide Exec, Mounted, LinksInv, EventsInv, NotifiedInv;
  }

  lemma MountedCounts(taskId: Option<string>)
    ensures Mounted(taskId).resets == 0 && Mounted(taskId).acceptedEver == |Mounted(taskId).events| == 0
  {
  }

  // ------------------------------------------------------------------------ honest server

  /** What the server stores for a task, once complete: one run, one agent, numbered without holes. */
  ghost predicate IsLog(task: string, log: seq<Event>) {
    forall i :: 0 <= i < |log| ==>
      && log[i].sequence == i && log[i].taskId == task && log[i].runId == log[0].runId && log[i].agentId == log[0].agentId
  }

  type Logs = string -> seq<Event>

  ghost predicate AllLogs(logs: Logs) {
    forall task: string :: IsLog(task, logs(task))
  }

  /** The frames a socket is heard to deliver are entries of its task's log, in any order, any number of times. */
  ghost predicate HonestInput(logs: Logs, c: Client, input: Input) {
    input.Message? && Heard(c, input.id) ==>
      input.frame.NotText? || (input.frame.Parsed? && input.frame.event in logs(c.attached[input.id].taskId))
  }

  ghost predicate Honest(logs: Logs, c: Client, inputs: seq<Input>)
    decreases |inputs|
  {
    inputs != [] ==> HonestInput(logs, c, inputs[0]) && Honest(logs, Step(c, inputs[0]), inputs[1..])
  }

  /** What is shown is a prefix of the task's log, and the only way to an error is the server closing for good. */
  ghost predicate Following(logs: Logs, c: Client) {
    && (c.taskId.Some? ==> c.events <= logs(c.taskId.value))
    && (c.taskId.None? ==> c.events == [] && !c.connection.Error?)
    && (c.connection.Error? ==> c.lastError.Some? && c.lastError.value.Closed? && c.lastError.value.code in NON_RETRYABLE)
    && (c.connection.Error? ==> c.socket.None?)
  }

  /** For an entry of the log, the verdict depends on its number alone; nothing conflicts, nothing mismatches. */
  lemma HonestVerdict(logs: Logs, c: Client, e: Event)
    requires AllLogs(logs) && EventsInv(c) && c.taskId.Some? && c.events <= logs(c.taskId.value) && e in logs(c.taskId.value)
    ensures Classify(e, c.events, c.identity) ==
            if e.sequence < |c.events| then Duplicate else if e.sequence == |c.events| then Accepted else Gap
    ensures e.sequence < |logs(c.taskId.value)| && logs(c.taskId.value)[e.sequence] == e
  {
    var log := logs(c.taskId.value);
    assert IsLog(c.taskId.value, log);
    var i :| 0 <= i < |log| && log[i] == e;
    assert log[i].sequence == i;
  }

  lemma HonestMessage(logs: Logs, c: Client, id: nat, frame: Frame)
    requires AllLogs(logs) && Inv(c) && Following(logs, c) && Heard(c, id) && HonestInput(logs, c, Message(id, frame))
    ensures Following(logs, OnMessage(c, frame))
  {
    hide NotifiedInv, BudgetInv, Classify;
    assert c.taskId == Some(c.attached[id].taskId) && c.socket == Some(id);
    if frame.Parsed? {
      HonestVerdict(logs, c, frame.event);
      var log := logs(c.taskId.value);
      if frame.event.sequence == |c.events| {
        assert c.events + [frame.event] <= log;
      }
    }
  }

  lemma HonestStep(logs: Logs, c: Client, input: Input)
    requires AllLogs(logs) && Inv(c) && Following(logs, c) && HonestInput(logs, c, input)
    ensures Following(logs, Step(c, input))
  {
    if input.Message? {
      if Heard(c, input.id) { HonestMessage(logs, c, input.id, input.frame); }
    } else {
      hide EventsInv, NotifiedInv, BudgetInv, OnMessage;
    }
  }

  lemma {:induction false} HonestExec(logs: Logs, c: Client, inputs: seq<Input>)
    requires AllLogs(logs) && Inv(c) && Following(logs, c) && Honest(logs, c, inputs)
    ensures Following(logs, Exec(c, inputs))
    decreases |inputs|
  {
    if inputs != [] {
      hide AllLogs, Inv, Following, HonestInput, Step;
      HonestStep(logs, c, inputs[0]);
      StepKeeps(c, inputs[0]);
      HonestExec(logs, Step(c, inputs[0]), inputs[1..]);
    }
  }

  /**
    Prefix safety: if every frame heard is an entry of the server's log for that task, then across
    any duplicates, omissions, reorderings, disconnects, reconnects and task changes, what is shown
    is a prefix of the current task's log, and the client never stops over the data: it is in error
    only after the server closed the connection with a code that forbids retrying.
   */
  lemma PrefixSafety(logs: Logs, taskId: Option<string>, inputs: seq<Input>)
    requires AllLogs(logs) && Honest(logs, Mounted(taskId), inputs)
    ensures var c := After(taskId, inputs);
      && (c.taskId.Some? ==> c.events <= logs(c.taskId.value))
      && (c.connection.Error? ==> c.lastError.Some? && c.lastError.value.Closed? && c.lastError.value.code in NON_RETRYABLE)
  {
    MountedFollows(logs, taskId);
    MountedKeeps(taskId);
    hide Mounted, Exec, Inv, AllLogs;
    HonestExec(logs, Mounted(taskId), inputs);
  }

  lemma MountedFollows(logs: Logs, taskId: Option<string>)
    ensures Following(logs, Mounted(taskId))
  {
  }

  // --------------------------------------------------------------------------- catching up

  function Frames(id: nat, es: seq<Event>): (inputs: seq<Input>)
    ensures |inputs| == |es| && forall i :: 0 <= i < |es| ==> inputs[i] == Message(id, Parsed(es[i]))
  {
    seq(|es|, i requires 0 <= i < |es| => Message(id, Parsed(es[i])))
  }

  lemma CatchUpStep(logs: Logs, c: Client, id: nat, e: Event)
    requires AllLogs(logs) && Inv(c) && Following(logs, c) && Heard(c, id)
    requires c.taskId.Some? && e in logs(c.taskId.value) && e.sequence <= |c.events|
    ensures var d := Step(c, Message(id, Parsed(e)));
      && Inv(d) && Following(logs, d) && Heard(d, id) && d.taskId == c.taskId
      && d.events == if e.sequence < |c.events| then c.events else c.events + [e]
  {
    HonestVerdict(logs, c, e);
    StepKeeps(c, Message(id, Parsed(e)));
    assert c.taskId == Some(c.attached[id].taskId);
    HonestStep(logs, c, Message(id, Parsed(e)));
    hide Inv, Following, Classify;
  }

  /**
    Catching up: a connection that delivers the log from any point at or before the next missing event
    brings the client exactly up to where the delivery stops, with nothing shown twice.
   */
  lemma {:induction false} CatchesUp(logs: Logs, c: Client, id: nat, from: nat, upTo: nat)
    requires AllLogs(logs) && Inv(c) && Following(logs, c) && Heard(c, id) && c.taskId.Some?
    requires from <= |c.events| <= upTo <= |logs(c.taskId.value)|
    ensures var d := Exec(c, Frames(id, logs(c.taskId.value)[from..upTo]));
            Inv(d) && d.taskId == c.taskId && d.events == logs(c.taskId.value)[..upTo]
    decreases upTo - from
  {
    var log := logs(c.taskId.value);
    hide Inv, Heard, Step;
    if from == upTo {
      assert c.events == log[..upTo];
    } else {
      var e := log[from];
      assert IsLog(c.taskId.value, log);
      assert log[from..upTo][0] == e && log[from..upTo][1..] == log[from + 1..upTo];
      assert Frames(id, log[from..upTo])[1..] == Frames(id, log[from + 1..upTo]);
      CatchUpStep(logs, c, id, e);
      CatchesUp(logs, Step(c, Message(id, Parsed(e))), id, from + 1, upTo);
    }
  }

  /** The two ways a client comes back: the user asks, or the reconnect timer fires. */
  predicate ComesBack(c: Client, input: Input) {
    input.UserReconnects? || (input.TimerFires? && input.id in c.armed)
  }

  /**
    And a returning client is owed such a delivery: after any honest run, the socket opened by the user or by
    the timer asks for the log from exactly the next missing event, and delivering the rest of the log
    shows it in full.
   */
  lemma ReturnCatchesUp(logs: Logs, taskId: Option<string>, inputs: seq<Input>, input: Input)
    requires AllLogs(logs) && Honest(logs, Mounted(taskId), inputs) && After(taskId, inputs).taskId.Some?
    requires ComesBack(After(taskId, inputs), input)
    ensures var c := After(taskId, inputs); var log := logs(c.taskId.value); var d := Step(c, input);
      && d.socket.Some? && Heard(d, d.socket.value) && d.attached[d.socket.value].afterSequence == |c.events| - 1
      && c.events <= log && Exec(d, Frames(d.socket.value, log[|c.events|..])).events == log
  {
    var c := After(taskId, inputs);
    var log := logs(c.taskId.value);
    Reachable(taskId, inputs);
    MountedFollows(logs, taskId);
    MountedKeeps(taskId);
    HonestExec(logs, Mounted(taskId), inputs);
    StepKeeps(c, input);
    HonestStep(logs, c, input);
    ReturnOpens(c, input);
    var d := Step(c, input);
    FollowingShorter(logs, c);
    assert log[|c.events|..] == log[|c.events|..|log|] && log[..|log|] == log;
    hide Exec, Mounted, Inv, Following, Step, AllLogs;
    CatchesUp(logs, d, d.socket.value, |c.events|, |log|);
  }

  lemma FollowingShorter(logs: Logs, c: Client)
    requires Following(logs, c) && c.taskId.Some?
    ensures c.events <= logs(c.taskId.value)
  {
  }

  lemma ReturnOpens(c: Client, input: Input)
    requires Inv(c) && c.taskId.Some? && ComesBack(c, input)
    ensures var d := Step(c, input);
      && d.taskId == c.taskId && d.events == c.events && d.socket.Some? && Heard(d, d.socket.value)
      && d.attached[d.socket.value].afterSequence == |c.events| - 1
  {
    hide EventsInv, NotifiedInv, BudgetInv, ClearTimer, CloseSocket;
    CloseKeepsLinks(c);
    ClosingKeeps(c);
  }

  lemma CloseKeepsLinks(c: Client)
    ensures ClearTimer(c).taskId == c.taskId && ClearTimer(c).generation == c.generation
    ensures forall d: Client :: CloseSocket(d).taskId == d.taskId && CloseSocket(d).generation == d.generation && CloseSocket(d).events == d.events
  {
  }
}
