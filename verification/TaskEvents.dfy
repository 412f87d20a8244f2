/**
  The browser's side of one task's event stream: classification of incoming events, the socket, the
  reconnect timer and the retry budget.

  Sockets and timers outlive the references to them: a socket delivers as long as its handlers are
  attached, a timer fires as long as it is armed, whatever the hook's references say.
 */
module TaskEvents {
  import opened Wrappers
  import opened Events

  /** The task is known from the start; run and agent are learned from the first accepted event. */
  datatype Identity = Identity(taskId: string, runId: Option<string>, agentId: Option<string>)

  datatype Verdict = Accepted | Duplicate | Conflict | Gap | TaskMismatch | RunMismatch | AgentMismatch

  function Classify(e: Event, accepted: seq<Event>, identity: Identity): Verdict {
    if e.taskId != identity.taskId then TaskMismatch
    else if identity.runId.Some? && e.runId != identity.runId.value then RunMismatch
    else if identity.agentId.Some? && e.agentId != identity.agentId.value then AgentMismatch
    else if e.sequence < |accepted| then (if accepted[e.sequence].eventId == e.eventId then Duplicate else Conflict)
    else if e.sequence > |accepted| then Gap
    else Accepted
  }

  /** A frame as it arrives; JSON and schema validation have either found an event or not. */
  datatype Frame = NotText | Unparsable | Parsed(event: Event)

  const RECONNECT_DELAYS := [250, 500, 1000, 2000, 4000]
  const CLOSE_NORMAL := 1000
  const NON_RETRYABLE := {4400, 4404, 1003, 4403}

  datatype ConnectionState = Idle | Connecting | Connected | Reconnecting | Completed | Disconnected | Error

  datatype Problem = NonTextMessage | SkippedAhead | ConflictingData | DifferentTaskOrRun | NotUnderstood | Closed(code: int)

  /** What a socket was opened with. */
  datatype Socket = Socket(taskId: string, afterSequence: int, generation: nat)

  datatype Reconnect = Reconnect(afterSequence: int, delay: int)

  /** One socket opening, with how many events had been accepted at that moment. */
  datatype Opening = Opening(taskId: string, afterSequence: int, accepted: nat)

  /**
    The hook's references and state; the sockets with attached handlers and the armed timers; and
    for the record every opening, the notifications sent for this task, the reconnects scheduled,
    the events accepted over all tasks, and the manual resets.
   */
  datatype Client = Client(
    taskId: Option<string>, events: seq<Event>, identity: Identity,
    socket: Option<nat>, generation: nat, timer: Option<nat>, attempt: nat,
    terminalNotified: bool, connection: ConnectionState, lastError: Option<Problem>, terminalReceived: bool,
    attached: map<nat, Socket>, armed: map<nat, Reconnect>, nextId: nat,
    openings: seq<Opening>, notified: seq<Event>, scheduled: nat, acceptedEver: nat, resets: nat)

  const Blank := Client(None, [], Identity("", None, None), None, 0, None, 0, false, Idle, None, false,
                        map[], map[], 0, [], [], 0, 0, 0)

  function ClearTimer(c: Client): Client {
    if c.timer.None? then c else c.(timer := None, armed := c.armed - {c.timer.value})
  }

  function CloseSocket(c: Client): Client {
    if c.socket.None? then c else c.(socket := None, attached := c.attached - {c.socket.value})
  }

  function Schedule(c: Client, afterSequence: int): Client {
    if c.attempt >= |RECONNECT_DELAYS| then c.(connection := Disconnected)
    else
      var cleared := ClearTimer(c);
      cleared.(connection := Reconnecting, attempt := c.attempt + 1, scheduled := c.scheduled + 1,
               timer := Some(c.nextId), nextId := c.nextId + 1,
               armed := cleared.armed[c.nextId := Reconnect(afterSequence, RECONNECT_DELAYS[c.attempt])])
  }

  function Connect(c: Client, afterSequence: int): Client {
    if c.taskId.None? then c
    else
      var closed := CloseSocket(c);
      closed.(connection := Connecting, socket := Some(c.nextId), nextId := c.nextId + 1,
              attached := closed.attached[c.nextId := Socket(c.taskId.value, afterSequence, c.generation)],
              openings := c.openings + [Opening(c.taskId.value, afterSequence, |c.events|)])
  }

  function Resume(c: Client): int {
    |c.events| - 1
  }

  function Accept(c: Client, e: Event): Client {
    var first := IsTerminal(e.body) && !c.terminalNotified;
    c.(identity := if c.identity.runId.None? then Identity(c.identity.taskId, Some(e.runId), Some(e.agentId)) else c.identity,
       events := c.events + [e], attempt := 0, acceptedEver := c.acceptedEver + 1,
       terminalReceived := c.terminalReceived || IsTerminal(e.body),
       terminalNotified := c.terminalNotified || IsTerminal(e.body),
       notified := if first then c.notified + [e] else c.notified)
  }

  function Refuse(c: Client, problem: Problem): Client {
    CloseSocket(c.(lastError := Some(problem))).(connection := Error)
  }

  function OnMessage(c: Client, frame: Frame): Client {
    match frame
    case NotText => c.(lastError := Some(NonTextMessage))
    case Unparsable => Refuse(c, NotUnderstood)
    case Parsed(e) =>
      match Classify(e, c.events, c.identity)
      case Accepted => Accept(c, e)
      case Duplicate => c
      case Gap => Schedule(CloseSocket(c.(lastError := Some(SkippedAhead))), Resume(c))
      case Conflict => Refuse(c, ConflictingData)
      case _ => Refuse(c, DifferentTaskOrRun)
  }

  function OnClose(c: Client, id: nat, code: int): Client {
    var closed := c.(attached := c.attached - {id}, socket := None);
    if code == CLOSE_NORMAL then (if c.terminalNotified then closed.(connection := Completed) else Schedule(closed, Resume(c)))
    else
      var told := closed.(lastError := Some(Closed(code)));
      if code in NON_RETRYABLE then told.(connection := Error) else Schedule(told, Resume(c))
  }

  /** The manual reconnect: a fresh retry budget and an immediate connection. */
  function ManualReconnect(c: Client): Client {
    Connect(ClearTimer(c).(attempt := 0, lastError := None, resets := c.resets + 1), Resume(c))
  }

  /** Teardown of the previous task's effect, if it had one. */
  function Teardown(c: Client): Client {
    if c.taskId.None? then c else CloseSocket(ClearTimer(c.(generation := c.generation + 1)))
  }

  /** Everything known about a task is forgotten, and another one taken up. */
  function Renewed(c: Client, taskId: Option<string>): Client {
    c.(taskId := taskId, events := [], lastError := None, attempt := 0, terminalReceived := false, terminalNotified := false,
       identity := Identity(if taskId.Some? then taskId.value else "", None, None), notified := [], resets := c.resets + 1)
  }

  /** The effect of mounting with a task, or of switching tasks. */
  function SwitchTask(c: Client, taskId: Option<string>): Client {
    var torn := Teardown(c);
    var renewed := Renewed(CloseSocket(ClearTimer(torn.(generation := torn.generation + 1))), taskId);
    if taskId.None? then renewed.(connection := Idle) else Connect(renewed, -1)
  }

  function OnTimer(c: Client, id: nat): Client
    requires id in c.armed
  {
    Connect(c.(armed := c.armed - {id}, timer := None), c.armed[id].afterSequence)
  }

  datatype Input =
    | Opened(id: nat)
    | Message(id: nat, frame: Frame)
    | SocketError(id: nat)
    | SocketClosed(id: nat, code: int)
    | TimerFires(id: nat)
    | UserReconnects
    | TaskChanges(taskId: Option<string>)

  /** The socket still has its handlers, and they belong to the current generation. */
  predicate Heard(c: Client, id: nat) {
    id in c.attached && c.attached[id].generation == c.generation
  }

  function Step(c: Client, input: Input): Client {
    match input
    case Opened(id) => if Heard(c, id) then c.(connection := Connected) else c
    case Message(id, frame) => if Heard(c, id) then OnMessage(c, frame) else c
    case SocketError(_) => c
    case SocketClosed(id, code) => if Heard(c, id) then OnClose(c, id, code) else c
    case TimerFires(id) => if id in c.armed then OnTimer(c, id) else c
    case UserReconnects => ManualReconnect(c)
    case TaskChanges(taskId) => SwitchTask(c, taskId)
  }

  function Exec(c: Client, inputs: seq<Input>): Client
    decreases |inputs|
  {
    if inputs == [] then c else Exec(Step(c, inputs[0]), inputs[1..])
  }

  /** The hook right after mounting with a task; the record of resets starts here. */
  function Mounted(taskId: Option<string>): Client {
    SwitchTask(Blank, taskId).(resets := 0)
  }

  function After(taskId: Option<string>, inputs: seq<Input>): Client {
    Exec(Mounted(taskId), inputs)
  }
}
