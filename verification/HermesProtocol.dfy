/**
  The byte-level validator for the Hermes runtime's JSONL output.

  `AfterPush` is the specification of one call: split what is buffered plus the new bytes on LF
  and fold the line check over the closed pieces. The class `HermesJsonlParser` scans bytes
  with an index loop, as the program does, and is proved to compute it.
 */
module HermesProtocol {
  import opened Wrappers
  import opened Lines

  type Byte = b: int | 0 <= b < 256

  const LF: Byte := 0x0a
  const CR: Byte := 0x0d
  const MAX_EVENT_BYTES := 24_000
  const MAX_EVENT_COUNT := 2_000
  const MAX_TOTAL_BYTES := 24_000_000

  datatype RawType =
    | RunStarted | MessageDelta | ToolStarted | ToolCompleted | FileChanged
    | RunCompleted | RunFailed | RunCancelled

  predicate IsTerminal(kind: RawType) {
    kind.RunCompleted? || kind.RunFailed? || kind.RunCancelled?
  }

  datatype RawEvent = RawEvent(runtimeVersion: string, runId: string, sequence: nat, kind: RawType, payload: string)

  datatype ErrorCode =
    | InvalidInput | SpawnFailed | StdinFailed | InvalidUtf8 | MalformedJson | InvalidEvent | LineTooLarge
    | OutputLimit | EventLimit | TruncatedOutput | MissingTerminal | DuplicateTerminal
    | OutputAfterTerminal | ProcessExited | TimedOut

  /** What JSON parsing and schema validation make of one line. */
  datatype Reading = NotJson | WrongShape | Record(event: RawEvent)

  /** UTF-8 validation, and JSON plus schema validation, as any deterministic functions. */
  datatype Codec = Codec(validUtf8: seq<Byte> -> bool, read: seq<Byte> -> Reading)

  type Limit = n: int | 0 < n witness 1

  datatype Config = Config(runId: string, maxLineBytes: Limit, maxEventCount: Limit, maxTotalBytes: Limit, codec: Codec)

  /** A configured limit as JavaScript may hold it. */
  datatype LimitOption = Absent | NotInteger | Integer(n: int)

  /** A configured limit can only tighten the built-in maximum. */
  function BoundedLimit(value: LimitOption, maximum: Limit): (limit: Limit)
    ensures limit <= maximum
    ensures value.Integer? && 0 < value.n ==> limit <= value.n
    ensures limit == maximum || value == Integer(limit)
  {
    if value.Integer? && value.n > 0 then (if value.n < maximum then value.n else maximum) else maximum
  }

  /** The parser's fields, and the log of every event it has returned so far. */
  datatype ParserState = ParserState(
    buffer: seq<Byte>,
    totalBytes: nat,
    expected: nat,
    version: Option<string>,
    terminal: Option<RawEvent>,
    error: Option<ErrorCode>,
    accepted: seq<RawEvent>)

  const Fresh := ParserState([], 0, 0, None, None, None, [])

  function Strip(line: seq<Byte>): seq<Byte> {
    if |line| > 0 && line[|line| - 1] == CR then line[..|line| - 1] else line
  }

  function CheckLine(cfg: Config, st: ParserState, line: seq<Byte>): Result<RawEvent, ErrorCode> {
    if |line| == 0 then Err(InvalidEvent)
    else if |line| > cfg.maxLineBytes then Err(LineTooLarge)
    else if st.expected >= cfg.maxEventCount then Err(EventLimit)
    else if !cfg.codec.validUtf8(line) then Err(InvalidUtf8)
    else match cfg.codec.read(line)
      case NotJson => Err(MalformedJson)
      case WrongShape => Err(InvalidEvent)
      case Record(event) =>
        if event.runId != cfg.runId then Err(InvalidEvent)
        else if event.sequence != st.expected then Err(InvalidEvent)
        else if st.expected == 0 && !event.kind.RunStarted? then Err(InvalidEvent)
        else if st.expected > 0 && event.kind.RunStarted? then Err(InvalidEvent)
        else if st.version.Some? && event.runtimeVersion != st.version.value then Err(InvalidEvent)
        else if st.terminal.Some? then
          Err(if IsTerminal(event.kind) then DuplicateTerminal else OutputAfterTerminal)
        else Ok(event)
  }

  function Accept(st: ParserState, event: RawEvent): ParserState {
    st.(version := if st.version.None? then Some(event.runtimeVersion) else st.version,
        expected := st.expected + 1,
        terminal := if IsTerminal(event.kind) then Some(event) else st.terminal,
        accepted := st.accepted + [event])
  }

  function Fail(st: ParserState, code: ErrorCode): ParserState {
    st.(error := Some(code), buffer := [])
  }

  /** One closed line; an earlier error is sticky. */
  function TakeLine(cfg: Config, st: ParserState, line: seq<Byte>): ParserState {
    if st.error.Some? then st
    else match CheckLine(cfg, st, Strip(line))
      case Ok(event) => Accept(st, event)
      case Err(code) => Fail(st, code)
  }

  function TakeLines(cfg: Config, st: ParserState, lines: seq<seq<Byte>>): ParserState
    decreases |lines|
  {
    if lines == [] then st else TakeLines(cfg, TakeLine(cfg, st, lines[0]), lines[1..])
  }

  function TakeTail(cfg: Config, st: ParserState, tail: seq<Byte>): ParserState {
    if st.error.Some? then st
    else if |tail| > cfg.maxLineBytes then Fail(st, LineTooLarge)
    else st.(buffer := tail)
  }

  /** Split on LF, fold the line check, keep the unfinished line. */
  function TakePieces(cfg: Config, st: ParserState, pieces: seq<seq<Byte>>): ParserState
    requires |pieces| > 0
  {
    TakeTail(cfg, TakeLines(cfg, st, Closed(pieces)), Tail(pieces))
  }

  function AfterPush(cfg: Config, st: ParserState, chunk: seq<Byte>): ParserState {
    if st.error.Some? then st
    else
      var counted := st.(totalBytes := st.totalBytes + |chunk|);
      if counted.totalBytes > cfg.maxTotalBytes then Fail(counted, OutputLimit)
      else TakePieces(cfg, counted, Split(st.buffer + chunk, LF))
  }

  function AfterPushes(cfg: Config, st: ParserState, chunks: seq<seq<Byte>>): ParserState
    decreases |chunks|
  {
    if chunks == [] then st else AfterPushes(cfg, AfterPush(cfg, st, chunks[0]), chunks[1..])
  }

  function AfterFinish(cfg: Config, st: ParserState): ParserState {
    if st.error.Some? then st
    else if |st.buffer| > 0 then
      Fail(st, if cfg.codec.validUtf8(st.buffer) then TruncatedOutput else InvalidUtf8)
    else if st.terminal.None? then Fail(st, MissingTerminal)
    else st
  }

  // ---------------------------------------------------------------- the class

  class HermesJsonlParser {
    const cfg: Config
    var buffer: seq<Byte>
    var totalOutputBytes: nat
    var expectedSequence: nat
    var runtimeVersion: Option<string>
    var terminalEvent: Option<RawEvent>
    var error: Option<ErrorCode>
    ghost var accepted: seq<RawEvent>

    ghost function State(): ParserState
      reads this
    {
      ParserState(buffer, totalOutputBytes, expectedSequence, runtimeVersion, terminalEvent, error, accepted)
    }

    constructor (runId: string, lineLimit: LimitOption, eventLimit: LimitOption, totalLimit: LimitOption, codec: Codec)
      ensures State() == Fresh
      ensures cfg == Config(runId, BoundedLimit(lineLimit, MAX_EVENT_BYTES), BoundedLimit(eventLimit, MAX_EVENT_COUNT),
                            BoundedLimit(totalLimit, MAX_TOTAL_BYTES), codec)
    {
      cfg := Config(runId, BoundedLimit(lineLimit, MAX_EVENT_BYTES), BoundedLimit(eventLimit, MAX_EVENT_COUNT),
                    BoundedLimit(totalLimit, MAX_TOTAL_BYTES), codec);
      buffer, totalOutputBytes, expectedSequence := [], 0, 0;
      runtimeVersion, terminalEvent, error := None, None, None;
      accepted := [];
    }

    method ParseLine(line: seq<Byte>) returns (parsed: Result<RawEvent, ErrorCode>)
      modifies this
      ensures parsed == CheckLine(cfg, old(State()), line)
      ensures State() == if parsed.Ok? then Accept(old(State()), parsed.value) else old(State())
    {
      if |line| == 0 { return Err(InvalidEvent); }
      if |line| > cfg.maxLineBytes { return Err(LineTooLarge); }
      if expectedSequence >= cfg.maxEventCount { return Err(EventLimit); }
      if !cfg.codec.validUtf8(line) { return Err(InvalidUtf8); }
      var reading := cfg.codec.read(line);
      if reading.NotJson? { return Err(MalformedJson); }
      if reading.WrongShape? { return Err(InvalidEvent); }
      var event := reading.event;
      if event.runId != cfg.runId { return Err(InvalidEvent); }
      if event.sequence != expectedSequence { return Err(InvalidEvent); }
      if expectedSequence == 0 && event.kind != RunStarted { return Err(InvalidEvent); }
      if expectedSequence > 0 && event.kind == RunStarted { return Err(InvalidEvent); }
      if runtimeVersion != None && Some(event.runtimeVersion) != runtimeVersion { return Err(InvalidEvent); }
      if terminalEvent != None {
        return Err(if IsTerminal(event.kind) then DuplicateTerminal else OutputAfterTerminal);
      }
      if runtimeVersion == None { runtimeVersion := Some(event.runtimeVersion); }
      expectedSequence := expectedSequence + 1;
      if IsTerminal(event.kind) { terminalEvent := Some(event); }
      accepted := accepted + [event];
      return Ok(event);
    }

    method RecordFailure(code: ErrorCode)
      modifies this
      ensures State() == Fail(old(State()), code)
    {
      error := Some(code);
      buffer := [];
    }

    /** The loop body of `Push` for one closed line: strip a CR, parse, and stop for good on an error. */
    method TakeClosedLine(rawLine: seq<Byte>) returns (parsed: Result<RawEvent, ErrorCode>)
      requires error == None
      modifies this
      ensures State() == TakeLine(cfg, old(State()), rawLine)
      ensures if parsed.Ok? then error == None && accepted == old(accepted) + [parsed.value]
              else error == Some(parsed.error) && accepted == old(accepted)
    {
      var line := rawLine;
      if |line| > 0 && line[|line| - 1] == CR { line := line[..|line| - 1]; }
      parsed := ParseLine(line);
      if parsed.Err? { RecordFailure(parsed.error); }
    }

    method Push(chunk: seq<Byte>) returns (events: seq<RawEvent>, failure: Option<ErrorCode>)
      modifies this
      ensures State() == AfterPush(cfg, old(State()), chunk)
      ensures accepted == old(accepted) + events && failure == error
    {
      hide Scanned, Split, TakePieces, TakeLine;
      events := [];
      if error != None { return events, error; }
      totalOutputBytes := totalOutputBytes + |chunk|;
      if totalOutputBytes > cfg.maxTotalBytes {
        RecordFailure(OutputLimit);
        return events, error;
      }
      var combined := if |buffer| == 0 then chunk else buffer + chunk;
      assert combined == buffer + chunk;
      ghost var counted := State();
      var lineStart, index := 0, 0;
      ScanStart(cfg, counted, combined);
      while index < |combined|
        invariant 0 <= lineStart <= index <= |combined|
        invariant Scanned(cfg, counted, combined, lineStart, index, State())
        invariant error == None && accepted == old(accepted) + events
      {
        ScanStep(cfg, counted, combined, lineStart, index, State());
        if combined[index] == LF {
          var parsed := TakeClosedLine(combined[lineStart..index]);
          if parsed.Err? {
            ScanStop(cfg, counted, combined, index + 1, index + 1, State());
            return events, error;
          }
          events := events + [parsed.value];
          lineStart := index + 1;
        }
        index := index + 1;
      }
      ScanEnd(cfg, counted, combined, lineStart, State());
      buffer := combined[lineStart..];
      if |buffer| > cfg.maxLineBytes {
        RecordFailure(LineTooLarge);
      }
      return events, error;
    }

    method Finish() returns (failure: Option<ErrorCode>)
      modifies this
      ensures State() == AfterFinish(cfg, old(State()))
      ensures failure == error
    {
      if error != None { return error; }
      if |buffer| > 0 {
        if !cfg.codec.validUtf8(buffer) { RecordFailure(InvalidUtf8); } else { RecordFailure(TruncatedOutput); }
        return error;
      }
      if terminalEvent == None {
        RecordFailure(MissingTerminal);
      }
      return error;
    }
  }

  // ------------------------------------------------------ facts about the fold

  lemma {:induction false} TakeLinesAppend(cfg: Config, st: ParserState, xs: seq<seq<Byte>>, ys: seq<seq<Byte>>)
    ensures TakeLines(cfg, st, xs + ys) == TakeLines(cfg, TakeLines(cfg, st, xs), ys)
    decreases |xs|
  {
    if xs == [] {
      assert xs + ys == ys;
    } else {
      assert (xs + ys)[1..] == xs[1..] + ys;
      TakeLinesAppend(cfg, TakeLine(cfg, st, xs[0]), xs[1..], ys);
    }
  }

  lemma TakeLinesSnoc(cfg: Config, st: ParserState, xs: seq<seq<Byte>>, y: seq<Byte>)
    ensures TakeLines(cfg, st, xs + [y]) == TakeLine(cfg, TakeLines(cfg, st, xs), y)
  {
    TakeLinesAppend(cfg, st, xs, [y]);
    assert TakeLines(cfg, TakeLine(cfg, TakeLines(cfg, st, xs), y), [y][1..]) == TakeLine(cfg, TakeLines(cfg, st, xs), y);
  }

  lemma {:induction false} TakeLinesSticky(cfg: Config, st: ParserState, lines: seq<seq<Byte>>)
    requires st.error.Some?
    ensures TakeLines(cfg, st, lines) == st
    decreases |lines|
  {
    if lines != [] { TakeLinesSticky(cfg, st, lines[1..]); }
  }

  /** Closed lines never touch the buffer or the byte count, and the log only grows, one event per line. */
  lemma {:induction false} TakeLinesFrame(cfg: Config, st: ParserState, lines: seq<seq<Byte>>)
    ensures var after := TakeLines(cfg, st, lines);
            && st.accepted <= after.accepted
            && after.totalBytes == st.totalBytes
            && (after.error.None? ==> after.buffer == st.buffer && |after.accepted| == |st.accepted| + |lines|)
            && (after.error.Some? && st.error.None? ==> after.buffer == [] && after.error.value != OutputLimit)
    decreases |lines|
  {
    if lines != [] {
      var next := TakeLine(cfg, st, lines[0]);
      TakeLinesFrame(cfg, next, lines[1..]);
      if next.error.Some? { TakeLinesSticky(cfg, next, lines[1..]); }
    }
  }

  /** What the byte loop knows at `index`: the closed lines are taken, and the open line starts at `from`. */
  ghost predicate Scanned(cfg: Config, st: ParserState, bytes: seq<Byte>, from: nat, index: nat, now: ParserState)
    requires from <= index <= |bytes|
  {
    var pieces := Split(bytes[..index], LF);
    bytes[from..index] == Tail(pieces) && now == TakeLines(cfg, st, Closed(pieces))
  }

  lemma ScanStart(cfg: Config, st: ParserState, bytes: seq<Byte>)
    ensures Scanned(cfg, st, bytes, 0, 0, st)
  {
    assert bytes[..0] == [] && Closed(Split<Byte>([], LF)) == [];
  }

  /** One turn of the byte loop: an LF closes the open line, any other byte extends it. */
  lemma ScanStep(cfg: Config, st: ParserState, bytes: seq<Byte>, from: nat, index: nat, now: ParserState)
    requires from <= index < |bytes| && Scanned(cfg, st, bytes, from, index, now)
    ensures bytes[index] != LF ==> Scanned(cfg, st, bytes, from, index + 1, now)
    ensures bytes[index] == LF ==>
              Scanned(cfg, st, bytes, index + 1, index + 1, TakeLine(cfg, now, bytes[from..index]))
  {
    hide Split;
    hide TakeLine;
    var pieces := Split(bytes[..index], LF);
    var line := bytes[from..index];
    SplitSnoc(bytes[..index], bytes[index], LF);
    ReadOne(bytes, from, index);
    if bytes[index] == LF {
      assert Closed(pieces + [[]]) == Closed(pieces) + [line];
      TakeLinesSnoc(cfg, st, Closed(pieces), line);
    }
  }

  lemma ScanEnd(cfg: Config, st: ParserState, bytes: seq<Byte>, from: nat, now: ParserState)
    requires from <= |bytes| && Scanned(cfg, st, bytes, from, |bytes|, now)
    ensures TakePieces(cfg, st, Split(bytes, LF)) == TakeTail(cfg, now, bytes[from..])
  {
    ReadAll(bytes, from);
  }

  /** Once a closed line has failed, the rest of the chunk changes nothing. */
  lemma ScanStop(cfg: Config, st: ParserState, bytes: seq<Byte>, from: nat, index: nat, now: ParserState)
    requires from <= index <= |bytes| && Scanned(cfg, st, bytes, from, index, now) && now.error.Some?
    ensures TakePieces(cfg, st, Split(bytes, LF)) == now
  {
    hide Split;
    var front := Closed(Split(bytes[..index], LF));
    var back := Split(bytes[from..index] + bytes[index..], LF);
    SplitAppend(bytes[..index], bytes[index..], LF);
    assert bytes == bytes[..index] + bytes[index..];
    assert Closed(front + back) == front + Closed(back);
    TakeLinesAppend(cfg, st, front, Closed(back));
    TakeLinesSticky(cfg, now, Closed(back));
  }
}
