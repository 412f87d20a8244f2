/**
  The text-level JSONL parser shared by the Codex and Claude Code adapters. It never stops on
  a bad line: every non-blank line has an outcome, and the caller decides what is fatal.

  Text is a sequence of UTF-16 code units, as in the program; JSON parsing and native-message
  classification of one line are any deterministic function.
 */
module StreamParsing {
  import opened Wrappers
  import opened Lines

  type CodeUnit = u: int | 0 <= u < 0x1_0000
  type Text = seq<CodeUnit>

  const LF: CodeUnit := 0x0a
  const CR: CodeUnit := 0x0d
  const MAX_LINE_LENGTH := 1_000_000
  const MAX_MESSAGES := 2_000
  const SNIPPET_LENGTH := 100

  /** The white space and line terminators that JavaScript's `trim` removes. */
  predicate IsSpace(u: CodeUnit) {
    || 0x09 <= u <= 0x0d || u == 0x20 || u == 0xa0 || u == 0x1680 || 0x2000 <= u <= 0x200a
    || u == 0x2028 || u == 0x2029 || u == 0x202f || u == 0x205f || u == 0x3000 || u == 0xfeff
  }

  predicate IsBlank(t: Text) {
    forall i :: 0 <= i < |t| ==> IsSpace(t[i])
  }

  /** What JSON parsing and classification make of one line. */
  datatype Reading<M> = NotJson | Invalid(reason: string) | Classified(messages: seq<M>)

  datatype Outcome<M> =
    | Messages(messages: seq<M>)
    | MalformedJson(snippet: Text)
    | InvalidLine(reason: string)
    | OversizedLine
    | MessageLimitReached
    | TruncatedFinalLine

  datatype Config<!M> = Config(maxLineLength: nat, maxMessages: nat, read: Text -> Reading<M>)

  /** The parser's fields, and the log of every outcome it has returned so far. */
  datatype ParserState<M> = ParserState(buffer: Text, count: nat, limitReached: bool, outcomes: seq<Outcome<M>>)

  function Fresh<M>(): ParserState<M> {
    ParserState([], 0, false, [])
  }

  /** Exactly one trailing CR goes. */
  function Strip(line: Text): (r: Text)
    ensures if |line| > 0 && line[|line| - 1] == CR then line == r + [CR] else r == line
  {
    if |line| > 0 && line[|line| - 1] == CR then line[..|line| - 1] else line
  }

  function Report<M>(st: ParserState<M>, outcome: Outcome<M>): ParserState<M> {
    st.(outcomes := st.outcomes + [outcome])
  }

  function Snippet(line: Text): Text {
    if |line| <= SNIPPET_LENGTH then line else line[..SNIPPET_LENGTH]
  }

  function LineOutcome<M>(cfg: Config<M>, line: Text): Outcome<M> {
    if |line| > cfg.maxLineLength then OversizedLine
    else match cfg.read(line)
      case NotJson => MalformedJson(Snippet(line))
      case Invalid(reason) => InvalidLine(reason)
      case Classified(messages) => Messages(messages)
  }

  /** One closed line. Blank lines are free; the first line over the message limit latches it. */
  function TakeLine<M>(cfg: Config<M>, st: ParserState<M>, rawLine: Text): ParserState<M> {
    var line := Strip(rawLine);
    if IsBlank(line) then st
    else if st.limitReached then Report(st, MessageLimitReached)
    else if st.count + 1 > cfg.maxMessages then
      Report(st.(count := st.count + 1, limitReached := true), MessageLimitReached)
    else Report(st.(count := st.count + 1), LineOutcome(cfg, line))
  }

  function TakeLines<M>(cfg: Config<M>, st: ParserState<M>, lines: seq<Text>): ParserState<M>
    decreases |lines|
  {
    if lines == [] then st else TakeLines(cfg, TakeLine(cfg, st, lines[0]), lines[1..])
  }

  /** The unfinished line: kept, or reported and dropped when it is already too long. */
  function TakeTail<M>(cfg: Config<M>, st: ParserState<M>, tail: Text): ParserState<M> {
    if |tail| > cfg.maxLineLength then Report(st.(buffer := []), OversizedLine) else st.(buffer := tail)
  }

  function TakePieces<M>(cfg: Config<M>, st: ParserState<M>, pieces: seq<Text>): ParserState<M>
    requires |pieces| > 0
  {
    TakeTail(cfg, TakeLines(cfg, st, Closed(pieces)), Tail(pieces))
  }

  function AfterPush<M>(cfg: Config<M>, st: ParserState<M>, chunk: Text): ParserState<M> {
    TakePieces(cfg, st, Split(st.buffer + chunk, LF))
  }

  function AfterPushes<M>(cfg: Config<M>, st: ParserState<M>, chunks: seq<Text>): ParserState<M>
    decreases |chunks|
  {
    if chunks == [] then st else AfterPushes(cfg, AfterPush(cfg, st, chunks[0]), chunks[1..])
  }

  function AfterFlush<M>(st: ParserState<M>): ParserState<M> {
    if IsBlank(st.buffer) then st.(buffer := []) else Report(st.(buffer := []), TruncatedFinalLine)
  }

  // ---------------------------------------------------------------- the class

  class StreamParser<!M> {
    const cfg: Config<M>
    var buffer: Text
    var processedLineCount: nat
    var limitReached: bool
    ghost var outcomes: seq<Outcome<M>>

    ghost function State(): ParserState<M>
      reads this
    {
      ParserState(buffer, processedLineCount, limitReached, outcomes)
    }

    /** The limits default to 1,000,000 code units and 2,000 messages. */
    constructor (maxLineLength: Option<nat>, maxMessages: Option<nat>, read: Text -> Reading<M>)
      ensures State() == Fresh()
      ensures cfg == Config(if maxLineLength.Some? then maxLineLength.value else MAX_LINE_LENGTH,
                            if maxMessages.Some? then maxMessages.value else MAX_MESSAGES, read)
    {
      cfg := Config(if maxLineLength.Some? then maxLineLength.value else MAX_LINE_LENGTH,
                    if maxMessages.Some? then maxMessages.value else MAX_MESSAGES, read);
      buffer, processedLineCount, limitReached, outcomes := [], 0, false, [];
    }

    method ProcessLine(rawLine: Text) returns (outcome: Option<Outcome<M>>)
      modifies this`processedLineCount, this`limitReached, this`outcomes
      ensures State() == TakeLine(cfg, old(State()), rawLine)
      ensures outcomes == if outcome.Some? then old(outcomes) + [outcome.value] else old(outcomes)
    {
      var line := if |rawLine| > 0 && rawLine[|rawLine| - 1] == CR then rawLine[..|rawLine| - 1] else rawLine;
      if IsBlank(line) { return None; }
      if limitReached {
        outcome := Some(MessageLimitReached);
      } else {
        processedLineCount := processedLineCount + 1;
        if processedLineCount > cfg.maxMessages {
          limitReached := true;
          outcome := Some(MessageLimitReached);
        } else if |line| > cfg.maxLineLength {
          outcome := Some(OversizedLine);
        } else {
          match cfg.read(line)
          case NotJson => outcome := Some(MalformedJson(Snippet(line)));
          case Invalid(reason) => outcome := Some(InvalidLine(reason));
          case Classified(messages) => outcome := Some(Messages(messages));
        }
      }
      outcomes := outcomes + [outcome.value];
    }

    method Push(chunk: Text) returns (reported: seq<Outcome<M>>)
      modifies this
      ensures State() == AfterPush(cfg, old(State()), chunk)
      ensures outcomes == old(outcomes) + reported
    {
      hide Split;
      hide TakeLine;
      buffer := buffer + chunk;
      var pieces := Split(buffer, LF);
      var lines := pieces[..|pieces| - 1];
      buffer := pieces[|pieces| - 1];
      reported := [];
      ghost var start := old(State());
      for i := 0 to |lines|
        invariant State() == TakeLines(cfg, start, lines[..i]).(buffer := buffer)
        invariant buffer == pieces[|pieces| - 1] && outcomes == old(outcomes) + reported
      {
        TakeLinesSnoc(cfg, start, lines[..i], lines[i]);
        TakeLineIgnoresBuffer(cfg, TakeLines(cfg, start, lines[..i]), buffer, lines[i]);
        assert lines[..i + 1] == lines[..i] + [lines[i]];
        var outcome := ProcessLine(lines[i]);
        if outcome.Some? { reported := reported + [outcome.value]; }
      }
      assert lines[..|lines|] == lines;
      if |buffer| > cfg.maxLineLength {
        reported := reported + [OversizedLine];
        outcomes := outcomes + [OversizedLine];
        buffer := [];
      }
    }

    method Flush() returns (reported: seq<Outcome<M>>)
      modifies this
      ensures State() == AfterFlush(old(State()))
      ensures outcomes == old(outcomes) + reported
    {
      var remaining := buffer;
      buffer := [];
      if IsBlank(remaining) { return []; }
      outcomes := outcomes + [TruncatedFinalLine];
      return [TruncatedFinalLine];
    }
  }

  // ------------------------------------------------------------- facts about the fold

  lemma TakeLineIgnoresBuffer<M>(cfg: Config<M>, st: ParserState<M>, b: Text, line: Text)
    ensures TakeLine(cfg, st.(buffer := b), line) == TakeLine(cfg, st, line).(buffer := b)
  {
  }

  lemma {:induction false} TakeLinesIgnoreBuffer<M>(cfg: Config<M>, st: ParserState<M>, b: Text, lines: seq<Text>)
    ensures TakeLines(cfg, st.(buffer := b), lines) == TakeLines(cfg, st, lines).(buffer := b)
    decreases |lines|
  {
    if lines != [] {
      TakeLineIgnoresBuffer(cfg, st, b, lines[0]);
      TakeLinesIgnoreBuffer(cfg, TakeLine(cfg, st, lines[0]), b, lines[1..]);
    }
  }

  lemma {:induction false} TakeLinesAppend<M>(cfg: Config<M>, st: ParserState<M>, xs: seq<Text>, ys: seq<Text>)
    ensures TakeLines(cfg, st, xs + ys) == TakeLines(cfg, TakeLines(cfg, st, xs), ys)
    decreases |xs|
  {
    if xs == [] {
      assert xs + ys == ys;
    } else {
      assert (xs + ys)[1..] == xs[1..] + ys;
      TakeLinesAppend(cfg, TakeLine(cfg, st, xs[0]), xs[1..], ys);
    }
  }

  lemma TakeLinesSnoc<M>(cfg: Config<M>, st: ParserState<M>, xs: seq<Text>, y: Text)
    ensures TakeLines(cfg, st, xs + [y]) == TakeLine(cfg, TakeLines(cfg, st, xs), y)
  {
    TakeLinesAppend(cfg, st, xs, [y]);
    assert TakeLines(cfg, TakeLine(cfg, TakeLines(cfg, st, xs), y), [y][1..]) == TakeLine(cfg, TakeLines(cfg, st, xs), y);
  }
}
