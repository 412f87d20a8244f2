/**
  Which streams the Hermes parser accepts to the end: exactly the well-formed traces, whatever
  the chunks, and every printed trace comes back.
 */
module HermesTrace {
  import opened Wrappers
  import opened Lines
  import opened HermesProtocol
  import opened HermesChunking

  /** Feed every chunk, then report the end of stdout. */
  function Parse(cfg: Config, chunks: seq<seq<Byte>>): ParserState {
    AfterFinish(cfg, AfterPushes(cfg, Fresh, chunks))
  }

  /** A trace cut short: one run, one runtime version, numbered from 0, started once, nothing after a terminal. */
  ghost predicate WellFormedPrefix(cfg: Config, es: seq<RawEvent>) {
    && |es| <= cfg.maxEventCount
    && forall i :: 0 <= i < |es| ==>
        && es[i].runId == cfg.runId
        && es[i].runtimeVersion == es[0].runtimeVersion
        && es[i].sequence == i
        && (es[i].kind.RunStarted? <==> i == 0)
        && (IsTerminal(es[i].kind) ==> i == |es| - 1)
  }

  /** A whole trace: it also ends with its one terminal event. */
  ghost predicate WellFormed(cfg: Config, es: seq<RawEvent>) {
    WellFormedPrefix(cfg, es) && |es| > 0 && IsTerminal(es[|es| - 1].kind)
  }

  /** The raw line, less one trailing CR, is a record that reads as `e`. */
  ghost predicate Encodes(cfg: Config, rawLine: seq<Byte>, e: RawEvent) {
    var line := Strip(rawLine);
    0 < |line| <= cfg.maxLineBytes && cfg.codec.validUtf8(line) && cfg.codec.read(line) == Record(e)
  }

  ghost predicate AllEncode(cfg: Config, lines: seq<seq<Byte>>, es: seq<RawEvent>) {
    |lines| == |es| && forall i :: 0 <= i < |es| ==> Encodes(cfg, lines[i], es[i])
  }

  /** `s` is a sequence of LF-terminated records that spell the well-formed trace `es`. */
  ghost predicate IsTrace(cfg: Config, s: seq<Byte>, es: seq<RawEvent>) {
    && Tail(Split(s, LF)) == []
    && AllEncode(cfg, Closed(Split(s, LF)), es)
    && WellFormed(cfg, es)
  }

  /** The parser state after accepting exactly `es`. */
  function StateAfter(es: seq<RawEvent>): ParserState {
    ParserState([], 0, |es|,
                if es == [] then None else Some(es[0].runtimeVersion),
                if es != [] && IsTerminal(es[|es| - 1].kind) then Some(es[|es| - 1]) else None,
                None, es)
  }

  lemma LineSound(cfg: Config, es: seq<RawEvent>, line: seq<Byte>)
    requires WellFormedPrefix(cfg, es) && TakeLine(cfg, StateAfter(es), line).error.None?
    ensures var after := TakeLine(cfg, StateAfter(es), line).accepted;
            && |after| == |es| + 1 && after[..|es|] == es
            && Encodes(cfg, line, after[|es|]) && WellFormedPrefix(cfg, after)
            && TakeLine(cfg, StateAfter(es), line) == StateAfter(after)
  {
  }

  lemma LineComplete(cfg: Config, es: seq<RawEvent>, line: seq<Byte>, e: RawEvent)
    requires WellFormedPrefix(cfg, es + [e]) && Encodes(cfg, line, e)
    ensures TakeLine(cfg, StateAfter(es), line) == StateAfter(es + [e])
  {
    var all := es + [e];
    assert all[|es|] == e && |all| == |es| + 1 && all[0].runtimeVersion == e.runtimeVersion;
    if es != [] { assert all[|es| - 1] == es[|es| - 1] && all[0] == es[0]; }
  }

  lemma {:induction false} LinesSound(cfg: Config, lines: seq<seq<Byte>>)
    requires TakeLines(cfg, Fresh, lines).error.None?
    ensures var es := TakeLines(cfg, Fresh, lines).accepted;
            AllEncode(cfg, lines, es) && WellFormedPrefix(cfg, es) && TakeLines(cfg, Fresh, lines) == StateAfter(es)
    decreases |lines|
  {
    if lines != [] {
      hide TakeLine, Encodes, WellFormedPrefix, StateAfter;
      var init, last := lines[..|lines| - 1], lines[|lines| - 1];
      assert lines == init + [last];
      TakeLinesSnoc(cfg, Fresh, init, last);
      TakeLineKeepsError(cfg, TakeLines(cfg, Fresh, init), last);
      LinesSound(cfg, init);
      LineSound(cfg, TakeLines(cfg, Fresh, init).accepted, last);
    }
  }

  lemma TakeLineKeepsError(cfg: Config, st: ParserState, line: seq<Byte>)
    ensures st.error.Some? ==> TakeLine(cfg, st, line).error.Some?
  {
  }

  lemma {:induction false} LinesComplete(cfg: Config, lines: seq<seq<Byte>>, es: seq<RawEvent>)
    requires AllEncode(cfg, lines, es) && WellFormedPrefix(cfg, es)
    ensures TakeLines(cfg, Fresh, lines) == StateAfter(es)
    decreases |lines|
  {
    if lines != [] {
      hide TakeLine, Encodes, StateAfter;
      var n := |lines| - 1;
      assert lines == lines[..n] + [lines[n]] && es == es[..n] + [es[n]];
      TakeLinesSnoc(cfg, Fresh, lines[..n], lines[n]);
      LinesComplete(cfg, lines[..n], es[..n]);
      LineComplete(cfg, es[..n], lines[n], es[n]);
    }
  }

  /**
    Soundness, for every chunking: when all pushes and the final `finish` succeed, the bytes
    received are within the total limit and spell a well-formed trace, and the events returned
    are that trace.
   */
  lemma ParseSound(cfg: Config, chunks: seq<seq<Byte>>)
    requires Parse(cfg, chunks).error.None?
    ensures |Flatten(chunks)| <= cfg.maxTotalBytes
    ensures IsTrace(cfg, Flatten(chunks), Parse(cfg, chunks).accepted)
  {
    hide Split;
    var s := Flatten(chunks);
    PushesStayOpen(cfg, Fresh, chunks);
    PushesAreReference(cfg, Fresh, chunks);
    assert Fresh.buffer + s == s;
    LinesSound(cfg, Closed(Split(s, LF)));
  }

  /** Completeness, for every chunking that cannot meet a line saved by its stripped CR. */
  lemma ParseComplete(cfg: Config, chunks: seq<seq<Byte>>, es: seq<RawEvent>)
    requires IsTrace(cfg, Flatten(chunks), es)
    requires |Flatten(chunks)| <= cfg.maxTotalBytes && NoSavedLine(cfg, Fresh, Flatten(chunks))
    ensures Parse(cfg, chunks).error.None? && Parse(cfg, chunks).accepted == es
  {
    hide Split;
    hide MeetsSavedLine;
    var s := Flatten(chunks);
    PushesAreReference(cfg, Fresh, chunks);
    assert Fresh.buffer + s == s;
    LinesComplete(cfg, Closed(Split(s, LF)), es);
  }

  /** Both directions: for a chunk-safe stream, a successful parse returning `es` is the same thing as a trace. */
  lemma ParseExactlyTraces(cfg: Config, chunks: seq<seq<Byte>>, es: seq<RawEvent>)
    requires |Flatten(chunks)| <= cfg.maxTotalBytes ==> NoSavedLine(cfg, Fresh, Flatten(chunks))
    ensures (Parse(cfg, chunks).error.None? && Parse(cfg, chunks).accepted == es)
            <==> (|Flatten(chunks)| <= cfg.maxTotalBytes && IsTrace(cfg, Flatten(chunks), es))
  {
    if Parse(cfg, chunks).error.None? && Parse(cfg, chunks).accepted == es {
      ParseSound(cfg, chunks);
    } else if |Flatten(chunks)| <= cfg.maxTotalBytes && IsTrace(cfg, Flatten(chunks), es) {
      ParseComplete(cfg, chunks, es);
    }
  }

  // -------------------------------------------------------------------- printing

  function EncodeAll(encode: RawEvent -> seq<Byte>, es: seq<RawEvent>): (lines: seq<seq<Byte>>)
    ensures |lines| == |es| && forall i :: 0 <= i < |es| ==> lines[i] == encode(es[i])
  {
    seq(|es|, i requires 0 <= i < |es| => encode(es[i]))
  }

  /** One record per line, every line closed by LF. */
  function Print(encode: RawEvent -> seq<Byte>, es: seq<RawEvent>): seq<Byte> {
    Join(EncodeAll(encode, es) + [[]], LF)
  }

  /** What an encoder owes its reader: a non-empty line within the limit, without LF or final CR, that reads back. */
  ghost predicate Faithful(cfg: Config, line: seq<Byte>, e: RawEvent) {
    && 0 < |line| <= cfg.maxLineBytes && LF !in line && line[|line| - 1] != CR
    && cfg.codec.validUtf8(line) && cfg.codec.read(line) == Record(e)
  }

  /** Printing a well-formed trace and feeding it in any chunks returns the trace. */
  lemma RoundTrip(cfg: Config, encode: RawEvent -> seq<Byte>, es: seq<RawEvent>, chunks: seq<seq<Byte>>)
    requires WellFormed(cfg, es) && forall i :: 0 <= i < |es| ==> Faithful(cfg, encode(es[i]), es[i])
    requires Flatten(chunks) == Print(encode, es) && |Print(encode, es)| <= cfg.maxTotalBytes
    ensures Parse(cfg, chunks).error.None? && Parse(cfg, chunks).accepted == es
  {
    hide Split;
    var lines := EncodeAll(encode, es);
    JoinThenSplit(lines + [[]], LF);
    assert Closed(lines + [[]]) == lines;
    assert Fresh.buffer + Flatten(chunks) == Flatten(chunks);
    ShortLinesAreNeverSaved(cfg, Core(Fresh), lines);
    ParseComplete(cfg, chunks, es);
  }

  lemma {:induction false} ShortLinesAreNeverSaved(cfg: Config, st: ParserState, lines: seq<seq<Byte>>)
    requires forall i :: 0 <= i < |lines| ==> |lines[i]| <= cfg.maxLineBytes
    ensures !MeetsSavedLine(cfg, st, lines)
    decreases |lines|
  {
    if lines != [] { ShortLinesAreNeverSaved(cfg, TakeLine(cfg, st, lines[0]), lines[1..]); }
  }

  // ------------------------------------------------------------- before the end, or without one

  /** What every parser state keeps, failed or not: its events are a well-formed trace cut short. */
  ghost predicate Orderly(cfg: Config, st: ParserState) {
    WellFormedPrefix(cfg, st.accepted) && (st.error.None? ==> Core(st) == StateAfter(st.accepted))
  }

  lemma {:induction false} LinesOrderly(cfg: Config, st: ParserState, lines: seq<seq<Byte>>)
    requires Orderly(cfg, st)
    ensures Orderly(cfg, TakeLines(cfg, st, lines))
    decreases |lines|
  {
    if lines != [] {
      LineOrderly(cfg, st, lines[0]);
      hide TakeLine, Orderly;
      LinesOrderly(cfg, TakeLine(cfg, st, lines[0]), lines[1..]);
    }
  }

  lemma LineOrderly(cfg: Config, st: ParserState, line: seq<Byte>)
    requires Orderly(cfg, st)
    ensures Orderly(cfg, TakeLine(cfg, st, line))
  {
    var next := TakeLine(cfg, st, line);
    if next.error.None? {
      assert Core(next) == TakeLine(cfg, Core(st), line);
      LineSound(cfg, st.accepted, line);
    }
  }

  /** At any moment, for any bytes in any chunks, the events returned so far are a well-formed trace cut short. */
  lemma {:induction false} EventsArePrefix(cfg: Config, st: ParserState, chunks: seq<seq<Byte>>)
    requires Orderly(cfg, st)
    ensures Orderly(cfg, AfterPushes(cfg, st, chunks))
    decreases |chunks|
  {
    if chunks != [] {
      PushOrderly(cfg, st, chunks[0]);
      hide AfterPush, Orderly;
      EventsArePrefix(cfg, AfterPush(cfg, st, chunks[0]), chunks[1..]);
    }
  }

  lemma PushOrderly(cfg: Config, st: ParserState, chunk: seq<Byte>)
    requires Orderly(cfg, st)
    ensures Orderly(cfg, AfterPush(cfg, st, chunk))
  {
    hide Split, TakeLines;
    LinesOrderly(cfg, st.(totalBytes := st.totalBytes + |chunk|), Closed(Split(st.buffer + chunk, LF)));
  }
}
