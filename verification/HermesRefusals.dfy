/**
  Which error the Hermes parser reports: the one that the first line it refuses deserves.
 */
module HermesRefusals {
  import opened Wrappers
  import opened Lines
  import opened HermesProtocol
  import opened HermesChunking
  import opened HermesTrace

  /** The record continues the events so far, but for the place of the terminal event. */
  predicate Continues(cfg: Config, es: seq<RawEvent>, e: RawEvent) {
    && e.runId == cfg.runId && e.sequence == |es| && (e.kind.RunStarted? <==> es == [])
    && (es != [] ==> e.runtimeVersion == es[0].runtimeVersion)
  }

  predicate IsOver(es: seq<RawEvent>) {
    es != [] && IsTerminal(es[|es| - 1].kind)
  }

  /** Why a line, less its CR, cannot follow the events accepted so far. */
  ghost predicate Refused(cfg: Config, es: seq<RawEvent>, line: seq<Byte>, code: ErrorCode) {
    var sized := 0 < |line| <= cfg.maxLineBytes && |es| < cfg.maxEventCount;
    var readable := sized && cfg.codec.validUtf8(line);
    match code
    case LineTooLarge => |line| > cfg.maxLineBytes
    case EventLimit => 0 < |line| <= cfg.maxLineBytes && |es| >= cfg.maxEventCount
    case InvalidUtf8 => sized && !cfg.codec.validUtf8(line)
    case MalformedJson => readable && cfg.codec.read(line) == NotJson
    case DuplicateTerminal =>
      readable && cfg.codec.read(line).Record? && Continues(cfg, es, cfg.codec.read(line).event) && IsOver(es)
      && IsTerminal(cfg.codec.read(line).event.kind)
    case OutputAfterTerminal =>
      readable && cfg.codec.read(line).Record? && Continues(cfg, es, cfg.codec.read(line).event) && IsOver(es)
      && !IsTerminal(cfg.codec.read(line).event.kind)
    case InvalidEvent =>
      || |line| == 0
      || (readable && cfg.codec.read(line) == WrongShape)
      || (readable && cfg.codec.read(line).Record? && !Continues(cfg, es, cfg.codec.read(line).event))
    case _ => false
  }

  /** A line is refused for its own reason, and for no other; without a reason it is accepted. */
  lemma LineRefused(cfg: Config, es: seq<RawEvent>, line: seq<Byte>)
    requires WellFormedPrefix(cfg, es)
    ensures var after := TakeLine(cfg, StateAfter(es), line);
            forall code :: after.error == Some(code) <==> Refused(cfg, es, Strip(line), code)
  {
  }

  /** The first `i` lines were accepted, and this code refuses the next one, or the unfinished one as too large. */
  ghost predicate FirstRefusal(cfg: Config, lines: seq<seq<Byte>>, rest: seq<Byte>, es: seq<RawEvent>, code: ErrorCode) {
    && |es| <= |lines| && AllEncode(cfg, lines[..|es|], es) && WellFormedPrefix(cfg, es)
    && if |es| < |lines| then Refused(cfg, es, Strip(lines[|es|]), code)
       else |rest| > cfg.maxLineBytes && code == LineTooLarge
  }

  lemma {:induction false} LinesRefused(cfg: Config, lines: seq<seq<Byte>>)
    ensures var after := TakeLines(cfg, Fresh, lines);
            after.error.Some? ==>
              && |after.accepted| < |lines| && AllEncode(cfg, lines[..|after.accepted|], after.accepted)
              && WellFormedPrefix(cfg, after.accepted)
              && Refused(cfg, after.accepted, Strip(lines[|after.accepted|]), after.error.value)
    decreases |lines|
  {
    hide Refused, WellFormedPrefix, CheckLine, Encodes;
    if lines != [] {
      var n := |lines| - 1;
      var front := TakeLines(cfg, Fresh, lines[..n]);
      assert lines == lines[..n] + [lines[n]];
      TakeLinesSnoc(cfg, Fresh, lines[..n], lines[n]);
      LinesRefused(cfg, lines[..n]);
      if front.error.Some? {
        assert lines[..n][..|front.accepted|] == lines[..|front.accepted|];
      } else if TakeLine(cfg, front, lines[n]).error.Some? {
        LinesSound(cfg, lines[..n]);
        LineRefused(cfg, front.accepted, lines[n]);
        assert lines[..|front.accepted|] == lines[..n];
      }
    }
  }

  /**
    The error of a stream within the total limit, in any chunks that cannot meet a saved line, is the
    error of its first refused line; the events returned are those of the lines before it.
   */
  lemma ErrorIsFirstRefusal(cfg: Config, chunks: seq<seq<Byte>>)
    requires |Flatten(chunks)| <= cfg.maxTotalBytes && NoSavedLine(cfg, Fresh, Flatten(chunks))
    ensures var st := AfterPushes(cfg, Fresh, chunks); var pieces := Split(Flatten(chunks), LF);
            st.error.Some? ==> FirstRefusal(cfg, Closed(pieces), Tail(pieces), st.accepted, st.error.value)
  {
    hide NoSavedLine, AfterPushes, Split, Refused, WellFormedPrefix, Encodes;
    var bytes := Flatten(chunks);
    var pieces := Split(bytes, LF);
    PushesAreReference(cfg, Fresh, chunks);
    assert [] + bytes == bytes && Core(Fresh) == Fresh;
    LinesRefused(cfg, Closed(pieces));
    if TakeLines(cfg, Fresh, Closed(pieces)).error.None? {
      LinesSound(cfg, Closed(pieces));
      var es := TakeLines(cfg, Fresh, Closed(pieces)).accepted;
      assert Closed(pieces)[..|es|] == Closed(pieces);
    }
  }
}
