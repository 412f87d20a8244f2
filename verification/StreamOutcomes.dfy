/**
  What the text parser reports, line by line: nothing is dropped, reordered or misread.
 */
module StreamOutcomes {
  import opened Lines
  import opened StreamParsing
  import opened StreamChunking

  /** The lines that count: less one trailing CR, and not blank. */
  function Content(lines: seq<Text>): seq<Text> {
    if lines == [] then [] else (if IsBlank(Strip(lines[0])) then [] else [Strip(lines[0])]) + Content(lines[1..])
  }

  /** `o` is the right report for the `i`-th line that counts. */
  ghost predicate Reports<M>(cfg: Config<M>, i: nat, line: Text, o: Outcome<M>) {
    if i >= cfg.maxMessages then o == MessageLimitReached
    else if |line| > cfg.maxLineLength then o == OversizedLine
    else
      && (cfg.read(line).Classified? <==> o.Messages?) && (o.Messages? ==> o.messages == cfg.read(line).messages)
      && (cfg.read(line).Invalid? <==> o.InvalidLine?) && (o.InvalidLine? ==> o.reason == cfg.read(line).reason)
      && (cfg.read(line).NotJson? <==> o.MalformedJson?)
      && (o.MalformedJson? ==> o.snippet == if |line| < 100 then line else line[..100])
  }

  /** The first lines of `lines`, the `k`-th line that counts being next, are reported one by one. */
  ghost predicate AllReported<M>(cfg: Config<M>, k: nat, lines: seq<Text>, outcomes: seq<Outcome<M>>) {
    |outcomes| == |lines| && forall i :: 0 <= i < |lines| ==> Reports(cfg, k + i, lines[i], outcomes[i])
  }

  /** The counter after `k` lines that count; it stops at the first one over the limit. */
  predicate Counted<M>(cfg: Config<M>, st: ParserState<M>, k: nat) {
    && st.limitReached == (k > cfg.maxMessages)
    && st.count == if k <= cfg.maxMessages then k else cfg.maxMessages + 1
  }

  lemma LineReported<M>(cfg: Config<M>, st: ParserState<M>, k: nat, line: Text)
    requires Counted(cfg, st, k)
    ensures var after := TakeLine(cfg, st, line); var added := Content([line]);
      && Counted(cfg, after, k + |added|) && after.buffer == st.buffer
      && st.outcomes <= after.outcomes && AllReported(cfg, k, added, after.outcomes[|st.outcomes|..])
  {
    var one: seq<Text> := [line];
    assert one[1..] == [];
    var after := TakeLine(cfg, st, line);
    if IsBlank(Strip(line)) {
      assert after.outcomes[|st.outcomes|..] == [];
    } else {
      assert Content([line]) == [Strip(line)];
      assert |after.outcomes| == |st.outcomes| + 1;
      assert Reports(cfg, k, Strip(line), after.outcomes[|st.outcomes|]);
    }
  }

  lemma ReportedInParts<M>(cfg: Config<M>, k: nat, xs: seq<Text>, ys: seq<Text>, os: seq<Outcome<M>>, more: seq<Outcome<M>>)
    requires AllReported(cfg, k, xs, os) && AllReported(cfg, k + |xs|, ys, more)
    ensures AllReported(cfg, k, xs + ys, os + more)
  {
    hide Reports;
    forall i | |xs| <= i < |xs + ys| ensures Reports(cfg, k + i, (xs + ys)[i], (os + more)[i]) {
      assert Reports(cfg, k + |xs| + (i - |xs|), ys[i - |xs|], more[i - |xs|]);
    }
  }

  lemma ContentFirst(lines: seq<Text>)
    requires lines != []
    ensures Content(lines) == Content([lines[0]]) + Content(lines[1..])
  {
    assert [lines[0]][1..] == lines[..0];
  }

  lemma {:induction false} LinesReported<M>(cfg: Config<M>, st: ParserState<M>, k: nat, lines: seq<Text>)
    requires Counted(cfg, st, k)
    ensures var after := TakeLines(cfg, st, lines);
      && Counted(cfg, after, k + |Content(lines)|) && after.buffer == st.buffer
      && st.outcomes <= after.outcomes && AllReported(cfg, k, Content(lines), after.outcomes[|st.outcomes|..])
    decreases |lines|
  {
    hide TakeLine, Reports;
    if lines == [] {
      assert st.outcomes[|st.outcomes|..] == [];
    } else {
      hide AllReported, Content, Counted;
      var next := TakeLine(cfg, st, lines[0]);
      var first := Content([lines[0]]);
      LineReported(cfg, st, k, lines[0]);
      LinesReported(cfg, next, k + |first|, lines[1..]);
      ContentFirst(lines);
      var after := TakeLines(cfg, st, lines);
      AddedInSteps(st.outcomes, next.outcomes, after.outcomes);
      ReportedInParts(cfg, k, first, Content(lines[1..]), next.outcomes[|st.outcomes|..], after.outcomes[|next.outcomes|..]);
    }
  }

  /**
    Every line is reported, once, in order and for what it is: for a chunk-safe text in any chunks,
    the outcomes are one per line that counts, then one more if the unfinished line is too long.
   */
  lemma EveryLineIsReported<M>(cfg: Config<M>, chunks: seq<Text>)
    requires ChunkSafe(cfg, Fresh(), Flatten(chunks))
    ensures var st := AfterPushes(cfg, Fresh(), chunks);
            var pieces := Split(Flatten(chunks), LF); var lines, rest := Content(Closed(pieces)), Tail(pieces);
      && |lines| <= |st.outcomes| && AllReported(cfg, 0, lines, st.outcomes[..|lines|])
      && st.outcomes[|lines|..] == (if |rest| > cfg.maxLineLength then [OversizedLine] else [])
      && st.buffer == if |rest| > cfg.maxLineLength then [] else rest
  {
    var text := Flatten(chunks);
    PushesAreReference(cfg, Fresh(), chunks);
    OneTextReported(cfg, text);
    assert [] + text == text;
  }

  /** A text pushed whole needs no condition. */
  lemma OneTextReported<M>(cfg: Config<M>, text: Text)
    ensures var st := AfterPush(cfg, Fresh(), text);
            var pieces := Split(text, LF); var lines, rest := Content(Closed(pieces)), Tail(pieces);
      && |lines| <= |st.outcomes| && AllReported(cfg, 0, lines, st.outcomes[..|lines|])
      && st.outcomes[|lines|..] == (if |rest| > cfg.maxLineLength then [OversizedLine] else [])
      && st.buffer == if |rest| > cfg.maxLineLength then [] else rest
  {
    hide TakeLines, Reports;
    assert [] + text == text;
    var pieces := Split(text, LF);
    LinesReported(cfg, Fresh(), 0, Closed(pieces));
    var closed := TakeLines(cfg, Fresh<M>(), Closed(pieces));
    assert closed.outcomes[|Fresh<M>().outcomes|..] == closed.outcomes;
    var st := AfterPush(cfg, Fresh(), text);
    assert st.outcomes[..|closed.outcomes|] == closed.outcomes;
  }

  /** The end of the text: an unfinished line that is not blank is reported as truncated, and nothing else is. */
  lemma RestIsReported<M>(st: ParserState<M>)
    ensures AfterFlush(st).outcomes == st.outcomes + if IsBlank(st.buffer) then [] else [TruncatedFinalLine]
    ensures AfterFlush(st).buffer == []
  {
  }
}
