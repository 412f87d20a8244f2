/**
  How much of the text parser's outcome list depends on where stdout is cut into chunks,
  answered exactly: not at all if and only if every closed line is within the limit and the
  unfinished one is at most one code unit over it.
 */
module StreamChunking {
  import opened Wrappers
  import opened Lines
  import opened StreamParsing

  /** What every parser keeps between calls. */
  ghost predicate Open<M>(cfg: Config<M>, st: ParserState<M>) {
    |st.buffer| <= cfg.maxLineLength && LF !in st.buffer
  }

  /** The reference: split everything received on LF and fold the line outcome over it. */
  function Reference<M>(cfg: Config<M>, st: ParserState<M>, s: Text): ParserState<M> {
    TakePieces(cfg, st.(buffer := []), Split(st.buffer + s, LF))
  }

  ghost predicate ChunkingIrrelevant<M>(cfg: Config<M>, st: ParserState<M>, s: Text) {
    forall chunks: seq<Text> | Flatten(chunks) == s :: AfterPushes(cfg, st, chunks) == AfterPush(cfg, st, s)
  }

  predicate ChunkSafe<M>(cfg: Config<M>, st: ParserState<M>, s: Text) {
    Short(cfg.maxLineLength, Split(st.buffer + s, LF))
  }

  predicate Short(limit: nat, pieces: seq<Text>)
    requires |pieces| > 0
  {
    && |Tail(pieces)| <= limit + 1
    && forall i :: 0 <= i < |pieces| - 1 ==> |pieces[i]| <= limit
  }

  // ---------------------------------------------------------------------- forward

  lemma PushIsReference<M>(cfg: Config<M>, st: ParserState<M>, s: Text)
    ensures AfterPush(cfg, st, s) == Reference(cfg, st, s)
    ensures Open(cfg, AfterPush(cfg, st, s))
  {
    hide Split;
    var pieces := Split(st.buffer + s, LF);
    TakeLinesIgnoreBuffer(cfg, st, [], Closed(pieces));
    SplitThenJoin(st.buffer + s, LF);
  }

  lemma SplitsShort<M>(limit: nat, front: seq<Text>, rest: seq<Text>)
    requires |rest| > 0
    ensures Short(limit, front + rest) <==>
            Short(limit, rest) && forall i :: 0 <= i < |front| ==> |front[i]| <= limit
  {
    var all := front + rest;
    assert Tail(all) == Tail(rest);
    if Short(limit, all) {
      forall i | 0 <= i < |rest| - 1 ensures |rest[i]| <= limit { assert all[|front| + i] == rest[i]; }
      forall i | 0 <= i < |front| ensures |front[i]| <= limit { assert all[i] == front[i]; }
    }
  }

  lemma CutOnce<M>(cfg: Config<M>, st: ParserState<M>, a: Text, b: Text)
    requires Open(cfg, st) && ChunkSafe(cfg, st, a + b)
    ensures AfterPush(cfg, AfterPush(cfg, st, a), b) == Reference(cfg, st, a + b)
    ensures ChunkSafe(cfg, AfterPush(cfg, st, a), b)
  {
    hide Split;
    var front, line := Closed(Split(st.buffer + a, LF)), Tail(Split(st.buffer + a, LF));
    var rest := Split(line + b, LF);
    var mid := TakeLines(cfg, st.(buffer := []), front);
    SplitAppend(st.buffer + a, b, LF);
    SplitThenJoin(st.buffer + a, LF);
    assert st.buffer + (a + b) == (st.buffer + a) + b;
    assert Closed(front + rest) == front + Closed(rest);
    SplitsShort<M>(cfg.maxLineLength, front, rest);
    TakeLinesAppend(cfg, st.(buffer := []), front, Closed(rest));
    TakeLinesIgnoreBuffer(cfg, st, [], front);
    PushIsReference(cfg, st, a);
    var after := AfterPush(cfg, st, a);
    PushIsReference(cfg, after, b);
    if |line| > cfg.maxLineLength {
      FirstPiece(line, b, LF);
      assert |rest| == 1;
      SplitThenJoin(line + b, LF);
      assert rest[0] == line + b && b == [];
      SplitOnePiece(after.buffer + b, LF);
      assert after == Report(mid, OversizedLine);
      assert TakeLines(cfg, after, Closed([after.buffer + b])) == after;
    }
  }

  /** Every chunking of a safe stream computes the reference. */
  lemma {:induction false} PushesAreReference<M>(cfg: Config<M>, st: ParserState<M>, chunks: seq<Text>)
    requires Open(cfg, st) && ChunkSafe(cfg, st, Flatten(chunks))
    ensures AfterPushes(cfg, st, chunks) == Reference(cfg, st, Flatten(chunks))
    decreases |chunks|
  {
    hide Split;
    if chunks == [] {
      assert st.buffer + Flatten(chunks) == st.buffer;
      SplitOnePiece(st.buffer, LF);
      assert TakeLines(cfg, st.(buffer := []), Closed([st.buffer])) == st.(buffer := []);
    } else {
      CutOnce(cfg, st, chunks[0], Flatten(chunks[1..]));
      PushIsReference(cfg, st, chunks[0]);
      var after := AfterPush(cfg, st, chunks[0]);
      PushIsReference(cfg, after, Flatten(chunks[1..]));
      PushesAreReference(cfg, after, chunks[1..]);
    }
  }

  // --------------------------------------------------------------------- backward

  /**
    Two parsers whose outcome lists can never become equal again, or whose line counters are
    one apart: whatever lines follow, their states stay different.
   */
  ghost predicate Diverged<M>(cfg: Config<M>, x: ParserState<M>, y: ParserState<M>) {
    || |x.outcomes| != |y.outcomes|
    || (exists i :: 0 <= i < |x.outcomes| && i < |y.outcomes| && x.outcomes[i] != y.outcomes[i])
    || (!x.limitReached && !y.limitReached && x.count == y.count + 1 && x.count <= cfg.maxMessages)
  }

  lemma DivergedLine<M>(cfg: Config<M>, x: ParserState<M>, y: ParserState<M>, line: Text)
    requires Diverged(cfg, x, y)
    ensures Diverged(cfg, TakeLine(cfg, x, line), TakeLine(cfg, y, line))
  {
    hide IsBlank;
    var x', y' := TakeLine(cfg, x, line), TakeLine(cfg, y, line);
    if i :| 0 <= i < |x.outcomes| && i < |y.outcomes| && x.outcomes[i] != y.outcomes[i] {
      assert x'.outcomes[i] == x.outcomes[i] && y'.outcomes[i] == y.outcomes[i];
    } else if |x.outcomes| == |y.outcomes| && x'.limitReached {
      assert x'.outcomes[|x.outcomes|] != y'.outcomes[|x.outcomes|];
    }
  }

  lemma {:induction false} DivergedPieces<M>(cfg: Config<M>, x: ParserState<M>, y: ParserState<M>, pieces: seq<Text>)
    requires Diverged(cfg, x, y) && |pieces| > 0
    ensures TakePieces(cfg, x, pieces) != TakePieces(cfg, y, pieces)
    decreases |pieces|
  {
    hide TakeLine;
    if |pieces| > 1 {
      DivergedLine(cfg, x, y, pieces[0]);
      DivergedPieces(cfg, TakeLine(cfg, x, pieces[0]), TakeLine(cfg, y, pieces[0]), pieces[1..]);
      assert Closed(pieces)[1..] == Closed(pieces[1..]);
    } else if i :| 0 <= i < |x.outcomes| && i < |y.outcomes| && x.outcomes[i] != y.outcomes[i] {
      assert TakePieces(cfg, x, pieces).outcomes[i] != TakePieces(cfg, y, pieces).outcomes[i];
    }
  }

  /** A closed line over the limit, taken whole, against its first part dropped and its rest taken as a line. */
  lemma LongLineDiverges<M>(cfg: Config<M>, st: ParserState<M>, line: Text, rest: Text)
    requires |line| > cfg.maxLineLength && (st.limitReached || st.count <= cfg.maxMessages)
    ensures Diverged(cfg, TakeLine(cfg, st, line), TakeLine(cfg, Report(st, OversizedLine), rest))
  {
    hide IsBlank;
    var x, y := TakeLine(cfg, st, line), TakeLine(cfg, Report(st, OversizedLine), rest);
    assert y.outcomes[|st.outcomes|] == OversizedLine;
    assert |Strip(line)| >= cfg.maxLineLength;
    if |x.outcomes| == |y.outcomes| && x.outcomes[|st.outcomes|] == OversizedLine {
      assert IsBlank(Strip(rest));
    }
  }

  lemma {:induction false} CountWithinLimit<M>(cfg: Config<M>, st: ParserState<M>, lines: seq<Text>)
    requires st.limitReached || st.count <= cfg.maxMessages
    ensures var after := TakeLines(cfg, st, lines); after.limitReached || after.count <= cfg.maxMessages
    decreases |lines|
  {
    if lines != [] { CountWithinLimit(cfg, TakeLine(cfg, st, lines[0]), lines[1..]); }
  }

  /** The pieces of a stream whose `i`-th piece is cut after `n` elements. */
  lemma CutPiece(s: Text, i: nat, n: nat) returns (k: nat)
    requires i < |Split(s, LF)| && n <= |Split(s, LF)[i]|
    ensures k <= |s| && n <= k
    ensures Split(s[..k], LF) == Split(s, LF)[..i] + [Split(s, LF)[i][..n]]
    ensures Split(s[k..], LF) == [Split(s, LF)[i][n..]] + Split(s, LF)[i + 1..]
  {
    hide Split;
    var pieces := Split(s, LF);
    var front, back := pieces[..i] + [pieces[i][..n]], [pieces[i][n..]] + pieces[i + 1..];
    SplitThenJoin(s, LF);
    JoinCut(pieces, i, n);
    forall j | 0 <= j < |front| ensures LF !in front[j] { assert front[j] <= pieces[j]; }
    JoinThenSplit(front, LF);
    JoinThenSplit(back, LF);
    k := |Join(front, LF)|;
    assert s[..k] == Join(front, LF) && s[k..] == Join(back, LF);
  }

  lemma {:induction false} JoinCut(pieces: seq<Text>, i: nat, n: nat)
    requires i < |pieces| && n <= |pieces[i]|
    ensures var front, back := pieces[..i] + [pieces[i][..n]], [pieces[i][n..]] + pieces[i + 1..];
            Join(pieces, LF) == Join(front, LF) + Join(back, LF) && n <= |Join(front, LF)|
  {
    var front, back := pieces[..i] + [pieces[i][..n]], [pieces[i][n..]] + pieces[i + 1..];
    assert pieces[i] == pieces[i][..n] + pieces[i][n..];
    if i > 0 {
      JoinCut(pieces[1..], i - 1, n);
      assert front[1..] == pieces[1..][..i - 1] + [pieces[1..][i - 1][..n]];
      assert back == [pieces[1..][i - 1][n..]] + pieces[1..][i..];
      assert Join(front, LF) == pieces[0] + [LF] + Join(front[1..], LF);
    } else if |pieces| > 1 {
      assert back[1..] == pieces[1..];
    } else {
      assert front == [pieces[0][..n]] && back == [pieces[0][n..]];
    }
  }

  /** The first piece that is too long shows the cut: right after the code unit that breaks the limit. */
  lemma LongPieceBreaks<M>(cfg: Config<M>, st: ParserState<M>, s: Text, i: nat)
    requires Open(cfg, st) && (st.limitReached || st.count <= cfg.maxMessages)
    requires var pieces := Split(st.buffer + s, LF);
             i < |pieces| && |pieces[i]| > (if i < |pieces| - 1 then cfg.maxLineLength else cfg.maxLineLength + 1)
    ensures !ChunkingIrrelevant(cfg, st, s)
  {
    hide Split;
    hide TakeLine;
    var bytes := st.buffer + s;
    var pieces := Split(bytes, LF);
    var n := cfg.maxLineLength + 1;
    var k := CutPiece(bytes, i, n);
    var a, b := s[..k - |st.buffer|], s[k - |st.buffer|..];
    assert bytes[..k] == st.buffer + a && bytes[k..] == b && s == a + b;
    var front, head, rest := pieces[..i], pieces[i][..n], pieces[i][n..];
    var mid := TakeLines(cfg, st.(buffer := []), front);
    TakeLinesIgnoreBuffer(cfg, st, [], front);
    assert Closed(front + [head]) == front;
    PushIsReference(cfg, st, a);
    var after := AfterPush(cfg, st, a);
    assert after == Report(mid, OversizedLine);
    CountWithinLimit(cfg, st.(buffer := []), front);
    assert [] + b == b;
    PushIsReference(cfg, st, s);
    TailPieces(cfg, st.(buffer := []), pieces, i);
    if i < |pieces| - 1 {
      LongLineDiverges(cfg, mid, pieces[i], rest);
      TailPieces(cfg, after, [rest] + pieces[i + 1..], 0);
      TailPieces(cfg, mid, pieces[i..], 0);
      assert ([rest] + pieces[i + 1..])[1..] == pieces[i + 1..] == pieces[i..][1..];
      FirstOfPieces(cfg, mid, pieces[i..]);
      FirstOfPieces(cfg, after, [rest] + pieces[i + 1..]);
      DivergedPieces(cfg, TakeLine(cfg, mid, pieces[i]), TakeLine(cfg, after, rest), pieces[i + 1..]);
    } else {
      assert [rest] + pieces[i + 1..] == [rest] && pieces[i..] == [pieces[i]];
      assert TakeLines(cfg, after, Closed([rest])) == after && TakeLines(cfg, mid, Closed([pieces[i]])) == mid;
      assert AfterPush(cfg, after, b) == TakeTail(cfg, after, rest);
    }
    var chunks := [a, b];
    FlattenTwo(a, b);
    assert chunks[1..] == [b] && chunks[2..] == [];
    assert AfterPushes(cfg, st, chunks) == AfterPushes(cfg, after, [b]) == AfterPush(cfg, after, b);
  }

  lemma TailPieces<M>(cfg: Config<M>, st: ParserState<M>, pieces: seq<Text>, i: nat)
    requires i < |pieces|
    ensures TakePieces(cfg, st, pieces) == TakePieces(cfg, TakeLines(cfg, st, pieces[..i]), pieces[i..])
  {
    assert Closed(pieces) == pieces[..i] + Closed(pieces[i..]);
    TakeLinesAppend(cfg, st, pieces[..i], Closed(pieces[i..]));
  }

  lemma FirstOfPieces<M>(cfg: Config<M>, st: ParserState<M>, pieces: seq<Text>)
    requires |pieces| > 1
    ensures TakePieces(cfg, st, pieces) == TakePieces(cfg, TakeLine(cfg, st, pieces[0]), pieces[1..])
  {
    assert Closed(pieces)[1..] == Closed(pieces[1..]);
  }

  // ------------------------------------------------------------------------ the theorem

  /** Every chunking of `s` leaves the same outcomes, counter, latch and buffer if and only if `s` is safe. */
  lemma ChunkIndependence<M>(cfg: Config<M>, st: ParserState<M>, s: Text)
    requires Open(cfg, st) && (st.limitReached || st.count <= cfg.maxMessages)
    ensures ChunkingIrrelevant(cfg, st, s) <==> ChunkSafe(cfg, st, s)
  {
    hide Split;
    if ChunkSafe(cfg, st, s) {
      PushIsReference(cfg, st, s);
      forall chunks: seq<Text> | Flatten(chunks) == s
        ensures AfterPushes(cfg, st, chunks) == AfterPush(cfg, st, s)
      {
        PushesAreReference(cfg, st, chunks);
      }
    } else {
      var pieces := Split(st.buffer + s, LF);
      var i :| 0 <= i < |pieces| && |pieces[i]| > (if i < |pieces| - 1 then cfg.maxLineLength else cfg.maxLineLength + 1);
      LongPieceBreaks(cfg, st, s, i);
    }
  }
}
