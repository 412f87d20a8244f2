/**
  How much of the Hermes parser's verdict depends on where the operating system cuts stdout
  into chunks, answered exactly.
 */
module HermesChunking {
  import opened Wrappers
  import opened Lines
  import opened HermesProtocol

  /** A parser that has not failed: what every such parser keeps between calls. */
  ghost predicate Open(cfg: Config, st: ParserState) {
    && st.error.None?
    && st.totalBytes <= cfg.maxTotalBytes
    && |st.buffer| <= cfg.maxLineBytes
    && LF !in st.buffer
  }

  /** Everything but the byte counter, which stops counting once the parser has failed. */
  function Visible(st: ParserState): ParserState {
    st.(totalBytes := 0)
  }

  function Core(st: ParserState): ParserState {
    st.(buffer := [], totalBytes := 0)
  }

  /** The reference: split everything received on LF and fold the line check over it. */
  function Reference(cfg: Config, st: ParserState, s: seq<Byte>): ParserState {
    TakePieces(cfg, Core(st), Split(st.buffer + s, LF))
  }

  ghost predicate ChunkingIrrelevant(cfg: Config, st: ParserState, s: seq<Byte>) {
    forall chunks: seq<seq<Byte>> | Flatten(chunks) == s ::
      Visible(AfterPushes(cfg, st, chunks)) == Visible(AfterPush(cfg, st, s))
  }

  /** A closed line of one byte over the limit that only fits because its CR is stripped. */
  predicate SavedByStrip(cfg: Config, line: seq<Byte>) {
    |line| == cfg.maxLineBytes + 1 && line[|line| - 1] == CR
  }

  /** Some such line is reached before any line fails. */
  predicate MeetsSavedLine(cfg: Config, st: ParserState, lines: seq<seq<Byte>>)
    decreases |lines|
  {
    lines != [] && st.error.None? &&
    (SavedByStrip(cfg, lines[0]) || MeetsSavedLine(cfg, TakeLine(cfg, st, lines[0]), lines[1..]))
  }

  predicate NoSavedLine(cfg: Config, st: ParserState, s: seq<Byte>) {
    !MeetsSavedLine(cfg, Core(st), Closed(Split(st.buffer + s, LF)))
  }

  /** The exact condition, readable off the stream before it is cut. */
  predicate ChunkSafe(cfg: Config, st: ParserState, s: seq<Byte>) {
    var room := cfg.maxTotalBytes - st.totalBytes;
    if |s| <= room then NoSavedLine(cfg, st, s)
    else
      0 <= room && LF !in s[..room] && |st.buffer| + room <= cfg.maxLineBytes
  }

  // ------------------------------------------------------- one push, seen without counters

  lemma {:induction false} CoreCommutes(cfg: Config, st: ParserState, lines: seq<seq<Byte>>)
    ensures Core(TakeLines(cfg, st, lines)) == TakeLines(cfg, Core(st), lines)
    decreases |lines|
  {
    if lines != [] {
      CoreCommutes(cfg, TakeLine(cfg, st, lines[0]), lines[1..]);
      assert Core(TakeLine(cfg, st, lines[0])) == TakeLine(cfg, Core(st), lines[0]);
    }
  }

  /** One push within the total limit computes the reference and keeps the parser's shape. */
  lemma PushIsReference(cfg: Config, st: ParserState, s: seq<Byte>)
    requires Open(cfg, st) && st.totalBytes + |s| <= cfg.maxTotalBytes
    ensures var after := AfterPush(cfg, st, s);
            && Visible(after) == Reference(cfg, st, s)
            && (after.error.None? ==> Open(cfg, after) && after.totalBytes == st.totalBytes + |s|)
            && (after.error.Some? ==> after.buffer == [])
  {
    hide Split;
    var pieces := Split(st.buffer + s, LF);
    var counted := st.(totalBytes := st.totalBytes + |s|);
    CoreCommutes(cfg, counted, Closed(pieces));
    TakeLinesFrame(cfg, counted, Closed(pieces));
    SplitThenJoin(st.buffer + s, LF);
  }

  // ------------------------------------------------------------------- two pushes

  lemma {:induction false} MeetsAppend(cfg: Config, st: ParserState, xs: seq<seq<Byte>>, ys: seq<seq<Byte>>)
    ensures MeetsSavedLine(cfg, st, xs + ys) ==
            (MeetsSavedLine(cfg, st, xs) || MeetsSavedLine(cfg, TakeLines(cfg, st, xs), ys))
    decreases |xs|
  {
    if xs == [] {
      assert xs + ys == ys;
    } else {
      assert (xs + ys)[1..] == xs[1..] + ys;
      MeetsAppend(cfg, TakeLine(cfg, st, xs[0]), xs[1..], ys);
      if st.error.Some? { TakeLinesSticky(cfg, st, xs); }
    }
  }

  /** An unfinished line over the limit fails the stream whether the limit is noticed early or late. */
  lemma OversizedPiece(cfg: Config, st: ParserState, line: seq<Byte>, rest: seq<Byte>)
    requires st.error.None? && |line| > cfg.maxLineBytes && LF !in line
    requires !MeetsSavedLine(cfg, st, Closed(Split(line + rest, LF)))
    ensures TakePieces(cfg, st, Split(line + rest, LF)) == Fail(st, LineTooLarge)
  {
    hide Split;
    var pieces := Split(line + rest, LF);
    FirstPiece(line, rest, LF);
    if |pieces| > 1 {
      assert Closed(pieces)[0] == pieces[0];
      TakeLinesSticky(cfg, Fail(st, LineTooLarge), Closed(pieces)[1..]);
    }
  }

  /** Cutting the stream once, after `a`. */
  lemma CutOnce(cfg: Config, st: ParserState, a: seq<Byte>, b: seq<Byte>)
    requires Open(cfg, st) && st.totalBytes + |a| + |b| <= cfg.maxTotalBytes
    requires AfterPush(cfg, st, a).error.None? || NoSavedLine(cfg, st, a + b)
    ensures Visible(AfterPush(cfg, AfterPush(cfg, st, a), b)) == Reference(cfg, st, a + b)
    ensures AfterPush(cfg, st, a).error.None? && NoSavedLine(cfg, st, a + b) ==>
              NoSavedLine(cfg, AfterPush(cfg, st, a), b)
  {
    hide Split;
    hide MeetsSavedLine;
    var front, line := Closed(Split(st.buffer + a, LF)), Tail(Split(st.buffer + a, LF));
    var rest := Split(line + b, LF);
    var mid := TakeLines(cfg, Core(st), front);
    SplitAppend(st.buffer + a, b, LF);
    SplitThenJoin(st.buffer + a, LF);
    assert st.buffer + (a + b) == (st.buffer + a) + b;
    assert Closed(front + rest) == front + Closed(rest);
    MeetsAppend(cfg, Core(st), front, Closed(rest));
    TakeLinesAppend(cfg, Core(st), front, Closed(rest));
    TakeLinesFrame(cfg, Core(st), front);
    PushIsReference(cfg, st, a);
    if mid.error.Some? {
      TakeLinesSticky(cfg, mid, Closed(rest));
    } else if |line| > cfg.maxLineBytes {
      OversizedPiece(cfg, mid, line, b);
    } else {
      PushIsReference(cfg, AfterPush(cfg, st, a), b);
    }
  }

  // --------------------------------------------------------------- any number of pushes

  /** What every parser that has not failed keeps, from its construction through any calls. */
  lemma {:induction false} PushesStayOpen(cfg: Config, st: ParserState, chunks: seq<seq<Byte>>)
    requires Open(cfg, st) && AfterPushes(cfg, st, chunks).error.None?
    ensures Open(cfg, AfterPushes(cfg, st, chunks))
    ensures AfterPushes(cfg, st, chunks).totalBytes == st.totalBytes + |Flatten(chunks)|
    decreases |chunks|
  {
    if chunks != [] {
      var after := AfterPush(cfg, st, chunks[0]);
      if after.error.Some? { PushesSticky(cfg, after, chunks[1..]); }
      PushIsReference(cfg, st, chunks[0]);
      PushesStayOpen(cfg, after, chunks[1..]);
    }
  }

  lemma {:induction false} PushesSticky(cfg: Config, st: ParserState, chunks: seq<seq<Byte>>)
    requires st.error.Some?
    ensures AfterPushes(cfg, st, chunks) == st
    decreases |chunks|
  {
    if chunks != [] { PushesSticky(cfg, st, chunks[1..]); }
  }

  /** Within the total limit: every chunking computes the reference, unless it fails on a saved line. */
  lemma {:induction false} PushesAreReference(cfg: Config, st: ParserState, chunks: seq<seq<Byte>>)
    requires Open(cfg, st) && st.totalBytes + |Flatten(chunks)| <= cfg.maxTotalBytes
    requires AfterPushes(cfg, st, chunks).error.None? || NoSavedLine(cfg, st, Flatten(chunks))
    ensures Visible(AfterPushes(cfg, st, chunks)) == Reference(cfg, st, Flatten(chunks))
    decreases |chunks|
  {
    hide Split;
    if chunks == [] {
      assert st.buffer + Flatten(chunks) == st.buffer;
      SplitOnePiece(st.buffer, LF);
      assert TakeLines(cfg, Core(st), Closed([st.buffer])) == Core(st);
    } else {
      var rest := Flatten(chunks[1..]);
      var after := AfterPush(cfg, st, chunks[0]);
      if after.error.Some? { PushesSticky(cfg, after, chunks[1..]); }
      CutOnce(cfg, st, chunks[0], rest);
      PushIsReference(cfg, st, chunks[0]);
      if after.error.Some? {
        PushesSticky(cfg, after, chunks[1..]);
      } else {
        PushIsReference(cfg, after, rest);
        PushesAreReference(cfg, after, chunks[1..]);
      }
    }
  }

  // ------------------------------------------------------- where chunking does matter

  /** The place of the first saved line. */
  lemma {:induction false} FirstSavedLine(cfg: Config, st: ParserState, lines: seq<seq<Byte>>) returns (i: nat)
    requires MeetsSavedLine(cfg, st, lines)
    ensures i < |lines| && SavedByStrip(cfg, lines[i]) && TakeLines(cfg, st, lines[..i]).error.None?
    decreases |lines|
  {
    if SavedByStrip(cfg, lines[0]) {
      i := 0;
    } else {
      var j := FirstSavedLine(cfg, TakeLine(cfg, st, lines[0]), lines[1..]);
      i := j + 1;
      assert lines[..i][1..] == lines[1..][..j];
    }
  }

  /** Cutting between the CR and the LF of a saved line fails a stream that the whole push takes further. */
  lemma SavedLineBreaks(cfg: Config, st: ParserState, s: seq<Byte>)
    requires Open(cfg, st) && st.totalBytes + |s| <= cfg.maxTotalBytes
    requires !NoSavedLine(cfg, st, s)
    ensures !ChunkingIrrelevant(cfg, st, s)
  {
    hide Split;
    hide MeetsSavedLine;
    hide TakeLine;
    var bytes := st.buffer + s;
    var pieces := Split(bytes, LF);
    var i := FirstSavedLine(cfg, Core(st), Closed(pieces));
    var k := SplitPrefix(bytes, LF, i + 1);
    assert pieces[i] == Closed(pieces)[i];
    var a, b := s[..k - |st.buffer|], s[k - |st.buffer|..];
    assert bytes[..k] == st.buffer + a && s == a + b;
    assert Closed(pieces[..i + 1]) == Closed(pieces)[..i];
    var mid := TakeLines(cfg, Core(st), Closed(pieces)[..i]);
    PushIsReference(cfg, st, a);
    assert Visible(AfterPush(cfg, st, a)) == Fail(mid, LineTooLarge);
    SavedLineGoesFurther(cfg, mid, pieces[i], Closed(pieces)[i + 1..]);
    assert Closed(pieces) == Closed(pieces)[..i] + ([pieces[i]] + Closed(pieces)[i + 1..]);
    TakeLinesAppend(cfg, Core(st), Closed(pieces)[..i], [pieces[i]] + Closed(pieces)[i + 1..]);
    PushIsReference(cfg, st, s);
    Disagree(cfg, st, a, b);
  }

  /** The whole push either accepts the saved line or fails on it for another reason. */
  lemma SavedLineGoesFurther(cfg: Config, st: ParserState, line: seq<Byte>, rest: seq<seq<Byte>>)
    requires st.error.None? && SavedByStrip(cfg, line)
    ensures var after := TakeLines(cfg, st, [line] + rest);
            |after.accepted| > |st.accepted| || (after.error.Some? && after.error != Some(LineTooLarge))
  {
    var next := TakeLine(cfg, st, line);
    assert ([line] + rest)[1..] == rest;
    assert |Strip(line)| == cfg.maxLineBytes;
    TakeLinesFrame(cfg, next, rest);
    if next.error.Some? { TakeLinesSticky(cfg, next, rest); }
  }

  /** Two different results are two different results: the cut is a witness. */
  lemma Disagree(cfg: Config, st: ParserState, a: seq<Byte>, b: seq<Byte>)
    requires AfterPush(cfg, st, a).error.Some?
    requires Visible(AfterPush(cfg, st, a)) != Visible(AfterPush(cfg, st, a + b))
    ensures !ChunkingIrrelevant(cfg, st, a + b)
  {
    var chunks := [a, b];
    FlattenTwo(a, b);
    assert chunks[1..] == [b];
    assert AfterPushes(cfg, st, chunks) == AfterPushes(cfg, AfterPush(cfg, st, a), [b]);
    PushesSticky(cfg, AfterPush(cfg, st, a), [b]);
  }

  // -------------------------------------------------------------- over the total limit

  /** Over the limit with nothing but one short unfinished line before it: every chunking ends the same way. */
  lemma {:induction false} OverLimitSafe(cfg: Config, st: ParserState, chunks: seq<seq<Byte>>)
    requires Open(cfg, st)
    requires var room := cfg.maxTotalBytes - st.totalBytes; var s := Flatten(chunks);
             |s| > room && LF !in s[..room] && |st.buffer| + room <= cfg.maxLineBytes
    ensures Visible(AfterPushes(cfg, st, chunks)) == Visible(Fail(st, OutputLimit))
    decreases |chunks|
  {
    hide Split;
    var room, first, rest := cfg.maxTotalBytes - st.totalBytes, chunks[0], Flatten(chunks[1..]);
    var after := AfterPush(cfg, st, first);
    if |first| > room {
      PushesSticky(cfg, after, chunks[1..]);
    } else {
      assert forall i :: 0 <= i < |first| ==> first[i] == Flatten(chunks)[..room][i];
      SplitOnePiece(st.buffer + first, LF);
      assert TakeLines(cfg, st.(totalBytes := st.totalBytes + |first|), Closed([st.buffer + first])) ==
             st.(totalBytes := st.totalBytes + |first|);
      assert rest[..room - |first|] == Flatten(chunks)[..room][|first|..];
      OverLimitSafe(cfg, after, chunks[1..]);
    }
  }

  lemma OnePieceIsAll(s: seq<Byte>)
    ensures |Split(s, LF)| == 1 ==> Split(s, LF) == [s] && LF !in s
  {
    SplitThenJoin(s, LF);
  }

  /** Over the limit with more than that before it: feeding exactly the allowed bytes first tells the difference. */
  lemma OverLimitBreaks(cfg: Config, st: ParserState, s: seq<Byte>)
    requires Open(cfg, st)
    requires var room := cfg.maxTotalBytes - st.totalBytes;
             |s| > room && (LF in s[..room] || |st.buffer| + room > cfg.maxLineBytes)
    ensures !ChunkingIrrelevant(cfg, st, s)
  {
    hide Split;
    var room := cfg.maxTotalBytes - st.totalBytes;
    var a, b := s[..room], s[room..];
    assert s == a + b;
    var pieces := Split(st.buffer + a, LF);
    var after := AfterPush(cfg, st, a);
    PushIsReference(cfg, st, a);
    TakeLinesFrame(cfg, Core(st), Closed(pieces));
    assert after.error != Some(OutputLimit);
    if after.error.Some? {
      Disagree(cfg, st, a, b);
    } else {
      OnePieceIsAll(st.buffer + a);
      var chunks := [a, b];
      FlattenTwo(a, b);
      assert chunks[1..] == [b] && chunks[2..] == [];
      assert AfterPushes(cfg, st, chunks) == AfterPushes(cfg, after, [b]) == AfterPush(cfg, after, b);
      assert AfterPush(cfg, after, b).accepted == after.accepted;
    }
  }

  // ------------------------------------------------------------------------ the theorem

  /**
    A parser that has not failed gives the same events, buffer and error for every chunking of
    the bytes to come if and only if those bytes are `ChunkSafe`: within the total limit, no
    line that fits only by its stripped CR; beyond it, nothing but a short unfinished line
    before the limit.
   */
  lemma ChunkIndependence(cfg: Config, st: ParserState, s: seq<Byte>)
    requires Open(cfg, st)
    ensures ChunkingIrrelevant(cfg, st, s) <==> ChunkSafe(cfg, st, s)
  {
    hide Split;
    hide MeetsSavedLine;
    var room := cfg.maxTotalBytes - st.totalBytes;
    if !ChunkSafe(cfg, st, s) {
      if |s| <= room { SavedLineBreaks(cfg, st, s); } else { OverLimitBreaks(cfg, st, s); }
    } else {
      forall chunks: seq<seq<Byte>> | Flatten(chunks) == s
        ensures Visible(AfterPushes(cfg, st, chunks)) == Visible(AfterPush(cfg, st, s))
      {
        if |s| <= room {
          PushIsReference(cfg, st, s);
          PushesAreReference(cfg, st, chunks);
        } else {
          OverLimitSafe(cfg, st, chunks);
        }
      }
    }
  }
}
