/**
  What the Codex run's log says: exactly what stdout said, up to the first thing that ends the run.
 */
module CodexStory {
  import opened Wrappers
  import opened Lines
  import opened Events
  import opened CodexLifecycle
  import opened CodexSafety
  import opened CodexGuarantees
  import opened StreamOutcomes
  import CodexChunking
  import C = StreamChunking
  import P = StreamParsing
  import M = CodexMapping

  // ------------------------------------------------------------------- what stdout says

  /** One thing stdout says: a native message, an unusable line, or something no run survives. */
  datatype Item = Said(message: M.Message) | Bad | Fatal(failure: Failure)

  function ItemsOf(o: P.Outcome<M.Message>): (items: seq<Item>)
    ensures o.Messages? ==> |items| == |o.messages| && forall i :: 0 <= i < |items| ==> items[i] == Said(o.messages[i])
  {
    match o
    case Messages(ms) => seq(|ms|, i requires 0 <= i < |ms| => Said(ms[i]))
    case MalformedJson(_) => [Bad]
    case InvalidLine(_) => [Bad]
    case OversizedLine => [Fatal(LineOversized)]
    case MessageLimitReached => [Fatal(TooManyMessages)]
    case TruncatedFinalLine => [Fatal(StreamTruncated)]
  }

  function Items(os: seq<P.Outcome<M.Message>>): seq<Item> {
    if os == [] then [] else ItemsOf(os[0]) + Items(os[1..])
  }

  function Messages(items: seq<Item>): seq<M.Message> {
    if items == [] then []
    else
      var last := items[|items| - 1];
      Messages(items[..|items| - 1]) + if last.Said? then [last.message] else []
  }

  function Bads(items: seq<Item>): nat {
    if items == [] then 0 else Bads(items[..|items| - 1]) + if items[|items| - 1].Bad? then 1 else 0
  }

  /** The terminal event that the `n`-th item calls for: a reported result, the sixth unusable line, or a fatal one. */
  function EndBody(items: seq<Item>, n: nat): Option<Body>
    requires n < |items|
  {
    match items[n]
    case Said(ResultSuccess(summary)) => Some(RunCompleted(summary))
    case Said(ResultError(message)) => Some(RunFailed("CODEX_EXECUTION_FAILED", message))
    case Said(_) => None
    case Bad => if Bads(items[..n]) >= 5 then Some(RunFailed(TooManyMalformed.code, TooManyMalformed.message)) else None
    case Fatal(failure) => Some(RunFailed(failure.code, failure.message))
  }

  /** The first item that ends the run, or their number if none does. */
  function FirstEnd(items: seq<Item>): (n: nat)
    ensures n <= |items|
    ensures n < |items| ==> EndBody(items, n).Some?
    ensures forall i :: 0 <= i < n ==> EndBody(items, i).None?
  {
    if items == [] then 0
    else
      var front := items[..|items| - 1];
      var n := FirstEnd(front);
      assert forall i :: 0 <= i < |front| ==> EndBody(items, i) == EndBody(front, i) by {
        forall i | 0 <= i < |front| ensures EndBody(items, i) == EndBody(front, i) { assert items[..i] == front[..i]; }
      }
      if n < |front| then n else if EndBody(items, n).Some? then n else |items|
  }

  /** The events of a message history, in order. */
  function Emitted(safe: M.PathCheck, ms: seq<M.Message>): seq<Body> {
    if ms == [] then []
    else
      var out := M.Output(safe, ms, |ms| - 1);
      Emitted(safe, ms[..|ms| - 1]) + if out.Some? then [out.value] else []
  }

  function Bodies(es: seq<Event>): (bodies: seq<Body>)
    ensures |bodies| == |es| && forall i :: 0 <= i < |es| ==> bodies[i] == es[i].body
  {
    seq(|es|, i requires 0 <= i < |es| => es[i].body)
  }

  /** The log of a run that stdout has told these items and nothing else has ended. */
  ghost predicate Told(cfg: Config, items: seq<Item>, out: Outbox) {
    var n := FirstEnd(items);
    Bodies(out.queued) == [RunStarted] + Emitted(cfg.safe, Messages(items[..n])) +
                          if n < |items| then [EndBody(items, n).value] else []
  }

  // ----------------------------------------------------------------------- one item more

  ghost predicate Fed(cfg: Config, items: seq<Item>, s: RunState) {
    && OutboxInv(cfg.ctx, s.out) && Told(cfg, items, s.out)
    && (Terminated(s) <==> FirstEnd(items) < |items|)
    && (!Terminated(s) ==> s.mapper == M.StateAfter(cfg.safe, Messages(items)) && s.malformed == Bads(items))
  }

  function FeedItem(cfg: Config, s: RunState, item: Item): RunState {
    match item
    case Said(m) => TakeMessage(cfg, s, m)
    case Bad => TakeMalformed(cfg, s)
    case Fatal(f) => FailAndTerminate(cfg, s, f)
  }

  lemma EndBodyPrefix(items: seq<Item>, item: Item, n: nat)
    requires n < |items|
    ensures EndBody(items + [item], n) == EndBody(items, n)
  {
    assert (items + [item])[..n] == items[..n];
  }

  lemma CountsSnoc(items: seq<Item>, item: Item)
    ensures Messages(items + [item]) == Messages(items) + if item.Said? then [item.message] else []
    ensures Bads(items + [item]) == Bads(items) + if item.Bad? then 1 else 0
  {
    var all := items + [item];
    assert all[..|all| - 1] == items && all[|all| - 1] == item;
  }

  lemma FirstEndSnoc(items: seq<Item>, item: Item)
    ensures var all := items + [item]; var n := FirstEnd(items);
            FirstEnd(all) == if n < |items| then n else if EndBody(all, |items|).Some? then |items| else |items| + 1
  {
    hide EndBody;
    var all := items + [item];
    assert all[..|all| - 1] == items;
  }

  lemma DeliverBodies(ctx: Context, out: Outbox, body: Body)
    requires OutboxInv(ctx, out) && out.kit.terminal.None?
    ensures Bodies(Deliver(ctx, out, body).queued) == Bodies(out.queued) + [body]
    ensures IsTerminal(body) ==> Bodies(Conclude(ctx, out, body).queued) == Bodies(out.queued) + [body]
  {
  }

  /** An ended run's log does not change whatever stdout goes on to say. */
  lemma EndedFed(cfg: Config, items: seq<Item>, s: RunState, item: Item)
    requires Fed(cfg, items, s) && Terminated(s)
    ensures Fed(cfg, items + [item], FeedItem(cfg, s, item))
  {
    var t := FeedItem(cfg, s, item);
    var n := FirstEnd(items);
    EndedOut(cfg, s, item);
    FirstEndSnoc(items, item);
    EndBodyPrefix(items, item, n);
    assert (items + [item])[..n] == items[..n];
    hide EndBody, FeedItem, OutboxInv, Emitted, Messages, FirstEnd;
    assert Bodies(t.out.queued) == Bodies(s.out.queued);
  }

  lemma EndedOut(cfg: Config, s: RunState, item: Item)
    requires OutboxInv(cfg.ctx, s.out) && Terminated(s)
    ensures var t := FeedItem(cfg, s, item);
            t.out.queued == s.out.queued && Terminated(t) && OutboxInv(cfg.ctx, t.out)
  {
    match item {
      case Said(m) =>
      case Bad => FailOut(cfg, s.(malformed := s.malformed + 1), TooManyMalformed);
      case Fatal(f) => FailOut(cfg, s, f);
    }
    hide FailAndTerminate, OutboxInv;
  }

  lemma FailOut(cfg: Config, s: RunState, f: Failure)
    requires OutboxInv(cfg.ctx, s.out)
    ensures var t := FailAndTerminate(cfg, s, f);
      && OutboxInv(cfg.ctx, t.out) && Terminated(t) && Extends(s.out, t.out)
      && t.mapper == s.mapper && t.malformed == s.malformed && t.parser == s.parser
      && (!Terminated(s) ==> Bodies(t.out.queued) == Bodies(s.out.queued) + [RunFailed(f.code, f.message)])
  {
    ConcludeKeeps(cfg.ctx, s.out, Failed(f));
    if !Terminated(s) { DeliverBodies(cfg.ctx, s.out, Failed(f)); }
    hide Conclude, OutboxInv, Set;
  }

  lemma EmittedSnoc(safe: M.PathCheck, ms: seq<M.Message>, m: M.Message)
    ensures var (mapper, body) := M.Mapped(safe, M.StateAfter(safe, ms), m);
      && M.StateAfter(safe, ms + [m]) == mapper
      && Emitted(safe, ms + [m]) == Emitted(safe, ms) + if body.Some? then [body.value] else []
  {
    hide M.Mapped;
    var all := ms + [m];
    assert all[..|all| - 1] == ms && all[..|ms|] == ms && all[|ms|] == m;
  }

  /** What a live run queues for one item, and what that makes of the log. */
  lemma ToldSnoc(cfg: Config, items: seq<Item>, item: Item, before: Outbox, after: Outbox, added: seq<Body>)
    requires Told(cfg, items, before) && FirstEnd(items) == |items| && Bodies(after.queued) == Bodies(before.queued) + added
    requires var end := EndBody(items + [item], |items|);
             if end.Some? then added == [end.value]
             else Emitted(cfg.safe, Messages(items + [item])) == Emitted(cfg.safe, Messages(items)) + added
    ensures Told(cfg, items + [item], after)
    ensures FirstEnd(items + [item]) < |items + [item]| <==> EndBody(items + [item], |items|).Some?
  {
    var all := items + [item];
    FirstEndSnoc(items, item);
    hide EndBody, Emitted, Messages, FirstEnd;
    assert all[..|items|] == items && items[..|items|] == items && all[..|all|] == all;
    var told := [RunStarted] + Emitted(cfg.safe, Messages(items));
    assert Bodies(before.queued) == told by { assert told + [] == told; }
    if EndBody(all, |items|).None? {
      assert Bodies(after.queued) == [RunStarted] + (Emitted(cfg.safe, Messages(items)) + added) + [];
    }
  }

  /** A message of a live run: its event is queued, and ends the run exactly if it is a result. */
  lemma SaidFed(cfg: Config, items: seq<Item>, s: RunState, m: M.Message)
    requires Fed(cfg, items, s) && !Terminated(s)
    ensures Fed(cfg, items + [Said(m)], TakeMessage(cfg, s, m))
  {
    hide OutboxInv, Deliver, Emitted, FirstEnd, M.Mapped, Clear, Told, Bodies;
    var body := M.Mapped(cfg.safe, s.mapper, m).1;
    var t := TakeMessage(cfg, s, m);
    var added := if body.Some? then [body.value] else [];
    ResultsEnd(cfg.safe, s.mapper, m);
    CountsSnoc(items, Said(m));
    EmittedSnoc(cfg.safe, Messages(items), m);
    if body.Some? {
      DeliverKeeps(cfg.ctx, s.out, body.value);
      DeliverBodies(cfg.ctx, s.out, body.value);
    } else {
      assert Bodies(s.out.queued) + [] == Bodies(s.out.queued);
    }
    ToldSnoc(cfg, items, Said(m), s.out, t.out, added);
  }

  lemma ResultsEnd(safe: M.PathCheck, st: M.MapperState, m: M.Message)
    ensures var body := M.Mapped(safe, st, m).1;
      && (m.ResultSuccess? ==> body == Some(RunCompleted(m.summary)))
      && (m.ResultError? ==> body == Some(RunFailed("CODEX_EXECUTION_FAILED", m.failureMessage)))
      && (!m.ResultSuccess? && !m.ResultError? && body.Some? ==> !IsTerminal(body.value))
  {
  }

  lemma FailureFed(cfg: Config, items: seq<Item>, s: RunState, item: Item)
    requires Fed(cfg, items, s) && !Terminated(s) && !item.Said?
    ensures Fed(cfg, items + [item], FeedItem(cfg, s, item))
  {
    hide OutboxInv, FailAndTerminate, Emitted, FirstEnd, Told, Bodies;
    var t := FeedItem(cfg, s, item);
    CountsSnoc(items, item);
    assert (items + [item])[..|items|] == items;
    FailOut(cfg, s, if item.Fatal? then item.failure else TooManyMalformed);
    FailOut(cfg, s.(malformed := s.malformed + 1), TooManyMalformed);
    var end := EndBody(items + [item], |items|);
    assert Bodies(s.out.queued) + [] == Bodies(s.out.queued);
    assert Messages(items + [item]) == Messages(items);
    assert Emitted(cfg.safe, Messages(items)) + [] == Emitted(cfg.safe, Messages(items));
    ToldSnoc(cfg, items, item, s.out, t.out, if end.Some? then [end.value] else []);
  }

  lemma ItemFed(cfg: Config, items: seq<Item>, s: RunState, item: Item)
    requires Fed(cfg, items, s)
    ensures Fed(cfg, items + [item], FeedItem(cfg, s, item))
  {
    if Terminated(s) { EndedFed(cfg, items, s, item); }
    else if item.Said? { SaidFed(cfg, items, s, item.message); }
    else { FailureFed(cfg, items, s, item); }
    hide Fed, FeedItem;
  }

  lemma {:induction false} MessagesFed(cfg: Config, items: seq<Item>, s: RunState, ms: seq<M.Message>)
    requires Fed(cfg, items, s)
    ensures Fed(cfg, items + ItemsOf(P.Messages(ms)), TakeMessages(cfg, s, ms))
    decreases |ms|
  {
    hide Fed, TakeMessage;
    var all := ItemsOf(P.Messages(ms));
    if ms == [] {
      assert items + all == items;
    } else {
      ItemFed(cfg, items, s, Said(ms[0]));
      MessagesFed(cfg, items + [Said(ms[0])], TakeMessage(cfg, s, ms[0]), ms[1..]);
      assert items + [Said(ms[0])] + ItemsOf(P.Messages(ms[1..])) == items + all;
    }
  }

  lemma {:induction false} OutcomesFed(cfg: Config, items: seq<Item>, s: RunState, os: seq<P.Outcome<M.Message>>)
    requires Fed(cfg, items, s)
    ensures Fed(cfg, items + Items(os), TakeOutcomes(cfg, s, os))
    decreases |os|
  {
    hide Fed, TakeMessages, TakeMalformed, FailAndTerminate;
    if os == [] {
      assert items + Items(os) == items;
    } else {
      match os[0] {
        case Messages(ms) => MessagesFed(cfg, items, s, ms);
        case MalformedJson(_) => ItemFed(cfg, items, s, Bad);
        case InvalidLine(_) => ItemFed(cfg, items, s, Bad);
        case OversizedLine => ItemFed(cfg, items, s, Fatal(LineOversized));
        case MessageLimitReached => ItemFed(cfg, items, s, Fatal(TooManyMessages));
        case TruncatedFinalLine => ItemFed(cfg, items, s, Fatal(StreamTruncated));
      }
      OutcomesFed(cfg, items + ItemsOf(os[0]), TakeOutcome(cfg, s, os[0]), os[1..]);
      assert items + ItemsOf(os[0]) + Items(os[1..]) == items + Items(os);
    }
  }

  lemma {:induction false} ItemsAppend(xs: seq<P.Outcome<M.Message>>, ys: seq<P.Outcome<M.Message>>)
    ensures Items(xs + ys) == Items(xs) + Items(ys)
    decreases |xs|
  {
    hide ItemsOf;
    if xs == [] {
      assert xs + ys == ys;
    } else {
      assert (xs + ys)[1..] == xs[1..] + ys;
      ItemsAppend(xs[1..], ys);
    }
  }

  // --------------------------------------------------------------------- the whole run

  /** The log of a run that something other than stdout has ended. */
  ghost predicate EndedElsewhere(cfg: Config, items: seq<Item>, out: Outbox) {
    && OutboxInv(cfg.ctx, out) && out.completion.Some? && !out.completion.value.body.RunCompleted? && FirstEnd(items) == |items|
    && Bodies(out.queued) == [RunStarted] + Emitted(cfg.safe, Messages(items)) + [out.completion.value.body]
  }

  ghost predicate Story(cfg: Config, s: RunState) {
    if s.handle.None? then
      && s.parser == P.Fresh() && s.mapper == M.Fresh && s.malformed == 0
      && (s.out.completion.Some? ==> !s.out.completion.value.body.RunCompleted?)
    else
      var items := Items(s.parser.outcomes);
      Fed(cfg, items, s) || EndedElsewhere(cfg, items, s.out)
  }

  /** Feeding what the parser newly reported. */
  lemma ReportedFed(cfg: Config, s: RunState, parser: P.ParserState<M.Message>)
    requires Story(cfg, s) && s.handle.Some? && !Terminated(s) && s.parser.outcomes <= parser.outcomes
    ensures var t := TakeOutcomes(cfg, s.(parser := parser), Reported(s.parser, parser));
            Fed(cfg, Items(parser.outcomes), t) && t.parser == parser && SameChild(s, t)
  {
    var items, os := Items(s.parser.outcomes), Reported(s.parser, parser);
    assert Fed(cfg, items, s.(parser := parser)) by { hide OutboxInv, Told; }
    hide Fed, TakeOutcomes;
    assert parser.outcomes == s.parser.outcomes + os;
    ItemsAppend(s.parser.outcomes, os);
    OutcomesFed(cfg, items, s.(parser := parser), os);
    CodexChunking.OutcomesKeepParser(cfg, s.(parser := parser), os);
    ChildStays(cfg, s.(parser := parser), os);
  }

  /** What stdout says does not change what is known about the process. */
  predicate SameChild(s: RunState, t: RunState) {
    t.handle == s.handle && t.exitInfo == s.exitInfo && t.stdoutEnded == s.stdoutEnded && t.cancel == s.cancel
  }

  lemma {:induction false} ChildStays(cfg: Config, s: RunState, os: seq<P.Outcome<M.Message>>)
    ensures SameChild(s, TakeOutcomes(cfg, s, os))
    decreases |os|
  {
    if os != [] {
      hide TakeOutcome;
      ChildStaysOnce(cfg, s, os[0]);
      ChildStays(cfg, TakeOutcome(cfg, s, os[0]), os[1..]);
    }
  }

  lemma ChildStaysOnce(cfg: Config, s: RunState, o: P.Outcome<M.Message>)
    ensures SameChild(s, TakeOutcome(cfg, s, o))
  {
    hide Set, Conclude, TakeMessages;
    if o.Messages? { ChildStaysMessages(cfg, s, o.messages); }
  }

  lemma {:induction false} ChildStaysMessages(cfg: Config, s: RunState, ms: seq<M.Message>)
    ensures SameChild(s, TakeMessages(cfg, s, ms))
    decreases |ms|
  {
    hide M.Mapped, Deliver, Clear;
    if ms != [] { ChildStaysMessages(cfg, TakeMessage(cfg, s, ms[0]), ms[1..]); }
  }

  /** Nothing is said and nothing ends. */
  lemma QuietStory(cfg: Config, s: RunState, t: RunState)
    requires Story(cfg, s) && t.handle == s.handle && t.out == s.out
    requires t.parser == s.parser && t.mapper == s.mapper && t.malformed == s.malformed
    ensures Story(cfg, t)
  {
    hide OutboxInv, Told;
  }

  /** Something other than stdout ends the run, or finds it ended. */
  lemma EndingStory(cfg: Config, s: RunState, t: RunState, body: Body)
    requires Story(cfg, s) && s.handle.Some? && t.handle.Some? && OutboxInv(cfg.ctx, s.out) && IsTerminal(body) && !body.RunCompleted?
    requires t.out == Conclude(cfg.ctx, s.out, body) && t.parser == s.parser && t.mapper == s.mapper && t.malformed == s.malformed
    ensures Story(cfg, t) && Terminated(t)
    ensures !Terminated(s) ==> EndedElsewhere(cfg, Items(t.parser.outcomes), t.out) && t.out.completion.value.body == body
  {
    var items := Items(s.parser.outcomes);
    ConcludeKeeps(cfg.ctx, s.out, body);
    if !Terminated(s) {
      DeliverBodies(cfg.ctx, s.out, body);
      assert items[..|items|] == items;
      Concluded(cfg.ctx, s.out, body);
    }
    hide Conclude, WellFormedLog, Bodies, Emitted, FirstEnd, EndBody;
    assert !Terminated(s) ==> Bodies(s.out.queued) == [RunStarted] + Emitted(cfg.safe, Messages(items));
  }

  lemma Concluded(ctx: Context, out: Outbox, body: Body)
    requires OutboxInv(ctx, out) && out.kit.terminal.None? && IsTerminal(body)
    ensures Conclude(ctx, out, body).completion.Some? && Conclude(ctx, out, body).completion.value.body == body
  {
  }

  lemma TerminateTouches(cfg: Config, s: RunState)
    ensures var t := TerminateProcess(cfg, s);
            t == s.(terminationStarted := t.terminationStarted, os := t.os, bells := t.bells)
  {
    hide Set;
  }

  lemma FailStory(cfg: Config, s: RunState, f: Failure)
    requires Story(cfg, s) && s.handle.Some? && OutboxInv(cfg.ctx, s.out)
    ensures Story(cfg, FailAndTerminate(cfg, s, f)) && Terminated(FailAndTerminate(cfg, s, f))
    ensures !Terminated(s) ==> FailAndTerminate(cfg, s, f).out.completion.value.body == RunFailed(f.code, f.message)
    ensures !Terminated(s) ==> FailAndTerminate(cfg, s, f).out.completion.Some?
    ensures FailAndTerminate(cfg, s, f).handle == s.handle
  {
    hide Story, OutboxInv, Conclude;
    TerminateTouches(cfg, Finish(cfg, s, Failed(f)));
    hide TerminateProcess;
    EndingStory(cfg, s, FailAndTerminate(cfg, s, f), Failed(f));
  }

  lemma DataStory(cfg: Config, s: RunState, text: P.Text)
    requires Story(cfg, s) && s.handle.Some?
    ensures Story(cfg, OnData(cfg, s, text))
  {
    hide Story, P.AfterPush, TakeOutcomes, Set, Clear;
    var ready := ArmInactivity(cfg, ClearStartup(s));
    QuietStory(cfg, s, ready);
    if !Terminated(ready) {
      CodexChunking.PushGrows(ParserConfig(cfg), ready.parser, text);
      ReportedFed(cfg, ready, P.AfterPush(ParserConfig(cfg), ready.parser, text));
      FedIsStory(cfg, OnData(cfg, s, text));
    }
  }

  lemma FedIsStory(cfg: Config, s: RunState)
    requires s.handle.Some? && Fed(cfg, Items(s.parser.outcomes), s)
    ensures Story(cfg, s) && OutboxInv(cfg.ctx, s.out)
  {
  }

  /** The state at the very end, after the parser's rest has been looked at. */
  function Flushed(cfg: Config, s: RunState): RunState {
    var parser := P.AfterFlush(s.parser);
    if Terminated(s) then s else TakeOutcomes(cfg, s.(parser := parser), Reported(s.parser, parser))
  }

  lemma FlushedStory(cfg: Config, s: RunState)
    requires Story(cfg, s) && s.handle.Some? && OutboxInv(cfg.ctx, s.out)
    ensures var t := Flushed(cfg, s); Story(cfg, t) && OutboxInv(cfg.ctx, t.out) && SameChild(s, t)
  {
    hide Story, TakeOutcomes, OutboxInv;
    if !Terminated(s) {
      RestIsReported(s.parser);
      ReportedFed(cfg, s, P.AfterFlush(s.parser));
      FedIsStory(cfg, Flushed(cfg, s));
    }
  }

  lemma FinalizeStory(cfg: Config, s: RunState)
    requires Story(cfg, s) && s.handle.Some? && OutboxInv(cfg.ctx, s.out)
    ensures Story(cfg, TryFinalize(cfg, s))
  {
    hide Story, OutboxInv, Conclude, ClearAll;
    var flushed := Flushed(cfg, s);
    FlushedStory(cfg, s);
    var t := TryFinalize(cfg, s);
    if s.exitInfo.Some? && s.stdoutEnded {
      if Terminated(flushed) {
        QuietStory(cfg, flushed, t);
      } else if flushed.cancel.requested {
        EndingStory(cfg, flushed, t, RunCancelled(flushed.cancel.who, flushed.cancel.reason));
      } else {
        EndingStory(cfg, flushed, t, Failed(if s.exitInfo.value.code == Some(0) then ResultMissing else ExitedWith(s.exitInfo.value.code)));
      }
    }
  }

  /** A spawned process: announced, and if its prompt cannot be written, failed. */
  lemma SpawnStory(cfg: Config, s: RunState, pid: Option<nat>, writeThrows: bool)
    requires Story(cfg, s) && s.handle.None? && OutboxInv(cfg.ctx, s.out) && !Terminated(s) && s.out.queued == []
    ensures Story(cfg, LaunchProcess(cfg, s, Spawned(pid, writeThrows)))
    ensures var t := LaunchProcess(cfg, s, Spawned(pid, writeThrows));
            t.handle == Some(ProcessHandle(pid)) &&
            if writeThrows then t.out.completion.Some? && t.out.completion.value.body == RunFailed(PromptLost.code, PromptLost.message)
            else t.out.completion.None? && Bodies(t.out.queued) == [RunStarted]
  {
    hide Story, Set, Clear, FailAndTerminate, Supervise;
    var live := s.(phase := Live, liveAt := s.bells.clock.now, bells := Set(s.bells, MaxDuration, cfg.maxDuration),
                   os := s.os.(spawns := s.os.spawns + 1));
    var ready := Supervise(cfg, live, pid);
    Supervised(cfg, s, live, pid);
    QuietStory(cfg, ready, ready.(stdinFailed := true));
    FailStory(cfg, ready.(stdinFailed := true), PromptLost);
  }

  lemma Supervised(cfg: Config, s: RunState, live: RunState, pid: Option<nat>)
    requires Story(cfg, s) && s.handle.None? && OutboxInv(cfg.ctx, s.out) && !Terminated(s) && s.out.queued == []
    requires live == s.(phase := Live, liveAt := live.liveAt, bells := live.bells, os := live.os)
    ensures var ready := Supervise(cfg, live, pid);
      && Story(cfg, ready) && !Terminated(ready) && OutboxInv(cfg.ctx, ready.out) && ready.handle == Some(ProcessHandle(pid))
      && Bodies(ready.out.queued) == [RunStarted] && ready.out.completion.None?
  {
    hide Set, Clear, Fed;
    DeliverKeeps(cfg.ctx, s.out, RunStarted);
    DeliverBodies(cfg.ctx, s.out, RunStarted);
    NothingQueued(s.out);
    StillIncomplete(cfg.ctx, s.out);
    hide Deliver, OutboxInv, Bodies;
    Beginning(cfg, Supervise(cfg, live, pid));
    FedIsStory(cfg, Supervise(cfg, live, pid));
  }

  lemma NothingQueued(out: Outbox)
    requires out.queued == []
    ensures Bodies(out.queued) + [RunStarted] == [RunStarted]
  {
  }

  lemma StillIncomplete(ctx: Context, out: Outbox)
    requires OutboxInv(ctx, out) && out.kit.terminal.None?
    ensures Deliver(ctx, out, RunStarted).completion.None?
  {
  }

  lemma Beginning(cfg: Config, s: RunState)
    requires OutboxInv(cfg.ctx, s.out) && !Terminated(s) && Bodies(s.out.queued) == [RunStarted]
    requires s.parser == P.Fresh() && s.mapper == M.Fresh && s.malformed == 0
    ensures Items(s.parser.outcomes) == [] && Fed(cfg, [], s)
  {
    assert [RunStarted] + Emitted(cfg.safe, []) + [] == [RunStarted];
  }

  /** A run without a process ends, or had ended. */
  lemma UnspawnedStory(cfg: Config, s: RunState, t: RunState, body: Body)
    requires Story(cfg, s) && s.handle.None? && t.handle.None? && !body.RunCompleted?
    requires t.out == Conclude(cfg.ctx, s.out, body) && t.parser == s.parser && t.mapper == s.mapper && t.malformed == s.malformed
    ensures Story(cfg, t)
  {
  }

  lemma LaunchStory(cfg: Config, s: RunState, launch: Launch)
    requires Inv(cfg, s) && Story(cfg, s) && (s.phase.Idle? || s.phase.Gating?)
    ensures Story(cfg, LaunchProcess(cfg, s, launch))
  {
    hide Story, Set, Conclude, OutboxInv, BellsInv;
    match launch {
      case Spawned(pid, writeThrows) => SpawnStory(cfg, s, pid, writeThrows);
      case SpawnThrows => UnspawnedStory(cfg, s, LaunchProcess(cfg, s, launch), Failed(NotStarted));
    }
  }

  lemma IterateStory(cfg: Config, s: RunState, launch: Launch)
    requires Inv(cfg, s) && Story(cfg, s)
    ensures Story(cfg, OnIterate(cfg, s, launch))
  {
    hide Story, Clear, Conclude, OutboxInv, BellsInv, LaunchProcess;
    if !s.phase.Idle? {
    } else if s.cancel.recorded {
      UnspawnedStory(cfg, s, OnIterate(cfg, s, launch), RunCancelled(s.cancel.who, s.cancel.reason));
    } else if cfg.hasGate {
      QuietStory(cfg, s, s.(phase := Gating));
    } else {
      LaunchStory(cfg, s, launch);
    }
  }

  lemma GateStory(cfg: Config, s: RunState, result: GateResult, launch: Launch)
    requires Inv(cfg, s) && Story(cfg, s) && s.phase.Gating?
    ensures Story(cfg, OnGate(cfg, s, result, launch))
  {
    hide Story, Clear, Conclude, OutboxInv, BellsInv, LaunchProcess;
    var t := OnGate(cfg, s, result, launch);
    if s.cancel.recorded || (result.Refused? && result.cancelled) {
      UnspawnedStory(cfg, s, t, RunCancelled(s.cancel.who, s.cancel.reason));
    } else {
      match result {
        case Passed => LaunchStory(cfg, s, launch);
        case GateThrew => UnspawnedStory(cfg, s, t, Failed(NotPrepared));
        case Refused(_, failure) => UnspawnedStory(cfg, s, t, Failed(if failure.Some? then failure.value else GateRefused));
      }
    }
  }

  lemma StepStory(cfg: Config, s: RunState, input: Input)
    requires Inv(cfg, s) && Story(cfg, s)
    ensures Story(cfg, Step(cfg, s, input))
  {
    hide Story, Set, Clear, OutboxInv, BellsInv, TryFinalize, FailAndTerminate, Conclude, TerminateProcess, OnData, OnIterate, OnGate;
    if !Enabled(s, input) { return; }
    match input {
      case Iterate(launch) => IterateStory(cfg, s, launch);
      case GateResolved(result, launch) => GateStory(cfg, s, result, launch);
      case Cancel(who, reason) => CancelStory(cfg, s, who, reason);
      case StdoutData(text) => DataStory(cfg, s, text);
      case StdoutEnd =>
        var ended := s.(stdoutEnded := true, bells := Clear(s.bells, Drain));
        QuietStory(cfg, s, ended);
        FinalizeStory(cfg, ended);
      case Exit(info) =>
        var exited := ClearStartup(s).(exitInfo := Some(info));
        var waiting := if s.stdoutEnded then exited else exited.(bells := Set(exited.bells, Drain, cfg.drain));
        QuietStory(cfg, s, waiting);
        FinalizeStory(cfg, waiting);
      case StdinError =>
        QuietStory(cfg, s, s.(stdinFailed := true));
        FailStory(cfg, s.(stdinFailed := true), PromptLost);
      case ProcessError => EndingStory(cfg, s, Step(cfg, s, input), Failed(ProcessCrashed));
      case Fire(id) => FireStory(cfg, s, id);
      case _ => QuietStory(cfg, s, Step(cfg, s, input));
    }
  }

  lemma CancelStory(cfg: Config, s: RunState, who: CancelledBy, reason: Option<string>)
    requires Story(cfg, s)
    ensures Story(cfg, OnCancel(cfg, s, who, reason)) && OnCancel(cfg, s, who, reason).out == s.out
  {
    hide Story;
    TerminateTouches(cfg, s.(cancel := Cancellation(true, true, who, reason)));
    hide TerminateProcess;
    QuietStory(cfg, s, OnCancel(cfg, s, who, reason));
  }

  lemma FireStory(cfg: Config, s: RunState, id: nat)
    requires Inv(cfg, s) && Story(cfg, s) && id in s.bells.clock.armed
    ensures Story(cfg, OnFire(cfg, s, id))
  {
    if s.handle.None? { UnspawnedFire(cfg, s, id); return; }
    hide Story, OutboxInv, BellsInv, TryFinalize, FailAndTerminate;
    var rung := s.(bells := s.bells.(clock := Timers.Disarm(s.bells.clock, Some(id))));
    QuietStory(cfg, s, rung);
    match s.bells.clock.armed[id].kind {
      case Startup => FailStory(cfg, rung, StartupSilence);
      case Grace => QuietStory(cfg, s, OnFire(cfg, s, id));
      case MaxDuration => FailStory(cfg, rung, TookTooLong);
      case Inactivity => FailStory(cfg, rung, WentSilent);
      case Drain =>
        QuietStory(cfg, s, rung.(stdoutEnded := true));
        FinalizeStory(cfg, rung.(stdoutEnded := true));
    }
  }

  lemma UnspawnedFire(cfg: Config, s: RunState, id: nat)
    requires Story(cfg, s) && s.handle.None? && s.exitInfo.None? && id in s.bells.clock.armed
    ensures Story(cfg, OnFire(cfg, s, id))
  {
    hide Story, Conclude;
    var t := OnFire(cfg, s, id);
    match s.bells.clock.armed[id].kind {
      case Startup => UnspawnedStory(cfg, s, t, Failed(StartupSilence));
      case MaxDuration => UnspawnedStory(cfg, s, t, Failed(TookTooLong));
      case Inactivity => if !Terminated(s) { UnspawnedStory(cfg, s, t, Failed(WentSilent)); } else { QuietStory(cfg, s, t); }
      case _ => QuietStory(cfg, s, t);
    }
  }

  lemma {:induction false} ExecStory(cfg: Config, s: RunState, inputs: seq<Input>)
    requires Inv(cfg, s) && Story(cfg, s)
    ensures Story(cfg, Exec(cfg, s, inputs))
    decreases |inputs|
  {
    if inputs != [] {
      hide Inv, Story, Step;
      StepPreserves(cfg, s, inputs[0]);
      StepStory(cfg, s, inputs[0]);
      ExecStory(cfg, Step(cfg, s, inputs[0]), inputs[1..]);
    }
  }

  /**
    The log, exactly. Once a process was spawned, the log is the start, then the events of every message
    stdout has said up to the first thing that ends a run, and then the one terminal event: what that
    first thing calls for, or, if stdout has said no such thing, whatever else ended the run.
   */
  lemma LogIsTold(cfg: Config, inputs: seq<Input>)
    requires After(cfg, inputs).handle.Some?
    ensures var s := After(cfg, inputs); var items := Items(s.parser.outcomes); var n := FirstEnd(items);
      && Bodies(s.out.queued) == [RunStarted] + Emitted(cfg.safe, Messages(items[..n])) +
           (if n < |items| then [EndBody(items, n).value] else if s.out.completion.Some? then [s.out.completion.value.body] else [])
      && (n < |items| ==> s.out.completion.Some? && s.out.completion.value.body == EndBody(items, n).value)
      && (n == |items| && s.out.completion.Some? ==> !s.out.completion.value.body.RunCompleted?)
  {
    AfterStory(cfg, inputs);
    OneTerminal(cfg, inputs, []);
    assert inputs + [] == inputs;
    hide After, Emitted, EndBody, WellFormedLog, Items;
    var s := After(cfg, inputs);
    var items := Items(s.parser.outcomes);
    var n := FirstEnd(items);
    assert items[..|items|] == items;
    if Fed(cfg, items, s) && n < |items| {
      assert Bodies(s.out.queued)[|s.out.queued| - 1] == EndBody(items, n).value;
    }
  }

  lemma AfterStory(cfg: Config, inputs: seq<Input>)
    ensures Story(cfg, After(cfg, inputs)) && Inv(cfg, After(cfg, inputs))
  {
    hide Inv;
    Reachable(cfg, inputs);
    Reachable(cfg, []);
    ExecStory(cfg, Initial(), inputs);
  }

  // ------------------------------------------------------------------------- from text

  /** The texts heard on stdout before the run had ended, oldest first. */
  function Heard(cfg: Config, inputs: seq<Input>): seq<P.Text>
    decreases |inputs|
  {
    if inputs == [] then []
    else
      var before, last := inputs[..|inputs| - 1], inputs[|inputs| - 1];
      var s := After(cfg, before);
      Heard(cfg, before) + if last.StdoutData? && Enabled(s, last) && s.out.completion.None? then [last.text] else []
  }

  /** The run had not ended when exit and end of stdout were both in, so the rest of stdout was looked at. */
  predicate Exhausted(cfg: Config, inputs: seq<Input>)
    decreases |inputs|
  {
    inputs != [] &&
    var before, last := inputs[..|inputs| - 1], inputs[|inputs| - 1];
    Exhausted(cfg, before) || (CodexChunking.Finalizes(After(cfg, before), last) && After(cfg, before).out.completion.None?)
  }

  lemma AfterSnoc(cfg: Config, before: seq<Input>, last: Input)
    ensures After(cfg, before + [last]) == Step(cfg, After(cfg, before), last)
  {
    hide Step;
    ExecAppend(cfg, Initial(), before, [last]);
    assert [last][1..] == [];
  }

  lemma {:induction false} PushesSnoc(pc: P.Config<M.Message>, st: P.ParserState<M.Message>, xs: seq<P.Text>, y: P.Text)
    ensures P.AfterPushes(pc, st, xs + [y]) == P.AfterPush(pc, P.AfterPushes(pc, st, xs), y)
    decreases |xs|
  {
    hide P.AfterPush;
    if xs == [] {
      assert xs + [y] == [y] && [y][1..] == [];
    } else {
      assert (xs + [y])[1..] == xs[1..] + [y];
      PushesSnoc(pc, P.AfterPush(pc, st, xs[0]), xs[1..], y);
    }
  }

  /** The parser is what the heard texts make of it. */
  lemma {:induction false} ParserHeard(cfg: Config, inputs: seq<Input>)
    ensures var s := After(cfg, inputs); var st := P.AfterPushes(ParserConfig(cfg), P.Fresh(), Heard(cfg, inputs));
      && s.parser == (if Exhausted(cfg, inputs) then P.AfterFlush(st) else st)
      && (Exhausted(cfg, inputs) ==> Final(s) && s.out.completion.Some?)
    decreases |inputs|
  {
    hide After, Inv, Step, P.AfterPush, P.AfterFlush, ParserConfig;
    if inputs == [] {
      assert After(cfg, inputs) == Initial() by { NothingYet(cfg); }
    } else {
      var before, last := inputs[..|inputs| - 1], inputs[|inputs| - 1];
      assert inputs == before + [last];
      var s := After(cfg, before);
      ParserHeard(cfg, before);
      AfterSnoc(cfg, before, last);
      Reachable(cfg, before);
      Reachable(cfg, inputs);
      CodexChunking.ParserStep(cfg, s, last);
      FinalizingIsFinal(cfg, s, last);
      CompletionIsTerminal(cfg, s);
      CompletionIsTerminal(cfg, After(cfg, inputs));
      if last.StdoutData? { PushesSnoc(ParserConfig(cfg), P.Fresh(), Heard(cfg, before), last.text); }
      assert Heard(cfg, before) + [] == Heard(cfg, before);
      if Exhausted(cfg, before) { FinalStep(cfg, s, last); }
    }
  }

  lemma NothingYet(cfg: Config)
    ensures After(cfg, []) == Initial()
  {
  }

  lemma CompletionIsTerminal(cfg: Config, s: RunState)
    requires Inv(cfg, s)
    ensures Terminated(s) <==> s.out.completion.Some?
    ensures Final(s) ==> Terminated(s) && !s.listening
  {
  }

  lemma FinalizingIsFinal(cfg: Config, s: RunState, input: Input)
    ensures CodexChunking.Finalizes(s, input) ==> Final(Step(cfg, s, input))
  {
    hide TryFinalize, Set, Clear;
    if CodexChunking.Finalizes(s, input) {
      var now := match input
        case StdoutEnd => s.(stdoutEnded := true, bells := Clear(s.bells, Drain))
        case Exit(info) => ClearStartup(s).(exitInfo := Some(info))
        case Fire(id) => s.(stdoutEnded := true, bells := s.bells.(clock := Timers.Disarm(s.bells.clock, Some(id))))
        case _ => s;
      FinalizeKeepsEnds(cfg, now);
    }
  }

  lemma FinalizeKeepsEnds(cfg: Config, s: RunState)
    ensures SameChild(s, TryFinalize(cfg, s))
  {
    hide TakeOutcomes, Conclude, ClearAll, P.AfterFlush;
    ChildStays(cfg, s.(parser := P.AfterFlush(s.parser)), Reported(s.parser, P.AfterFlush(s.parser)));
  }

  // --------------------------------------------------------------- items, straight from lines

  /** What the `i`-th line that counts says. */
  function LineItems(cfg: Config, i: nat, line: P.Text): seq<Item> {
    var pc := ParserConfig(cfg);
    if i >= pc.maxMessages then [Fatal(TooManyMessages)]
    else if |line| > pc.maxLineLength then [Fatal(LineOversized)]
    else match pc.read(line)
      case Classified(ms) => seq(|ms|, j requires 0 <= j < |ms| => Said(ms[j]))
      case NotJson => [Bad]
      case Invalid(_) => [Bad]
  }

  function AllItems(cfg: Config, k: nat, lines: seq<P.Text>): seq<Item>
    decreases |lines|
  {
    if lines == [] then [] else LineItems(cfg, k, lines[0]) + AllItems(cfg, k + 1, lines[1..])
  }

  /** What a text says: its lines that count, then what is wrong with its unfinished line, if anything. */
  function TextItems(cfg: Config, text: P.Text, exhausted: bool): seq<Item> {
    var pieces := Split(text, P.LF);
    var rest := Tail(pieces);
    AllItems(cfg, 0, Content(Closed(pieces))) +
    if |rest| > ParserConfig(cfg).maxLineLength then [Fatal(LineOversized)]
    else if exhausted && !P.IsBlank(rest) then [Fatal(StreamTruncated)]
    else []
  }

  lemma {:induction false} LinesToItems(cfg: Config, k: nat, lines: seq<P.Text>, os: seq<P.Outcome<M.Message>>)
    requires AllReported(ParserConfig(cfg), k, lines, os)
    ensures Items(os) == AllItems(cfg, k, lines)
    decreases |lines|
  {
    if lines != [] {
      LineToItems(cfg, k, lines[0], os[0]);
      hide ItemsOf, LineItems, Reports;
      forall i | 0 <= i < |lines[1..]| ensures Reports(ParserConfig(cfg), k + 1 + i, lines[1..][i], os[1..][i]) {
        assert Reports(ParserConfig(cfg), k + (i + 1), lines[i + 1], os[i + 1]);
      }
      LinesToItems(cfg, k + 1, lines[1..], os[1..]);
    }
  }

  lemma LineToItems(cfg: Config, k: nat, line: P.Text, o: P.Outcome<M.Message>)
    requires Reports(ParserConfig(cfg), k + 0, line, o)
    ensures ItemsOf(o) == LineItems(cfg, k, line)
  {
  }

  lemma OneItem(o: P.Outcome<M.Message>)
    ensures Items([o]) == ItemsOf(o)
  {
    assert [o][1..] == [];
  }

  /** The items of the parser's outcomes are those of the text. */
  lemma OutcomesAreText(cfg: Config, chunks: seq<P.Text>, exhausted: bool)
    requires C.ChunkSafe(ParserConfig(cfg), P.Fresh(), Flatten(chunks))
    ensures var st := P.AfterPushes(ParserConfig(cfg), P.Fresh(), chunks);
            Items((if exhausted then P.AfterFlush(st) else st).outcomes) == TextItems(cfg, Flatten(chunks), exhausted)
  {
    hide P.AfterPushes, P.AfterFlush, C.ChunkSafe, AllReported, ItemsOf, P.IsBlank, AllItems;
    var pc := ParserConfig(cfg);
    var st := P.AfterPushes(pc, P.Fresh(), chunks);
    var pieces := Split(Flatten(chunks), P.LF);
    var lines, rest := Content(Closed(pieces)), Tail(pieces);
    EveryLineIsReported(pc, chunks);
    RestIsReported(st);
    LinesToItems(cfg, 0, lines, st.outcomes[..|lines|]);
    assert st.outcomes == st.outcomes[..|lines|] + st.outcomes[|lines|..];
    ItemsAppend(st.outcomes[..|lines|], st.outcomes[|lines|..]);
    ItemsAppend(st.outcomes, [P.TruncatedFinalLine]);
    OneItem(P.OversizedLine);
    OneItem(P.TruncatedFinalLine);
    assert P.IsBlank([]) by { BlankNothing(); }
    ProblemItems();
    assert AllItems(cfg, 0, lines) + [] == AllItems(cfg, 0, lines);
    assert st.outcomes + [] == st.outcomes && Items([]) == [];
  }

  lemma BlankNothing()
    ensures P.IsBlank([])
  {
  }

  lemma ProblemItems()
    ensures ItemsOf(P.OversizedLine) == [Fatal(LineOversized)] && ItemsOf(P.TruncatedFinalLine) == [Fatal(StreamTruncated)]
  {
  }

  /**
    The log as a function of text. With every closed line within the line limit and the unfinished one
    at most one over it, the log of a spawned run is: the start; the events of the messages on the
    lines heard before the run had ended, as far as the first line that ends a run; and the terminal event, which is
    that line's, or else the one other cause that ended the run. However stdout was cut into chunks.
   */
  lemma LogIsToldByText(cfg: Config, inputs: seq<Input>)
    requires After(cfg, inputs).handle.Some? && C.ChunkSafe(ParserConfig(cfg), P.Fresh(), Flatten(Heard(cfg, inputs)))
    ensures var out := After(cfg, inputs).out;
            var items := TextItems(cfg, Flatten(Heard(cfg, inputs)), Exhausted(cfg, inputs)); var n := FirstEnd(items);
      && Bodies(out.queued) == [RunStarted] + Emitted(cfg.safe, Messages(items[..n])) +
           (if n < |items| then [EndBody(items, n).value] else if out.completion.Some? then [out.completion.value.body] else [])
      && (n < |items| ==> out.completion.Some? && out.completion.value.body == EndBody(items, n).value)
      && (n == |items| && out.completion.Some? ==> !out.completion.value.body.RunCompleted?)
  {
    hide After, C.ChunkSafe, TextItems, Items, EndBody, Emitted, Messages, P.AfterFlush, P.AfterPushes, Heard, Exhausted, ParserConfig;
    LogIsTold(cfg, inputs);
    ParserHeard(cfg, inputs);
    OutcomesAreText(cfg, Heard(cfg, inputs), Exhausted(cfg, inputs));
  }
}
