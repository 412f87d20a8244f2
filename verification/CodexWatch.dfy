/**
  What the Codex run does to its process, exactly when, and the timers that make it do so in time.
 */
module CodexWatch {
  import opened Wrappers
  import opened Timers
  import opened Events
  import opened CodexLifecycle
  import opened CodexSafety
  import opened CodexGuarantees
  import opened CodexChunking
  import opened CodexStory
  import opened CodexOutcome
  import StreamOutcomes
  import P = StreamParsing
  import M = CodexMapping

  // ------------------------------------------------------------------------------ kills

  /** Stdout has said something that no run survives, whether or not the run had ended before. */
  ghost predicate Broken(items: seq<Item>) {
    (exists i :: 0 <= i < |items| && items[i].Fatal?) || Bads(items) >= 6
  }

  lemma BrokenSnoc(items: seq<Item>, item: Item)
    ensures Broken(items + [item]) <==> Broken(items) || item.Fatal? || (item.Bad? && Bads(items) + 1 >= 6)
  {
    var all := items + [item];
    CountsSnoc(items, item);
    assert all[|items|] == item;
    if Broken(items) && Bads(items) < 6 {
      var i :| 0 <= i < |items| && items[i].Fatal?;
      assert all[i].Fatal?;
    }
  }

  lemma {:induction false} BrokenGrows(items: seq<Item>, more: seq<Item>)
    ensures Broken(items) ==> Broken(items + more)
    decreases |more|
  {
    if more == [] {
      assert items + more == items;
    } else {
      hide Broken, Bads;
      BrokenGrows(items, more[..|more| - 1]);
      BrokenSnoc(items + more[..|more| - 1], more[|more| - 1]);
      assert items + more[..|more| - 1] + [more[|more| - 1]] == items + more;
    }
  }

  /** A process is killed at most once, and has been exactly if its termination was started. */
  ghost predicate KillsCounted(s: RunState) {
    s.handle.Some? ==> s.os.kills == if s.terminationStarted then 1 else 0
  }

  predicate OnlyKills(s: RunState, t: RunState) {
    t.os == s.os.(kills := t.os.kills)
  }

  /** While stdout is being taken in: unusable lines are counted and a broken stream has been acted on. */
  ghost predicate Acted(items: seq<Item>, s: RunState) {
    s.malformed == Bads(items) && (Broken(items) ==> s.terminationStarted)
  }

  lemma ItemActs(cfg: Config, items: seq<Item>, s: RunState, item: Item)
    requires Acted(items, s) && s.handle.Some? && KillsCounted(s)
    ensures var t := FeedItem(cfg, s, item);
      && Acted(items + [item], t) && t.handle == s.handle && KillsCounted(t) && OnlyKills(s, t)
      && t.terminationStarted == (s.terminationStarted || Broken(items + [item]))
  {
    BrokenSnoc(items, item);
    CountsSnoc(items, item);
    hide Broken, Bads, Conclude, Set, M.Mapped, Deliver, Clear;
  }

  lemma {:induction false} MessagesAct(cfg: Config, items: seq<Item>, s: RunState, ms: seq<M.Message>)
    requires Acted(items, s) && s.handle.Some? && KillsCounted(s)
    ensures var t, all := TakeMessages(cfg, s, ms), items + ItemsOf(P.Messages(ms));
      && Acted(all, t) && t.handle == s.handle && KillsCounted(t) && OnlyKills(s, t)
      && t.terminationStarted == (s.terminationStarted || Broken(all))
    decreases |ms|
  {
    hide Broken, Bads, TakeMessage;
    var said := ItemsOf(P.Messages(ms));
    if ms == [] {
      assert items + said == items;
    } else {
      ItemActs(cfg, items, s, Said(ms[0]));
      MessagesAct(cfg, items + [Said(ms[0])], TakeMessage(cfg, s, ms[0]), ms[1..]);
      BrokenGrows(items + [Said(ms[0])], ItemsOf(P.Messages(ms[1..])));
      assert items + [Said(ms[0])] + ItemsOf(P.Messages(ms[1..])) == items + said;
    }
  }

  lemma {:induction false} OutcomesAct(cfg: Config, items: seq<Item>, s: RunState, os: seq<P.Outcome<M.Message>>)
    requires Acted(items, s) && s.handle.Some? && KillsCounted(s)
    ensures var t, all := TakeOutcomes(cfg, s, os), items + Items(os);
      && Acted(all, t) && t.handle == s.handle && KillsCounted(t) && OnlyKills(s, t)
      && t.terminationStarted == (s.terminationStarted || Broken(all))
    decreases |os|
  {
    hide Broken, Bads, TakeMessages, TakeMalformed, FailAndTerminate;
    if os == [] {
      assert items + Items(os) == items;
    } else {
      match os[0] {
        case Messages(ms) => MessagesAct(cfg, items, s, ms);
        case MalformedJson(_) => ItemActs(cfg, items, s, Bad);
        case InvalidLine(_) => ItemActs(cfg, items, s, Bad);
        case OversizedLine => ItemActs(cfg, items, s, Fatal(LineOversized));
        case MessageLimitReached => ItemActs(cfg, items, s, Fatal(TooManyMessages));
        case TruncatedFinalLine => ItemActs(cfg, items, s, Fatal(StreamTruncated));
      }
      OutcomesAct(cfg, items + ItemsOf(os[0]), TakeOutcome(cfg, s, os[0]), os[1..]);
      BrokenGrows(items + ItemsOf(os[0]), Items(os[1..]));
      assert items + ItemsOf(os[0]) + Items(os[1..]) == items + Items(os);
    }
  }

  /** Between callbacks: a run that has not ended has counted the unusable lines and found the stream sound. */
  ghost predicate Sober(s: RunState) {
    && KillsCounted(s)
    && (s.handle.Some? && !Terminated(s) ==> s.malformed == Bads(Items(s.parser.outcomes)) && !Broken(Items(s.parser.outcomes)))
  }

  lemma StoryIsSober(cfg: Config, s: RunState)
    requires Inv(cfg, s) && Story(cfg, s) && KillsCounted(s)
    ensures Sober(s)
  {
    Core1(cfg, s);
    var items := Items(s.parser.outcomes);
    hide Inv, OutboxInv, Told, Items;
    if s.handle.Some? && !Terminated(s) { EndlessIsSound(items); }
  }

  lemma {:induction false} EndlessIsSound(items: seq<Item>)
    requires FirstEnd(items) == |items|
    ensures !Broken(items)
    decreases |items|
  {
    if items != [] {
      var n := |items| - 1;
      assert items[..n] + [items[n]] == items;
      FirstEndSnoc(items[..n], items[n]);
      EndlessIsSound(items[..n]);
      BrokenSnoc(items[..n], items[n]);
      hide Broken, Bads, FirstEnd;
    }
  }

  /** Why an input makes the run kill a process it has not killed yet; `after` is the state it leads to. */
  ghost predicate KillsFor(s: RunState, input: Input, after: RunState)
    requires Enabled(s, input)
  {
    match input
    case Cancel(_, _) => !Terminated(s) && !s.cancel.recorded
    case StdoutData(_) => !Terminated(s) && Broken(Items(after.parser.outcomes))
    case StdinError => !Terminated(s)
    case Fire(id) =>
      || s.bells.clock.armed[id].kind.Startup? || s.bells.clock.armed[id].kind.MaxDuration?
      || (s.bells.clock.armed[id].kind.Inactivity? && !Terminated(s))
      || (Finalizes(s, input) && !Terminated(s) && Broken(Items(after.parser.outcomes)))
    case _ => Finalizes(s, input) && !Terminated(s) && Broken(Items(after.parser.outcomes))
  }

  lemma DataKills(cfg: Config, s: RunState, text: P.Text)
    requires Sober(s) && s.handle.Some?
    ensures var t := OnData(cfg, s, text);
      && t.handle == s.handle && KillsCounted(t) && OnlyKills(s, t)
      && t.terminationStarted == (s.terminationStarted || (!Terminated(s) && Broken(Items(t.parser.outcomes))))
      && (!Terminated(t) && !Terminated(s) ==> t.malformed == Bads(Items(t.parser.outcomes)))
  {
    hide P.AfterPush, TakeOutcomes, Set, Clear, Broken, Bads;
    var ready := ArmInactivity(cfg, ClearStartup(s));
    if !Terminated(s) {
      var parser := P.AfterPush(ParserConfig(cfg), ready.parser, text);
      PushGrows(ParserConfig(cfg), ready.parser, text);
      TakenIn(cfg, ready, parser);
    }
  }

  lemma TakenIn(cfg: Config, s: RunState, parser: P.ParserState<M.Message>)
    requires Sober(s) && s.handle.Some? && !Terminated(s) && s.parser.outcomes <= parser.outcomes
    ensures var t := TakeOutcomes(cfg, s.(parser := parser), Reported(s.parser, parser));
      && t.parser == parser && t.handle == s.handle && KillsCounted(t) && OnlyKills(s, t)
      && t.terminationStarted == (s.terminationStarted || Broken(Items(parser.outcomes)))
      && t.malformed == Bads(Items(parser.outcomes))
  {
    hide TakeOutcomes, Broken, Bads;
    var os := Reported(s.parser, parser);
    assert parser.outcomes == s.parser.outcomes + os;
    ItemsAppend(s.parser.outcomes, os);
    OutcomesAct(cfg, Items(s.parser.outcomes), s.(parser := parser), os);
    OutcomesKeepParser(cfg, s.(parser := parser), os);
  }

  lemma FinalizeKills(cfg: Config, s: RunState)
    requires Sober(s) && s.handle.Some?
    ensures var t := TryFinalize(cfg, s);
      && t.handle == s.handle && KillsCounted(t) && OnlyKills(s, t)
      && t.terminationStarted == (s.terminationStarted || (Final(s) && !Terminated(s) && Broken(Items(t.parser.outcomes))))
  {
    hide TakeOutcomes, Conclude, ClearAll, Broken, Bads, P.AfterFlush;
    if Final(s) && !Terminated(s) {
      StreamOutcomes.RestIsReported(s.parser);
      TakenIn(cfg, s, P.AfterFlush(s.parser));
    }
  }

  lemma FailKills(cfg: Config, s: RunState, f: Failure)
    requires KillsCounted(s)
    ensures var t := FailAndTerminate(cfg, s, f);
            t.handle == s.handle && KillsCounted(t) && OnlyKills(s, t) && t.terminationStarted
  {
    hide Conclude, Set;
  }

  /** What one callback does to the process: only a firing grace timer forces, and only these reasons kill. */
  lemma StepKills(cfg: Config, s: RunState, input: Input)
    requires Inv(cfg, s) && Story(cfg, s) && KillsCounted(s) && (s.stdinFailed ==> Terminated(s))
    requires s.handle.Some? && Enabled(s, input)
    ensures var t := Step(cfg, s, input);
      && KillsCounted(t) && t.handle == s.handle
      && t.terminationStarted == (s.terminationStarted || KillsFor(s, input, t))
      && t.os.spawns == s.os.spawns
      && t.os.forced == s.os.forced + if input.Fire? && s.bells.clock.armed[input.id].kind.Grace? then 1 else 0
  {
    StoryIsSober(cfg, s);
    SpawnedIsLive(cfg, s);
    hide Inv, Story, Set, Clear, TryFinalize, FailAndTerminate, Conclude, OnData, LaunchProcess, Broken, Bads, Items;
    match input {
      case Iterate(_) =>
      case GateResolved(_, _) =>
      case Cancel(who, reason) =>
      case StdoutData(text) => DataKills(cfg, s, text);
      case StdoutEnd =>
        FinalizeKills(cfg, s.(stdoutEnded := true, bells := Clear(s.bells, Drain)));
      case Exit(info) =>
        var exited := ClearStartup(s).(exitInfo := Some(info));
        FinalizeKills(cfg, if s.stdoutEnded then exited else exited.(bells := Set(exited.bells, Drain, cfg.drain)));
      case StdinError => FailKills(cfg, s.(stdinFailed := true), PromptLost);
      case ProcessError =>
      case Fire(id) => FireKills(cfg, s, id);
      case _ =>
    }
  }

  lemma FireKills(cfg: Config, s: RunState, id: nat)
    requires Sober(s) && s.handle.Some? && Enabled(s, Fire(id))
    ensures var t := OnFire(cfg, s, id);
      && KillsCounted(t) && t.handle == s.handle
      && t.terminationStarted == (s.terminationStarted || KillsFor(s, Fire(id), t))
      && t.os.spawns == s.os.spawns
      && t.os.forced == s.os.forced + if s.bells.clock.armed[id].kind.Grace? then 1 else 0
  {
    hide TryFinalize, FailAndTerminate, Broken, Bads, Items;
    var rung := s.(bells := s.bells.(clock := Disarm(s.bells.clock, Some(id))));
    FailKills(cfg, rung, StartupSilence);
    FailKills(cfg, rung, TookTooLong);
    FailKills(cfg, rung, WentSilent);
    FinalizeKills(cfg, rung.(stdoutEnded := true));
  }

  lemma DisabledStays(cfg: Config, s: RunState, input: Input)
    requires !Enabled(s, input)
    ensures Step(cfg, s, input) == s
  {
  }

  /** Before there is a process, only a cancellation starts a termination, and then no process follows. */
  ghost predicate Innocent(s: RunState) {
    s.handle.None? && !s.phase.Live? && s.terminationStarted ==> s.cancel.recorded
  }

  lemma InnocentStep(cfg: Config, s: RunState, input: Input)
    requires Inv(cfg, s) && Innocent(s) && s.handle.None? && Enabled(s, input)
    ensures var t := Step(cfg, s, input); Innocent(t) && KillsCounted(t)
  {
    hide BellsInv, OutboxInv, Conclude, Set, Clear, TryFinalize, OnData;
    if input.Iterate? && s.phase.Idle? && !s.cancel.recorded && input.launch.Spawned? { SpawnKills(cfg, s, input.launch.pid, input.launch.writeThrows); }
    if input.GateResolved? && !s.cancel.recorded && input.gateLaunch.Spawned? { SpawnKills(cfg, s, input.gateLaunch.pid, input.gateLaunch.writeThrows); }
    if input.Fire? { UnspawnedFireKills(cfg, s, input.id); }
    hide LaunchProcess, TerminateProcess;
    assert LaunchProcess(cfg, s, SpawnThrows).handle.None? && LaunchProcess(cfg, s, SpawnThrows).phase.Live? by { SpawnFails(cfg, s); }
    if input.Cancel? { TerminateTouches(cfg, s.(cancel := Cancellation(true, true, input.who, input.reason))); }
  }

  lemma SpawnFails(cfg: Config, s: RunState)
    requires s.handle.None?
    ensures LaunchProcess(cfg, s, SpawnThrows).handle.None? && LaunchProcess(cfg, s, SpawnThrows).phase.Live?
  {
    hide Conclude, Set;
  }

  lemma UnspawnedFireKills(cfg: Config, s: RunState, id: nat)
    requires s.handle.None? && s.exitInfo.None? && id in s.bells.clock.armed && s.phase.Live?
    ensures OnFire(cfg, s, id).handle.None? && OnFire(cfg, s, id).phase.Live?
  {
    hide Conclude;
  }

  lemma SpawnKills(cfg: Config, s: RunState, pid: Option<nat>, writeThrows: bool)
    requires s.handle.None? && s.os == OsLog(0, 0, 0) && !s.terminationStarted
    ensures var t := LaunchProcess(cfg, s, Spawned(pid, writeThrows)); t.handle.Some? && KillsCounted(t)
  {
    hide Set, Clear, Deliver, FailAndTerminate;
    var live := s.(phase := Live, liveAt := s.bells.clock.now, bells := Set(s.bells, MaxDuration, cfg.maxDuration),
                   os := s.os.(spawns := s.os.spawns + 1));
    FailKills(cfg, Supervise(cfg, live, pid).(stdinFailed := true), PromptLost);
  }

  lemma {:induction false} KillsAreCounted(cfg: Config, inputs: seq<Input>)
    ensures KillsCounted(After(cfg, inputs)) && Innocent(After(cfg, inputs))
    decreases |inputs|
  {
    hide After, Inv, Story, Step;
    if inputs == [] {
      NothingYet(cfg);
    } else {
      var before, last := inputs[..|inputs| - 1], inputs[|inputs| - 1];
      assert inputs == before + [last];
      KillsAreCounted(cfg, before);
      AfterSnoc(cfg, before, last);
      AfterStory(cfg, before);
      CancelIsHistory(cfg, before);
      var s := After(cfg, before);
      if !Enabled(s, last) {
        DisabledStays(cfg, s, last);
      } else if s.handle.Some? {
        StepKills(cfg, s, last);
      } else {
        InnocentStep(cfg, s, last);
      }
    }
  }

  /**
    Exactly when the process is killed and forced: the first time the run is cancelled before its end,
    outlives its startup or maximum duration, falls silent, loses its prompt, or finds its stream broken;
    by force when the grace timer rings. Nothing else touches the process, and nothing spawns another.
   */
  lemma KilledFor(cfg: Config, inputs: seq<Input>, last: Input)
    requires After(cfg, inputs).handle.Some? && Enabled(After(cfg, inputs), last)
    ensures var s, t := After(cfg, inputs), After(cfg, inputs + [last]);
      && t.os.kills == (if s.os.kills == 1 || KillsFor(s, last, t) then 1 else 0)
      && t.os.forced == s.os.forced + (if last.Fire? && s.bells.clock.armed[last.id].kind.Grace? then 1 else 0)
      && t.os.spawns == s.os.spawns == 1
  {
    hide After, Inv, Story, Step, KillsFor;
    KillsAreCounted(cfg, inputs);
    AfterSnoc(cfg, inputs, last);
    AfterStory(cfg, inputs);
    CancelIsHistory(cfg, inputs);
    StepKills(cfg, After(cfg, inputs), last);
    OneSpawn(cfg, After(cfg, inputs));
  }

  lemma OneSpawn(cfg: Config, s: RunState)
    requires Inv(cfg, s)
    ensures s.handle.Some? ==> s.os.spawns == 1
  {
  }

  // ----------------------------------------------------------------------------- timers

  /** When the timer of this kind will ring, if it is armed. */
  function Deadline(b: Bells, kind: TimerKind): Option<real> {
    var handle := Slot(b, kind);
    if handle.Some? && handle.value in b.clock.armed then Some(b.clock.armed[handle.value].deadline) else None
  }

  /** Setting, clearing and ringing one timer leave the other four alone. */
  lemma DeadlinesMove(b: Bells, kind: TimerKind, delay: Millis)
    requires BellsInv(b)
    ensures Deadline(Set(b, kind, delay), kind) == Some(b.clock.now + delay) && Deadline(Clear(b, kind), kind) == None
    ensures forall other :: other != kind ==>
              Deadline(Set(b, kind, delay), other) == Deadline(b, other) && Deadline(Clear(b, kind), other) == Deadline(b, other)
  {
    forall other | other != kind
      ensures Deadline(Set(b, kind, delay), other) == Deadline(b, other) && Deadline(Clear(b, kind), other) == Deadline(b, other)
    {
      assert Named(b, kind) && Named(b, other);
    }
  }

  lemma DeadlinesRing(b: Bells, id: nat)
    requires BellsInv(b) && id in b.clock.armed
    ensures forall other :: other != b.clock.armed[id].kind ==>
              Deadline(b.(clock := Disarm(b.clock, Some(id))), other) == Deadline(b, other)
    ensures Deadline(b.(clock := Disarm(b.clock, Some(id))), b.clock.armed[id].kind) == None
  {
    forall other | other != b.clock.armed[id].kind
      ensures Deadline(b.(clock := Disarm(b.clock, Some(id))), other) == Deadline(b, other)
    {
      assert Named(b, other);
    }
  }

  /** A shared step leaves the timers alone but for these: a kill arms the grace timer, an ending clears the inactivity timer. */
  ghost predicate Quietly(cfg: Config, s: RunState, t: RunState) {
    && t.bells.clock.now == s.bells.clock.now && t.handle == s.handle && (s.terminationStarted ==> t.terminationStarted)
    && Deadline(t.bells, Startup) == Deadline(s.bells, Startup) && Deadline(t.bells, Drain) == Deadline(s.bells, Drain)
    && (!Terminated(t) ==> !Terminated(s) && Deadline(t.bells, Inactivity) == Deadline(s.bells, Inactivity))
    && (t.terminationStarted == s.terminationStarted ==> Deadline(t.bells, Grace) == Deadline(s.bells, Grace))
    && (t.terminationStarted != s.terminationStarted && s.handle.Some? && s.handle.value.pid.Some? ==>
          Deadline(t.bells, Grace) == Some(s.bells.clock.now + cfg.grace))
  }

  lemma TerminateQuietly(cfg: Config, s: RunState)
    requires Core(cfg, s) && s.handle.Some?
    ensures Quietly(cfg, s, TerminateProcess(cfg, s))
  {
    hide OutboxInv;
    DeadlinesMove(s.bells, Grace, cfg.grace);
    hide Set, BellsInv, Deadline;
  }

  lemma FailQuietly(cfg: Config, s: RunState, f: Failure)
    requires Core(cfg, s) && s.handle.Some?
    ensures Quietly(cfg, s, FailAndTerminate(cfg, s, f))
  {
    SpawnedIsLive1(cfg, s);
    FinishKeeps(cfg, s, Failed(f));
    TerminateQuietly(cfg, Finish(cfg, s, Failed(f)));
    TerminateTouches(cfg, Finish(cfg, s, Failed(f)));
    hide Core, TerminateProcess, Deadline;
  }

  lemma SpawnedIsLive1(cfg: Config, s: RunState)
    requires Core(cfg, s)
    ensures s.handle.Some? ==> s.phase.Live?
    ensures BellsInv(s.bells) && (!s.terminationStarted ==> !Rings(s.bells, Grace))
  {
  }

  lemma ItemQuietly(cfg: Config, s: RunState, item: Item)
    requires Core(cfg, s) && s.handle.Some?
    ensures Quietly(cfg, s, FeedItem(cfg, s, item)) && Core(cfg, FeedItem(cfg, s, item))
  {
    match item {
      case Said(m) => SaidQuietly(cfg, s, m);
      case Bad => BadQuietly(cfg, s);
      case Fatal(f) =>
        hide Core, FailAndTerminate, Quietly;
        SpawnedIsLive1(cfg, s);
        FailKeeps(cfg, s, f);
        FailQuietly(cfg, s, f);
    }
  }

  lemma SaidQuietly(cfg: Config, s: RunState, m: M.Message)
    requires Core(cfg, s) && s.handle.Some?
    ensures Quietly(cfg, s, TakeMessage(cfg, s, m)) && Core(cfg, TakeMessage(cfg, s, m))
  {
    hide Core, Clear, Deadline, M.Mapped;
    SpawnedIsLive1(cfg, s);
    TakeMessageKeeps(cfg, s, m);
    DeadlinesMove(s.bells, Inactivity, 0.0);
    ClockStays(s.bells, Inactivity);
  }

  lemma BadQuietly(cfg: Config, s: RunState)
    requires Core(cfg, s) && s.handle.Some?
    ensures Quietly(cfg, s, TakeMalformed(cfg, s)) && Core(cfg, TakeMalformed(cfg, s))
  {
    hide Core, FailAndTerminate, Deadline;
    SpawnedIsLive1(cfg, s);
    MalformedKeeps(cfg, s);
    CountingKeeps(cfg, s);
    FailQuietly(cfg, s.(malformed := s.malformed + 1), TooManyMalformed);
  }

  lemma {:induction false} MessagesQuietly(cfg: Config, s: RunState, ms: seq<M.Message>)
    requires Core(cfg, s) && s.handle.Some?
    ensures Quietly(cfg, s, TakeMessages(cfg, s, ms)) && Core(cfg, TakeMessages(cfg, s, ms))
    decreases |ms|
  {
    hide Core, TakeMessage, Deadline;
    if ms != [] {
      ItemQuietly(cfg, s, Said(ms[0]));
      MessagesQuietly(cfg, TakeMessage(cfg, s, ms[0]), ms[1..]);
    }
  }

  lemma {:induction false} OutcomesQuietly(cfg: Config, s: RunState, os: seq<P.Outcome<M.Message>>)
    requires Core(cfg, s) && s.handle.Some?
    ensures Quietly(cfg, s, TakeOutcomes(cfg, s, os)) && Core(cfg, TakeOutcomes(cfg, s, os))
    decreases |os|
  {
    hide Core, TakeMessages, TakeMalformed, FailAndTerminate, Deadline;
    if os != [] {
      match os[0] {
        case Messages(ms) => MessagesQuietly(cfg, s, ms);
        case MalformedJson(_) => ItemQuietly(cfg, s, Bad);
        case InvalidLine(_) => ItemQuietly(cfg, s, Bad);
        case OversizedLine => ItemQuietly(cfg, s, Fatal(LineOversized));
        case MessageLimitReached => ItemQuietly(cfg, s, Fatal(TooManyMessages));
        case TruncatedFinalLine => ItemQuietly(cfg, s, Fatal(StreamTruncated));
      }
      OutcomesQuietly(cfg, TakeOutcome(cfg, s, os[0]), os[1..]);
    }
  }

  lemma DataDeadlines(cfg: Config, s: RunState, text: P.Text)
    requires Core(cfg, s) && s.handle.Some?
    ensures var t := OnData(cfg, s, text); var now := s.bells.clock.now;
      && t.handle == s.handle && t.bells.clock.now == now && (Terminated(s) ==> Terminated(t))
      && (!Terminated(t) ==> Deadline(t.bells, Inactivity) == Some(now + cfg.inactivity)) && Deadline(t.bells, Startup) == None
      && Deadline(t.bells, Drain) == Deadline(s.bells, Drain)
      && Grudge(cfg, s, t)
  {
    hide Core, P.AfterPush, TakeOutcomes, Deadline, Set, Clear;
    SpawnedIsLive1(cfg, s);
    var clear := ClearStartup(s);
    var ready := ArmInactivity(cfg, clear);
    ClearStartupKeeps(cfg, s);
    InactivityKeeps(cfg, clear);
    DeadlinesMove(s.bells, Startup, 0.0);
    ReadyDeadlines(cfg, clear);
    var parser := P.AfterPush(ParserConfig(cfg), ready.parser, text);
    ParserIsFree(cfg, ready, parser);
    OutcomesQuietly(cfg, ready.(parser := parser), Reported(ready.parser, parser));
    OnlyBells(cfg, s);
  }

  lemma OnlyBells(cfg: Config, s: RunState)
    ensures var ready := ArmInactivity(cfg, ClearStartup(s)); ready == s.(bells := ready.bells)
  {
    hide Set, Clear;
  }

  lemma ReadyDeadlines(cfg: Config, s: RunState)
    requires Core(cfg, s) && s.phase.Live?
    ensures var b := ArmInactivity(cfg, s).bells;
      && (!Terminated(s) ==> Deadline(b, Inactivity) == Some(s.bells.clock.now + cfg.inactivity))
      && (forall other :: other != Inactivity ==> Deadline(b, other) == Deadline(s.bells, other))
      && b.clock.now == s.bells.clock.now
  {
    if !Terminated(s) {
      ClearKeeps(s.bells, Inactivity);
      DeadlinesMove(s.bells, Inactivity, cfg.inactivity);
      DeadlinesMove(Clear(s.bells, Inactivity), Inactivity, cfg.inactivity);
      hide BellsInv, OutboxInv, Deadline;
    }
  }

  /** The grace timer: armed by the kill, otherwise as it was. */
  ghost predicate Grudge(cfg: Config, s: RunState, t: RunState) {
    if t.terminationStarted == s.terminationStarted then Deadline(t.bells, Grace) == Deadline(s.bells, Grace)
    else s.handle.Some? && s.handle.value.pid.Some? ==> Deadline(t.bells, Grace) == Some(s.bells.clock.now + cfg.grace)
  }

  /** What tells the startup timer to stop: stdout, exit, a process error, or its own ringing. */
  predicate Stirs(s: RunState, input: Input)
    requires Enabled(s, input)
  {
    input.StdoutData? || input.Exit? || input.ProcessError? || (input.Fire? && s.bells.clock.armed[input.id].kind == Startup)
  }

  /** What one callback does to the timers of a run that still waits for exit or end of stdout. */
  lemma StepDeadlines(cfg: Config, s: RunState, input: Input)
    requires Inv(cfg, s) && s.handle.Some? && Enabled(s, input) && !Final(Step(cfg, s, input))
    ensures var t := Step(cfg, s, input); var now := s.bells.clock.now;
      && t.handle == s.handle && (Terminated(s) ==> Terminated(t))
      && t.bells.clock.now == (if input.Pass? then input.to else now)
      && (!Terminated(t) ==>
            Deadline(t.bells, Inactivity) == (if input.StdoutData? || input.StderrData? then Some(now + cfg.inactivity)
                                              else Deadline(s.bells, Inactivity)))
      && Deadline(t.bells, Startup) == (if Stirs(s, input) then None else Deadline(s.bells, Startup))
      && Deadline(t.bells, Drain) == (if input.Exit? then Some(now + cfg.drain)
                                      else if input.StdoutEnd? then None else Deadline(s.bells, Drain))
      && (Grudge(cfg, s, t) || (input.Fire? && s.bells.clock.armed[input.id].kind == Grace))
  {
    hide TryFinalize, FailAndTerminate, Conclude, OnData, LaunchProcess, Core, Deadline, Set, Clear, TerminateProcess;
    StepPreserves(cfg, s, input);
    SpawnedIsLive1(cfg, s);
    match input {
      case StdoutData(text) => DataDeadlines(cfg, s, text);
      case StderrData => ReadyDeadlines(cfg, s);
      case Cancel(who, reason) =>
        CoreIgnores(cfg, s, true, Cancellation(true, true, who, reason));
        TerminateQuietly(cfg, s.(cancel := Cancellation(true, true, who, reason)));
        TerminateTouches(cfg, s.(cancel := Cancellation(true, true, who, reason)));
      case StdoutEnd =>
        DeadlinesMove(s.bells, Drain, 0.0);
        WaitsStill(cfg, s.(stdoutEnded := true, bells := Clear(s.bells, Drain)));
        ClockStays(s.bells, Drain);
      case Exit(info) => ExitDeadlines(cfg, s, info);
      case StdinError =>
        CoreIgnores(cfg, s, true, s.cancel);
        FailQuietly(cfg, s.(stdinFailed := true), PromptLost);
        FailKeeps(cfg, s.(stdinFailed := true), PromptLost);
      case ProcessError =>
        DeadlinesMove(s.bells, Startup, 0.0);
        FinishKeeps(cfg, s, Failed(ProcessCrashed));
        ClockStays(s.bells, Startup);
      case Fire(id) => FireDeadlines(cfg, s, id);
      case Pass(to) => PassedDeadlines(s.bells, to);
      case _ =>
    }
  }

  lemma CoreIgnores(cfg: Config, s: RunState, stdinFailed: bool, cancel: Cancellation)
    requires Core(cfg, s)
    ensures Core(cfg, s.(stdinFailed := stdinFailed)) && Core(cfg, s.(cancel := cancel))
  {
    hide OutboxInv, BellsInv;
  }

  lemma ClockStays(b: Bells, kind: TimerKind)
    ensures Clear(b, kind).clock.now == b.clock.now
  {
  }

  lemma PassedDeadlines(b: Bells, to: real)
    ensures forall kind :: Deadline(b.(clock := b.clock.(now := to)), kind) == Deadline(b, kind)
  {
  }

  /** As long as exit or end of stdout is missing, finalising does nothing. */
  lemma WaitsStill(cfg: Config, s: RunState)
    requires !Final(TryFinalize(cfg, s))
    ensures TryFinalize(cfg, s) == s
  {
    FinalizeKeepsEnds(cfg, s);
    hide TakeOutcomes, Conclude, ClearAll;
  }

  lemma ExitDeadlines(cfg: Config, s: RunState, info: ExitInfo)
    requires Core(cfg, s) && s.handle.Some? && s.exitInfo.None? && !Final(OnExit(cfg, s, info))
    ensures var t := OnExit(cfg, s, info); var now := s.bells.clock.now;
      && t.handle == s.handle && t.bells.clock.now == now && (Terminated(s) <==> Terminated(t))
      && Deadline(t.bells, Inactivity) == Deadline(s.bells, Inactivity) && Deadline(t.bells, Startup) == None
      && Deadline(t.bells, Drain) == Some(now + cfg.drain) && Grudge(cfg, s, t)
  {
    SpawnedIsLive1(cfg, s);
    ClearStartupKeeps(cfg, s);
    var b := Clear(s.bells, Startup);
    DeadlinesMove(s.bells, Startup, 0.0);
    ClearKeeps(s.bells, Startup);
    DeadlinesMove(b, Drain, cfg.drain);
    ClockStays(s.bells, Startup);
    var exited := ClearStartup(s).(exitInfo := Some(info));
    hide Core, TryFinalize, Deadline, Clear;
    WaitsStill(cfg, if s.stdoutEnded then exited else exited.(bells := Set(exited.bells, Drain, cfg.drain)));
    FinalizeKeepsEnds(cfg, exited);
  }

  lemma FireDeadlines(cfg: Config, s: RunState, id: nat)
    requires Inv(cfg, s) && s.handle.Some? && Due(s.bells.clock, id) && !Final(OnFire(cfg, s, id))
    ensures var t := OnFire(cfg, s, id);
      && t.handle == s.handle && t.bells.clock.now == s.bells.clock.now && (Terminated(s) ==> Terminated(t))
      && (!Terminated(t) ==> Deadline(t.bells, Inactivity) == Deadline(s.bells, Inactivity))
      && Deadline(t.bells, Startup) == (if s.bells.clock.armed[id].kind == Startup then None else Deadline(s.bells, Startup))
      && Deadline(t.bells, Drain) == Deadline(s.bells, Drain)
      && (Grudge(cfg, s, t) || s.bells.clock.armed[id].kind == Grace)
  {
    var rung := s.(bells := s.bells.(clock := Disarm(s.bells.clock, Some(id))));
    DeadlinesRing(s.bells, id);
    match s.bells.clock.armed[id].kind {
      case Grace => hide Core, Deadline;
      case Drain => DrainIsFinal(cfg, s, id);
      case MaxDuration => FiringFails(cfg, s, rung, id, TookTooLong); hide Core, Deadline;
      case Startup => FiringFails(cfg, s, rung, id, StartupSilence); hide Core, Deadline;
      case Inactivity => FiringFails(cfg, s, rung, id, WentSilent); hide Core, Deadline;
    }
  }

  lemma DrainIsFinal(cfg: Config, s: RunState, id: nat)
    requires Inv(cfg, s) && id in s.bells.clock.armed && s.bells.clock.armed[id].kind == Drain
    ensures Final(OnFire(cfg, s, id))
  {
    assert Rings(s.bells, Drain);
    var rung := s.(bells := s.bells.(clock := Disarm(s.bells.clock, Some(id))));
    FinalizeKeepsEnds(cfg, rung.(stdoutEnded := true));
    hide TryFinalize, OutboxInv, BellsInv;
  }

  /** A watchdog rings: the run fails if it had not ended, and the process is terminated if it had not been. */
  lemma FiringFails(cfg: Config, s: RunState, rung: RunState, id: nat, f: Failure)
    requires Inv(cfg, s) && s.handle.Some? && id in s.bells.clock.armed && s.bells.clock.armed[id].kind != Grace
    requires rung == s.(bells := s.bells.(clock := Disarm(s.bells.clock, Some(id))))
    ensures var t := FailAndTerminate(cfg, rung, f);
      && t.handle == s.handle && t.bells.clock.now == s.bells.clock.now && Terminated(t)
      && Deadline(t.bells, Drain) == Deadline(rung.bells, Drain) && Deadline(t.bells, Startup) == Deadline(rung.bells, Startup)
      && Grudge(cfg, s, t)
  {
    DeadlinesRing(s.bells, id);
    RungKeeps(s.bells, id);
    DeadlinesMove(rung.bells, Grace, cfg.grace);
    TerminateTouches(cfg, Finish(cfg, rung, Failed(f)));
    FailRemembers(cfg, rung, f);
    hide OutboxInv, BellsInv, Conclude, Deadline, Set;
    SetKeepsNow(rung.bells, cfg.grace);
  }

  lemma SetKeepsNow(b: Bells, delay: Millis)
    ensures Set(b, Grace, delay).clock.now == b.clock.now
  {
  }

  /** What is known about exit and stdout, and the launch time. */
  lemma StepChild(cfg: Config, s: RunState, input: Input)
    requires s.handle.Some? && s.phase.Live? && Enabled(s, input)
    ensures var t := Step(cfg, s, input);
      && t.exitInfo == (if input.Exit? then Some(input.info) else s.exitInfo) && t.liveAt == s.liveAt
      && t.listening == (s.listening && !Finalizes(s, input))
      && (t.stdoutEnded <==> s.stdoutEnded || input.StdoutEnd? || (input.Fire? && s.bells.clock.armed[input.id].kind == Drain))
  {
    hide TryFinalize, Conclude, OnData, Set, Clear, TerminateProcess, LaunchProcess;
    match input {
      case StdoutData(text) => DataChild(cfg, s, text);
      case StdoutEnd => FinalizeKeepsLaunch(cfg, s.(stdoutEnded := true, bells := Clear(s.bells, Drain)));
      case Exit(info) =>
        var exited := ClearStartup(s).(exitInfo := Some(info));
        FinalizeKeepsLaunch(cfg, if s.stdoutEnded then exited else exited.(bells := Set(exited.bells, Drain, cfg.drain)));
      case Cancel(who, reason) => TerminateTouches(cfg, s.(cancel := Cancellation(true, true, who, reason)));
      case StdinError => TerminateTouches(cfg, Finish(cfg, s.(stdinFailed := true), Failed(PromptLost)));
      case Fire(id) => FireChild(cfg, s, id);
      case _ =>
    }
  }

  lemma FireChild(cfg: Config, s: RunState, id: nat)
    requires Due(s.bells.clock, id)
    ensures var t := OnFire(cfg, s, id);
      && t.exitInfo == s.exitInfo && t.liveAt == s.liveAt && t.listening == (s.listening && !Finalizes(s, Fire(id)))
      && (t.stdoutEnded <==> s.stdoutEnded || s.bells.clock.armed[id].kind == Drain)
  {
    hide TryFinalize, Conclude, TerminateProcess;
    var rung := s.(bells := s.bells.(clock := Disarm(s.bells.clock, Some(id))));
    TerminateTouches(cfg, Finish(cfg, rung, Failed(StartupSilence)));
    TerminateTouches(cfg, Finish(cfg, rung, Failed(TookTooLong)));
    TerminateTouches(cfg, Finish(cfg, rung, Failed(WentSilent)));
    FinalizeKeepsLaunch(cfg, rung.(stdoutEnded := true));
  }

  lemma {:induction false} LaunchStays(cfg: Config, s: RunState, os: seq<P.Outcome<M.Message>>)
    ensures TakeOutcomes(cfg, s, os).liveAt == s.liveAt && TakeOutcomes(cfg, s, os).listening == s.listening
    decreases |os|
  {
    hide TakeMessages, Conclude, Set;
    if os != [] {
      if os[0].Messages? { LaunchStaysMessages(cfg, s, os[0].messages); }
      LaunchStays(cfg, TakeOutcome(cfg, s, os[0]), os[1..]);
    }
  }

  lemma {:induction false} LaunchStaysMessages(cfg: Config, s: RunState, ms: seq<M.Message>)
    ensures TakeMessages(cfg, s, ms).liveAt == s.liveAt && TakeMessages(cfg, s, ms).listening == s.listening
    decreases |ms|
  {
    hide M.Mapped, Deliver, Clear;
    if ms != [] { LaunchStaysMessages(cfg, TakeMessage(cfg, s, ms[0]), ms[1..]); }
  }

  lemma FinalizeKeepsLaunch(cfg: Config, s: RunState)
    ensures SameChild(s, TryFinalize(cfg, s)) && TryFinalize(cfg, s).liveAt == s.liveAt
    ensures TryFinalize(cfg, s).listening == (s.listening && !Final(s))
  {
    FinalizeKeepsEnds(cfg, s);
    hide TakeOutcomes, Conclude, ClearAll, P.AfterFlush;
    LaunchStays(cfg, s.(parser := P.AfterFlush(s.parser)), Reported(s.parser, P.AfterFlush(s.parser)));
  }

  lemma DataChild(cfg: Config, s: RunState, text: P.Text)
    ensures SameChild(s, OnData(cfg, s, text)) && OnData(cfg, s, text).liveAt == s.liveAt && OnData(cfg, s, text).listening == s.listening
  {
    hide TakeOutcomes, P.AfterPush;
    OnlyBells(cfg, s);
    var ready := ArmInactivity(cfg, ClearStartup(s));
    var parser := P.AfterPush(ParserConfig(cfg), ready.parser, text);
    ChildStays(cfg, ready.(parser := parser), Reported(ready.parser, parser));
    LaunchStays(cfg, ready.(parser := parser), Reported(ready.parser, parser));
    hide ArmInactivity, ClearStartup;
  }

  // ------------------------------------------------------------------- the whole run

  /** When the process was last heard on stdout or stderr; at its launch, if never. */
  function LastHeard(cfg: Config, inputs: seq<Input>): real
    decreases |inputs|
  {
    if inputs == [] then 0.0
    else
      var before, last := inputs[..|inputs| - 1], inputs[|inputs| - 1];
      var s := After(cfg, before);
      if s.handle.None? then After(cfg, inputs).liveAt
      else if (last.StdoutData? || last.StderrData?) && Enabled(s, last) then s.bells.clock.now
      else LastHeard(cfg, before)
  }

  /** Nothing has told the startup timer to stop. */
  predicate Unstirred(cfg: Config, inputs: seq<Input>)
    decreases |inputs|
  {
    inputs == [] ||
    var before, last := inputs[..|inputs| - 1], inputs[|inputs| - 1];
    var s := After(cfg, before);
    Unstirred(cfg, before) && !(s.handle.Some? && Enabled(s, last) && Stirs(s, last))
  }

  ghost predicate Within(deadline: Option<real>, limit: real) {
    deadline.Some? && deadline.value <= limit
  }

  ghost predicate Watched(cfg: Config, s: RunState, heard: real, unstirred: bool) {
    s.handle.Some? ==>
      && (s.listening <==> !Final(s))
      && (s.out.completion.None? ==> Deadline(s.bells, Inactivity) == Some(heard + cfg.inactivity))
      && (!Final(s) ==> Deadline(s.bells, Startup) == if unstirred then Some(s.liveAt + cfg.startup) else None)
      && (s.exitInfo.Some? && !s.stdoutEnded ==> Within(Deadline(s.bells, Drain), s.bells.clock.now + cfg.drain))
      && (s.os.kills == 1 && s.handle.value.pid.Some? && s.os.forced == 0 && !Final(s) ==>
            Within(Deadline(s.bells, Grace), s.bells.clock.now + cfg.grace))
  }

  /** A spawned process before its prompt is written. */
  function Ready(cfg: Config, s: RunState, pid: Option<nat>): RunState {
    Supervise(cfg, s.(phase := Live, liveAt := s.bells.clock.now, bells := Set(s.bells, MaxDuration, cfg.maxDuration),
                      os := s.os.(spawns := s.os.spawns + 1)), pid)
  }

  lemma ReadyToRun(cfg: Config, s: RunState, pid: Option<nat>)
    requires Inv(cfg, s) && (s.phase.Idle? || s.phase.Gating?)
    ensures var r := Ready(cfg, s, pid);
      && Core(cfg, r) && Core(cfg, r.(stdinFailed := true)) && !Terminated(r) && r.handle == Some(ProcessHandle(pid))
      && r.exitInfo.None? && !r.stdoutEnded && r.liveAt == r.bells.clock.now == s.bells.clock.now && r.os == OsLog(1, 0, 0)
      && r.terminationStarted == s.terminationStarted && r.listening
      && Deadline(r.bells, Inactivity) == Some(r.liveAt + cfg.inactivity) && Deadline(r.bells, Startup) == Some(r.liveAt + cfg.startup)
  {
    SetKeeps(s.bells, MaxDuration, cfg.maxDuration);
    var live := s.(phase := Live, liveAt := s.bells.clock.now, bells := Set(s.bells, MaxDuration, cfg.maxDuration),
                   os := s.os.(spawns := s.os.spawns + 1));
    DeliverKeeps(cfg.ctx, live.out, RunStarted);
    var announced := live.(handle := Some(ProcessHandle(pid)), out := Deliver(cfg.ctx, live.out, RunStarted));
    AnnouncedKeeps(cfg, announced);
    SetDeadlines(cfg, announced);
    hide BellsInv, OutboxInv, Deliver, Deadline, Set, Clear;
  }

  lemma SetDeadlines(cfg: Config, s: RunState)
    requires BellsInv(s.bells) && !Terminated(s)
    ensures var b := Set(ArmInactivity(cfg, s).bells, Startup, cfg.startup);
      && b.clock.now == s.bells.clock.now
      && Deadline(b, Inactivity) == Some(s.bells.clock.now + cfg.inactivity)
      && Deadline(b, Startup) == Some(s.bells.clock.now + cfg.startup)
  {
    var c := Clear(s.bells, Inactivity);
    ClearKeeps(s.bells, Inactivity);
    DeadlinesMove(c, Inactivity, cfg.inactivity);
    SetKeeps(c, Inactivity, cfg.inactivity);
    DeadlinesMove(Set(c, Inactivity, cfg.inactivity), Startup, cfg.startup);
    hide BellsInv, Deadline;
  }

  lemma LaunchDeadlines(cfg: Config, s: RunState, pid: Option<nat>, writeThrows: bool)
    requires Inv(cfg, s) && (s.phase.Idle? || s.phase.Gating?) && !s.terminationStarted
    ensures var t := LaunchProcess(cfg, s, Spawned(pid, writeThrows));
            Watched(cfg, t, t.liveAt, true)
  {
    hide Core, FailAndTerminate, Deadline, BellsInv, OutboxInv, Supervise, Set;
    LaunchKeeps(cfg, s, Spawned(pid, writeThrows));
    ReadyToRun(cfg, s, pid);
    var lost := Ready(cfg, s, pid).(stdinFailed := true);
    FailQuietly(cfg, lost, PromptLost);
    SpawnedIsLive1(cfg, lost);
    FailKeeps(cfg, lost, PromptLost);
    FailKills(cfg, lost, PromptLost);
    CoreEnds(cfg, LaunchProcess(cfg, s, Spawned(pid, writeThrows)));
  }

  lemma CoreEnds(cfg: Config, s: RunState)
    requires Core(cfg, s)
    ensures Terminated(s) <==> s.out.completion.Some?
  {
  }

  /** A step keeps the watch; only output renews it. */
  lemma StepWatched(cfg: Config, s: RunState, input: Input, heard: real, unstirred: bool)
    requires Inv(cfg, s) && Story(cfg, s) && KillsCounted(s) && (s.stdinFailed ==> Terminated(s))
    requires s.handle.Some? && Enabled(s, input) && Watched(cfg, s, heard, unstirred)
    ensures Watched(cfg, Step(cfg, s, input),
                    if input.StdoutData? || input.StderrData? then s.bells.clock.now else heard, unstirred && !Stirs(s, input))
  {
    hide Core, Story, Step, Deadline, KillsFor;
    var t := Step(cfg, s, input);
    StepPreserves(cfg, s, input);
    StepKills(cfg, s, input);
    CoreEnds(cfg, s);
    CoreEnds(cfg, t);
    SpawnedIsLive1(cfg, s);
    StepChild(cfg, s, input);
    ForcedOnce(cfg, s);
    ForcedOnce(cfg, t);
    ReleasedIsDeaf(cfg, s);
    ReleasedIsDeaf(cfg, t);
    if !Final(t) { StepDeadlines(cfg, s, input); }
  }

  lemma ReleasedIsDeaf(cfg: Config, s: RunState)
    requires Inv(cfg, s)
    ensures Final(s) ==> !s.listening
  {
  }

  lemma ForcedOnce(cfg: Config, s: RunState)
    requires Core(cfg, s)
    ensures s.os.forced <= s.os.kills <= 1
  {
  }

  lemma {:induction false} AlwaysWatched(cfg: Config, inputs: seq<Input>)
    ensures Watched(cfg, After(cfg, inputs), LastHeard(cfg, inputs), Unstirred(cfg, inputs))
    ensures After(cfg, inputs).handle.None? ==> Unstirred(cfg, inputs)
    decreases |inputs|
  {
    hide After, Inv, Story, Step, Watched, Stirs;
    if inputs == [] {
      NothingYet(cfg);
      NobodyWatched(cfg, Initial(), 0.0);
    } else {
      var before, last := inputs[..|inputs| - 1], inputs[|inputs| - 1];
      assert inputs == before + [last];
      AlwaysWatched(cfg, before);
      AfterSnoc(cfg, before, last);
      AfterStory(cfg, before);
      CancelIsHistory(cfg, before);
      KillsAreCounted(cfg, before);
      var s := After(cfg, before);
      if !Enabled(s, last) {
        DisabledStays(cfg, s, last);
        if s.handle.None? { NobodyWatched(cfg, s, LastHeard(cfg, inputs)); }
      } else if s.handle.Some? {
        StepWatched(cfg, s, last, LastHeard(cfg, before), Unstirred(cfg, before));
        StepRemembers(cfg, s, last);
      } else {
        SpawnWatched(cfg, s, last);
      }
    }
  }

  lemma NobodyWatched(cfg: Config, s: RunState, heard: real)
    requires s.handle.None?
    ensures forall unstirred :: Watched(cfg, s, heard, unstirred)
  {
  }

  lemma SpawnWatched(cfg: Config, s: RunState, input: Input)
    requires Inv(cfg, s) && s.handle.None? && Enabled(s, input) && Innocent(s)
    ensures var t := Step(cfg, s, input); Watched(cfg, t, t.liveAt, true)
  {
    hide Core, Conclude, Set, Clear, TryFinalize, OnData, Deadline;
    Unspawned(cfg, s);
    if input.Iterate? && s.phase.Idle? && !s.cancel.recorded && input.launch.Spawned? {
      LaunchDeadlines(cfg, s, input.launch.pid, input.launch.writeThrows);
    }
    if input.GateResolved? && !s.cancel.recorded && input.gateLaunch.Spawned? {
      LaunchDeadlines(cfg, s, input.gateLaunch.pid, input.gateLaunch.writeThrows);
    }
    if input.Fire? && s.phase.Live? { UnspawnedFireKills(cfg, s, input.id); }
    SpawnFails(cfg, s);
    hide LaunchProcess, TerminateProcess;
    if input.Cancel? { TerminateTouches(cfg, s.(cancel := Cancellation(true, true, input.who, input.reason))); }
  }

  lemma Unspawned(cfg: Config, s: RunState)
    requires Inv(cfg, s) && s.handle.None?
    ensures s.exitInfo.None? && !s.listening && (!s.phase.Live? ==> s.bells.clock.armed == map[])
  {
  }

  /**
    The watchdogs, at every moment of a run with a process. Until it ends, the inactivity timer is set for
    the last output (or the launch) plus its period. Until exit and end of stdout are in, the startup timer is set
    for the launch plus its period exactly as long as there was no stdout, no exit and no process error. After the exit, until
    stdout ends: the drain timer is set within its period. After a kill, until exit and end of stdout or the force: the grace timer is.
   */
  lemma WatchdogsAreSet(cfg: Config, inputs: seq<Input>)
    requires After(cfg, inputs).handle.Some?
    ensures var s := After(cfg, inputs); var b := s.bells;
      && (s.out.completion.None? ==> Deadline(b, Inactivity) == Some(LastHeard(cfg, inputs) + cfg.inactivity))
      && (!Final(s) ==> Deadline(b, Startup) == if Unstirred(cfg, inputs) then Some(s.liveAt + cfg.startup) else None)
      && (s.exitInfo.Some? && !s.stdoutEnded ==> Within(Deadline(b, Drain), b.clock.now + cfg.drain))
      && (s.os.kills == 1 && s.handle.value.pid.Some? && s.os.forced == 0 && !Final(s) ==>
            Within(Deadline(b, Grace), b.clock.now + cfg.grace))
  {
    AlwaysWatched(cfg, inputs);
    hide After, Deadline;
  }

  /** A run with a process listens to it, unless exit and end of stdout are both in. */
  lemma ListensToTheEnd(cfg: Config, inputs: seq<Input>)
    requires After(cfg, inputs).handle.Some?
    ensures After(cfg, inputs).listening <==> !(After(cfg, inputs).exitInfo.Some? && After(cfg, inputs).stdoutEnded)
  {
    AlwaysWatched(cfg, inputs);
    hide After, Deadline;
  }

  // --------------------------------------------------------------------------- durations

  function Duration(cfg: Config): TimerKind -> real {
    (kind: TimerKind) => match kind
      case Startup => cfg.startup
      case Grace => cfg.grace
      case MaxDuration => cfg.maxDuration
      case Inactivity => cfg.inactivity
      case Drain => cfg.drain
  }

  /** The timers after a shared step, which takes no time. */
  ghost predicate OnTime(cfg: Config, s: RunState, t: RunState) {
    Timely(s.bells.clock, t.bells.clock, Duration(cfg)) && t.bells.clock.now == s.bells.clock.now
  }

  lemma OnTimeTwice(cfg: Config, s: RunState, t: RunState, u: RunState)
    requires OnTime(cfg, s, t) && OnTime(cfg, t, u)
    ensures OnTime(cfg, s, u)
  {
    TimelyTwice(s.bells.clock, t.bells.clock, u.bells.clock, Duration(cfg));
  }

  lemma TerminateOnTime(cfg: Config, s: RunState)
    ensures OnTime(cfg, s, TerminateProcess(cfg, s))
  {
  }

  lemma FailOnTime(cfg: Config, s: RunState, f: Failure)
    ensures OnTime(cfg, s, FailAndTerminate(cfg, s, f))
  {
    TerminateOnTime(cfg, Finish(cfg, s, Failed(f)));
    hide TerminateProcess, Conclude;
  }

  lemma ItemOnTime(cfg: Config, s: RunState, item: Item)
    ensures OnTime(cfg, s, FeedItem(cfg, s, item))
  {
    match item {
      case Said(m) => hide M.Mapped, Deliver;
      case Bad => FailOnTime(cfg, s.(malformed := s.malformed + 1), TooManyMalformed); hide FailAndTerminate;
      case Fatal(f) => FailOnTime(cfg, s, f); hide FailAndTerminate;
    }
  }

  lemma {:induction false} MessagesOnTime(cfg: Config, s: RunState, ms: seq<M.Message>)
    ensures OnTime(cfg, s, TakeMessages(cfg, s, ms))
    decreases |ms|
  {
    hide TakeMessage;
    if ms != [] {
      hide OnTime;
      ItemOnTime(cfg, s, Said(ms[0]));
      MessagesOnTime(cfg, TakeMessage(cfg, s, ms[0]), ms[1..]);
      OnTimeTwice(cfg, s, TakeMessage(cfg, s, ms[0]), TakeMessages(cfg, s, ms));
    }
  }

  lemma {:induction false} OutcomesOnTime(cfg: Config, s: RunState, os: seq<P.Outcome<M.Message>>)
    ensures OnTime(cfg, s, TakeOutcomes(cfg, s, os))
    decreases |os|
  {
    hide TakeMessages, TakeMalformed, FailAndTerminate;
    if os != [] {
      hide OnTime;
      match os[0] {
        case Messages(ms) => MessagesOnTime(cfg, s, ms);
        case MalformedJson(_) => ItemOnTime(cfg, s, Bad);
        case InvalidLine(_) => ItemOnTime(cfg, s, Bad);
        case OversizedLine => ItemOnTime(cfg, s, Fatal(LineOversized));
        case MessageLimitReached => ItemOnTime(cfg, s, Fatal(TooManyMessages));
        case TruncatedFinalLine => ItemOnTime(cfg, s, Fatal(StreamTruncated));
      }
      OutcomesOnTime(cfg, TakeOutcome(cfg, s, os[0]), os[1..]);
      OnTimeTwice(cfg, s, TakeOutcome(cfg, s, os[0]), TakeOutcomes(cfg, s, os));
    }
  }

  lemma DataOnTime(cfg: Config, s: RunState, text: P.Text)
    ensures OnTime(cfg, s, OnData(cfg, s, text))
  {
    hide P.AfterPush, TakeOutcomes;
    var ready := ArmInactivity(cfg, ClearStartup(s));
    assert OnTime(cfg, s, ready);
    var parser := P.AfterPush(ParserConfig(cfg), ready.parser, text);
    hide ArmInactivity, OnTime;
    OutcomesOnTime(cfg, ready.(parser := parser), Reported(ready.parser, parser));
    SameClockOnTime(cfg, ready, ready.(parser := parser));
    OnTimeTwice(cfg, s, ready, ready.(parser := parser));
    OnTimeTwice(cfg, s, ready.(parser := parser), TakeOutcomes(cfg, ready.(parser := parser), Reported(ready.parser, parser)));
  }

  lemma SameClockOnTime(cfg: Config, s: RunState, t: RunState)
    requires t.bells.clock == s.bells.clock
    ensures OnTime(cfg, s, t)
  {
  }

  lemma CleanupOnTime(cfg: Config, s: RunState)
    ensures OnTime(cfg, s, Cleanup(s))
  {
  }

  lemma FinalizeOnTime(cfg: Config, s: RunState)
    ensures OnTime(cfg, s, TryFinalize(cfg, s))
  {
    hide TakeOutcomes, P.AfterFlush, Conclude, OnTime, ClearAll;
    var flushed := Flushed(cfg, s);
    var parser := P.AfterFlush(s.parser);
    OutcomesOnTime(cfg, s.(parser := parser), Reported(s.parser, parser));
    SameClockOnTime(cfg, s, s.(parser := parser));
    SameClockOnTime(cfg, s, s);
    OnTimeTwice(cfg, s, s.(parser := parser), TakeOutcomes(cfg, s.(parser := parser), Reported(s.parser, parser)));
    var t := TryFinalize(cfg, s);
    if s.exitInfo.Some? && s.stdoutEnded {
      assert t.bells == ClearAll(flushed.bells) || t.bells == ClearAll(ClearAll(flushed.bells));
      CleanupOnTime(cfg, flushed);
      CleanupTwice(flushed);
      SameClockOnTime(cfg, Cleanup(flushed), t);
      OnTimeTwice(cfg, s, flushed, Cleanup(flushed));
      OnTimeTwice(cfg, s, Cleanup(flushed), t);
    }
  }

  lemma LaunchOnTime(cfg: Config, s: RunState, launch: Launch)
    ensures OnTime(cfg, s, LaunchProcess(cfg, s, launch))
  {
    hide Conclude, Deliver, FailAndTerminate;
    if launch.Spawned? {
      var ready := Ready(cfg, s, launch.pid);
      assert OnTime(cfg, s, ready);
      hide OnTime;
      FailOnTime(cfg, ready.(stdinFailed := true), PromptLost);
      SameClockOnTime(cfg, ready, ready.(stdinFailed := true));
      OnTimeTwice(cfg, s, ready, ready.(stdinFailed := true));
      OnTimeTwice(cfg, s, ready.(stdinFailed := true), FailAndTerminate(cfg, ready.(stdinFailed := true), PromptLost));
    }
  }

  lemma BellsOnTime(cfg: Config, s: RunState)
    ensures OnTime(cfg, s, ClearStartup(s)) && OnTime(cfg, s, ArmInactivity(cfg, s))
    ensures OnTime(cfg, s, s.(bells := Clear(s.bells, Drain))) && OnTime(cfg, s, s.(bells := Set(s.bells, Drain, cfg.drain)))
  {
  }

  lemma EndOnTime(cfg: Config, s: RunState)
    ensures OnTime(cfg, s, OnEnd(cfg, s))
  {
    hide TryFinalize, OnTime, Clear;
    var now := s.(stdoutEnded := true, bells := Clear(s.bells, Drain));
    BellsOnTime(cfg, s);
    SameClockOnTime(cfg, s.(bells := Clear(s.bells, Drain)), now);
    OnTimeTwice(cfg, s, s.(bells := Clear(s.bells, Drain)), now);
    FinalizeOnTime(cfg, now);
    OnTimeTwice(cfg, s, now, TryFinalize(cfg, now));
  }

  lemma ExitOnTime(cfg: Config, s: RunState, info: ExitInfo)
    ensures OnTime(cfg, s, OnExit(cfg, s, info))
  {
    hide TryFinalize, OnTime, ClearStartup, Set;
    var exited := ClearStartup(s).(exitInfo := Some(info));
    BellsOnTime(cfg, s);
    SameClockOnTime(cfg, ClearStartup(s), exited);
    OnTimeTwice(cfg, s, ClearStartup(s), exited);
    BellsOnTime(cfg, exited);
    var now := if s.stdoutEnded then exited else exited.(bells := Set(exited.bells, Drain, cfg.drain));
    SameClockOnTime(cfg, exited, exited);
    OnTimeTwice(cfg, s, exited, now);
    FinalizeOnTime(cfg, now);
    OnTimeTwice(cfg, s, now, TryFinalize(cfg, now));
  }

  lemma StartOnTime(cfg: Config, s: RunState, result: GateResult, launch: Launch)
    ensures OnTime(cfg, s, OnIterate(cfg, s, launch)) && OnTime(cfg, s, OnGate(cfg, s, result, launch))
  {
    LaunchOnTime(cfg, s, launch);
    CleanupOnTime(cfg, s);
    hide LaunchProcess, ClearAll, Conclude;
    SameClockOnTime(cfg, s, s);
  }

  lemma CancelOnTime(cfg: Config, s: RunState, who: CancelledBy, reason: Option<string>)
    ensures OnTime(cfg, s, OnCancel(cfg, s, who, reason))
  {
    TerminateOnTime(cfg, s.(cancel := Cancellation(true, true, who, reason)));
    hide TerminateProcess;
    SameClockOnTime(cfg, s, s);
  }

  lemma StdinOnTime(cfg: Config, s: RunState)
    ensures OnTime(cfg, s, OnStdinError(cfg, s))
  {
    FailOnTime(cfg, s.(stdinFailed := true), PromptLost);
    hide FailAndTerminate;
    SameClockOnTime(cfg, s, s);
  }

  /** Whatever happens, a timer that is armed afterwards was armed before or has just been set for exactly its duration. */
  lemma TimersKeepTime(cfg: Config, s: RunState, input: Input)
    ensures Timely(s.bells.clock, Step(cfg, s, input).bells.clock, Duration(cfg))
  {
    hide OnIterate, OnGate, OnCancel, OnData, OnEnd, OnExit, OnFire, OnStdinError, ArmInactivity, ClearStartup, Duration;
    var t := Step(cfg, s, input);
    SameClockOnTime(cfg, s, s);
    match input {
      case Iterate(launch) => StartOnTime(cfg, s, Passed, launch);
      case GateResolved(result, launch) => StartOnTime(cfg, s, result, launch);
      case Cancel(who, reason) => CancelOnTime(cfg, s, who, reason);
      case StdoutData(text) => DataOnTime(cfg, s, text);
      case StdoutEnd => EndOnTime(cfg, s);
      case Exit(info) => ExitOnTime(cfg, s, info);
      case StdinError => StdinOnTime(cfg, s);
      case Fire(id) => if Enabled(s, input) { FireOnTime(cfg, s, id); }
      case _ => BellsOnTime(cfg, s);
    }
  }

  lemma FireOnTime(cfg: Config, s: RunState, id: nat)
    requires id in s.bells.clock.armed
    ensures OnTime(cfg, s, OnFire(cfg, s, id))
  {
    hide TryFinalize, FailAndTerminate;
    var rung := s.(bells := s.bells.(clock := Disarm(s.bells.clock, Some(id))));
    assert OnTime(cfg, s, rung);
    hide OnTime;
    FailOnTime(cfg, rung, StartupSilence);
    FailOnTime(cfg, rung, TookTooLong);
    FailOnTime(cfg, rung, WentSilent);
    FinalizeOnTime(cfg, rung.(stdoutEnded := true));
    SameClockOnTime(cfg, rung, rung.(stdoutEnded := true));
    OnTimeTwice(cfg, s, rung, rung.(stdoutEnded := true));
    OnTimeTwice(cfg, s, rung.(stdoutEnded := true), TryFinalize(cfg, rung.(stdoutEnded := true)));
    OnTimeTwice(cfg, s, rung, FailAndTerminate(cfg, rung, StartupSilence));
    OnTimeTwice(cfg, s, rung, FailAndTerminate(cfg, rung, TookTooLong));
    OnTimeTwice(cfg, s, rung, FailAndTerminate(cfg, rung, WentSilent));
    SameClockOnTime(cfg, rung, rung.(os := rung.os.(forced := rung.os.forced + 1)));
    OnTimeTwice(cfg, s, rung, rung.(os := rung.os.(forced := rung.os.forced + 1)));
  }
}
