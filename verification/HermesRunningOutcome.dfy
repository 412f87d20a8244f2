/**
  What a normalised Hermes run hands out and how it ends, in terms of what raw events convey.
 */
module HermesRunningOutcome {
  import opened Wrappers
  import opened Events
  import H = HermesProtocol
  import T = HermesExecution
  import S = HermesExecutionSafety
  import G = HermesExecutionGuarantees
  import opened HermesRunning
  import opened HermesRunningSafety
  import opened HermesRunningGuarantees

  ghost predicate Readable(d: Decoder, e: H.RawEvent) {
    exists body :: Conveys(d, e, body)
  }

  lemma ReadableIsTranslated(d: Decoder, e: H.RawEvent)
    ensures Readable(d, e) <==> Translated(d, e).Some?
    ensures Translated(d, e).Some? ==> Conveys(d, e, Translated(d, e).value)
    ensures forall body :: Conveys(d, e, body) ==> Translated(d, e) == Some(body)
  {
    TranslationConveys(d, e);
    hide Conveys;
  }

  /**
    At every moment, the events handed out, but for the terminal one that ended the run, are what the first raw events
    convey, one for one and in order; none of those raw events is terminal or unreadable.
   */
  lemma HandedOutIsConveyed(cfg: Config, inputs: seq<Input>)
    ensures var j := After(cfg, inputs); var r := j.runner;
            var n := if r.phase.Done? then |r.yielded| - 1 else |r.yielded|;
      && (j.raw.None? ==> n <= 0)
      && (j.raw.Some? ==> 0 <= n <= |j.raw.value.queued| && forall i :: 0 <= i < n ==>
            Conveys(cfg.decode, j.raw.value.queued[i], r.yielded[i].body) && r.yielded[i].sequence == i)
  {
    hide Exec, Conveys;
    Reachable(cfg, inputs);
    var j := After(cfg, inputs);
    hide Translated, S.Inv;
    if j.raw.Some? {
      forall e: H.RawEvent ensures forall body :: Translated(cfg.decode, e) == Some(body) ==> Conveys(cfg.decode, e, body) {
        TranslationConveys(cfg.decode, e);
      }
    }
  }

  // --------------------------------------------------------------- when the raw run has settled

  /** The first raw event still to come that is neither terminal nor readable, or their number. */
  ghost predicate FirstUnreadable(d: Decoder, queued: seq<H.RawEvent>, from: nat, i: nat) {
    && from <= i <= |queued|
    && (forall k :: from <= k < i ==> H.IsTerminal(queued[k].kind) || Readable(d, queued[k]))
    && (i < |queued| ==> !H.IsTerminal(queued[i].kind) && !Readable(d, queued[i]))
  }

  ghost predicate HasTerminal(queued: seq<H.RawEvent>) {
    exists k :: 0 <= k < |queued| && H.IsTerminal(queued[k].kind)
  }

  /** How the run will end: an unreadable event comes first, then the raw run's own outcome. */
  ghost predicate Foretold(cfg: Config, j: Joint, i: nat, body: Body)
    requires j.raw.Some?
  {
    var r, raw := j.runner, j.raw.value;
    var cancelled := RunCancelled(r.cancelledBy, r.cancelReason);
    if i < |raw.queued| then body == if r.cancellationRequested then cancelled else InvalidPayload
    else match raw.settlement
      case Resolved(e, _) => if Readable(cfg.decode, e) then Conveys(cfg.decode, e, body) else body == InvalidPayload
      case _ => body == if r.cancellationRequested && !HasTerminal(raw.queued) then cancelled else TransportFailed
  }

  /** The rest of the run is decided: still producing towards this ending, holding it back for the raw run, or ended with it. */
  ghost predicate OnTheWay(cfg: Config, j: Joint, i: nat, body: Body) {
    && j.raw.Some? && T.Settled(j.raw.value)
    && match j.runner.phase
       case Streaming => FirstUnreadable(cfg.decode, j.raw.value.queued, j.taken, i) && Foretold(cfg, j, i, body)
       case Awaiting => FirstUnreadable(cfg.decode, j.raw.value.queued, j.taken, i) && Foretold(cfg, j, i, body)
       case AwaitingAfterMappingError(failed) => failed.body == body
       case Done => j.runner.completion.Some? && j.runner.completion.value.body == body
       case NotStarted => false
  }

  /** Taking one event on the way. */
  lemma TakeOnTheWay(cfg: Config, j: Joint, i: nat, body: Body)
    requires Inv(cfg, j) && OnTheWay(cfg, j, i, body) && j.runner.phase.Streaming? && j.taken < |j.raw.value.queued|
    ensures OnTheWay(cfg, Resumed(cfg, j), i, body)
  {
    hide Inv, T.Step, Translated, Readable, Conveys;
    ReadableIsTranslated(cfg.decode, j.raw.value.queued[j.taken]);
    RawStays(cfg, j);
    NotSeenYet(cfg, j);
  }

  lemma RawStays(cfg: Config, j: Joint)
    requires Inv(cfg, j) && j.raw.Some? && T.Settled(j.raw.value)
    ensures var t := T.Step(cfg.transport, j.raw.value, T.Input.Cancel);
            t.settlement == j.raw.value.settlement && t.queued == j.raw.value.queued && T.Settled(t)
  {
    hide T.Step;
    G.SettledStays(cfg.transport, j.raw.value, T.Input.Cancel);
  }

  lemma NotSeenYet(cfg: Config, j: Joint)
    requires Inv(cfg, j) && j.runner.phase.Streaming? && j.taken < |j.raw.value.queued|
    ensures !j.runner.rawTerminalSeen && j.runner.kit.terminal.None? && j.runner.completion.None?
  {
    TerminalIsLast(cfg, j.raw.value, j.taken);
    hide S.Inv, Relayed;
  }

  /** Everything has been drained: a terminal raw event has been seen if there is one. */
  lemma Drained(cfg: Config, j: Joint)
    requires Inv(cfg, j) && j.runner.phase.Awaiting?
    ensures j.taken == |j.raw.value.queued| && (j.runner.rawTerminalSeen <==> HasTerminal(j.raw.value.queued))
    ensures j.runner.kit.terminal.None? && j.runner.completion.None?
    ensures j.raw.value.settlement.Resolved? ==> HasTerminal(j.raw.value.queued)
  {
    var raw := j.raw.value;
    if raw.settlement.Resolved? { ResolvedQueue(cfg, raw); }
    if HasTerminal(raw.queued) {
      var k :| 0 <= k < |raw.queued| && H.IsTerminal(raw.queued[k].kind);
      TerminalIsLast(cfg, raw, |raw.queued| - 1);
    }
    hide S.Inv, Relayed;
  }

  /** The settled completion is collected on the way. */
  lemma CollectOnTheWay(cfg: Config, j: Joint, i: nat, body: Body)
    requires Inv(cfg, j) && OnTheWay(cfg, j, i, body) && j.runner.phase.Awaiting?
    ensures OnTheWay(cfg, Resumed(cfg, j), i, body)
  {
    hide Inv, T.Step, Translated, Readable, Conveys, HasTerminal;
    RawStays(cfg, j);
    Drained(cfg, j);
    if j.raw.value.settlement.Resolved? { ReadableIsTranslated(cfg.decode, j.raw.value.settlement.terminalEvent); }
  }

  lemma StepOnTheWay(cfg: Config, j: Joint, i: nat, body: Body)
    requires Inv(cfg, j) && OnTheWay(cfg, j, i, body)
    ensures OnTheWay(cfg, Resumed(cfg, j), i, body)
  {
    hide Inv, T.Step, OnRaw, Catch, Foretold, Forward;
    if j.runner.phase.Streaming? && j.taken < |j.raw.value.queued| {
      TakeOnTheWay(cfg, j, i, body);
    } else if j.runner.phase.Awaiting? {
      CollectOnTheWay(cfg, j, i, body);
    } else if j.runner.phase.Streaming? {
      AwaitingForetells(cfg, j, Resumed(cfg, j), i, body);
    } else if j.runner.phase.AwaitingAfterMappingError? {
      HeldBack(cfg, j);
    }
  }

  lemma HeldBack(cfg: Config, j: Joint)
    requires Inv(cfg, j) && j.runner.phase.AwaitingAfterMappingError?
    ensures j.runner.completion.None?
  {
    hide S.Inv, Relayed;
  }

  lemma AwaitingForetells(cfg: Config, j: Joint, k: Joint, i: nat, body: Body)
    requires j.raw.Some? && Foretold(cfg, j, i, body)
    requires k == j || k == j.(runner := j.runner.(phase := Awaiting))
    ensures k.raw.Some? && Foretold(cfg, k, i, body)
  {
    hide Conveys, Readable;
  }

  lemma {:induction false} ResumesOnTheWay(cfg: Config, j: Joint, resumes: seq<Input>, i: nat, body: Body)
    requires Inv(cfg, j) && OnTheWay(cfg, j, i, body) && forall k :: 0 <= k < |resumes| ==> resumes[k] == Resume
    ensures OnTheWay(cfg, Exec(cfg, j, resumes), i, body)
    decreases |resumes|
  {
    if resumes != [] {
      hide Inv, OnTheWay, Resumed;
      StepOnTheWay(cfg, j, i, body);
      StepKeeps(cfg, j, Resume);
      assert Step(cfg, j, resumes[0]) == Resumed(cfg, j);
      ResumesOnTheWay(cfg, Resumed(cfg, j), resumes[1..], i, body);
    }
  }

  /**
    The ending, exactly, once the raw run has settled: a consumer that keeps asking gets, after the events
    the raw ones convey, first what an unreadable event calls for (the cancellation if there was one, else an
    invalid payload); failing that, what the raw terminal event conveys if the raw run resolved; failing
    that, the cancellation if there was one and stdout had no terminal event, else a transport failure.
   */
  lemma SettledRunEnds(cfg: Config, inputs: seq<Input>, resumes: seq<Input>, i: nat, body: Body)
    requires var j := After(cfg, inputs);
      && j.raw.Some? && T.Settled(j.raw.value) && (j.runner.phase.Streaming? || j.runner.phase.Awaiting?)
      && FirstUnreadable(cfg.decode, j.raw.value.queued, j.taken, i) && Foretold(cfg, j, i, body)
      && |resumes| >= Measure(j) && forall k :: 0 <= k < |resumes| ==> resumes[k] == Resume
    ensures var r := After(cfg, inputs + resumes).runner;
            r.phase.Done? && r.completion.Some? && r.completion.value.body == body
  {
    hide Inv, Foretold, FirstUnreadable, Measure;
    var j := After(cfg, inputs);
    Reachable(cfg, inputs);
    ExecAppend(cfg, Created, inputs, resumes);
    ResumesFinish(cfg, j, resumes);
    ResumesOnTheWay(cfg, j, resumes, i, body);
  }

  /**
    The raw run's success reaches the consumer: if it resolved and every event is readable, the run ends with
    what its terminal event conveys, whether or not a cancellation was asked for in the meantime.
   */
  lemma ResolvedRunEnds(cfg: Config, inputs: seq<Input>, resumes: seq<Input>, body: Body)
    requires var j := After(cfg, inputs);
      && j.raw.Some? && j.raw.value.settlement.Resolved? && (j.runner.phase.Streaming? || j.runner.phase.Awaiting?)
      && (forall k :: 0 <= k < |j.raw.value.queued| ==> Readable(cfg.decode, j.raw.value.queued[k]))
      && Conveys(cfg.decode, j.raw.value.settlement.terminalEvent, body)
      && |resumes| >= Measure(j) && forall k :: 0 <= k < |resumes| ==> resumes[k] == Resume
    ensures var k := After(cfg, inputs + resumes);
      && k.runner.phase.Done? && k.runner.completion.Some? && k.runner.completion.value.body == body
  {
    hide Conveys, Measure;
    var j := After(cfg, inputs);
    Reachable(cfg, inputs);
    TakenWithin(cfg, j);
    hide Exec, Inv;
    SettledRunEnds(cfg, inputs, resumes, |j.raw.value.queued|, body);
  }

  lemma TakenWithin(cfg: Config, j: Joint)
    requires Inv(cfg, j) && j.raw.Some? && (j.runner.phase.Streaming? || j.runner.phase.Awaiting?)
    ensures j.taken <= |j.raw.value.queued|
  {
    hide S.Inv, Relayed;
  }

  // -------------------------------------------------------------------- start and cancellation

  /** The first iteration: a run cancelled before it is only cancelled, one that cannot start only fails, any other starts the raw run. */
  lemma BeginDecides(cfg: Config, inputs: seq<Input>, startThrows: bool, launch: T.Launch)
    requires After(cfg, inputs).runner.phase.NotStarted?
    ensures var r, k := After(cfg, inputs).runner, After(cfg, inputs + [Start(startThrows, launch)]);
      if r.cancellationRequested then k.raw.None? && Only(k.runner, RunCancelled(r.cancelledBy, r.cancelReason))
      else if startThrows then k.raw.None? && Only(k.runner, RunFailed("HERMES_TRANSPORT_FAILURE", "Hermes transport could not start."))
      else k.raw == Some(T.Begin(cfg.transport, launch)) && k.runner == r.(phase := Streaming)
  {
    hide T.Begin;
    var j := After(cfg, inputs);
    Reachable(cfg, inputs);
    AfterSnoc(cfg, inputs, Start(startThrows, launch));
    NotStartedIsFresh(cfg, j);
    hide After, Inv;
  }

  ghost predicate Only(r: Runner, body: Body) {
    r.phase.Done? && |r.yielded| == 1 && r.yielded[0].body == body && r.completion == Some(r.yielded[0])
  }

  lemma NotStartedIsFresh(cfg: Config, j: Joint)
    requires Inv(cfg, j) && j.runner.phase.NotStarted?
    ensures j.raw.None? && j.runner.yielded == [] && j.runner.kit.terminal.None? && j.runner.completion.None?
  {
  }

  lemma AfterSnoc(cfg: Config, inputs: seq<Input>, last: Input)
    ensures After(cfg, inputs + [last]) == Step(cfg, After(cfg, inputs), last)
  {
    hide Step;
    ExecAppend(cfg, Created, inputs, [last]);
    assert [last][1..] == [];
  }

  /**
    A cancellation counts once, before the end and before the raw terminal event; it is then remembered with
    its origin and reason and passed on to the raw run if there is one.
   */
  lemma CancelIsPassedOn(cfg: Config, inputs: seq<Input>, who: CancelledBy, reason: Option<string>)
    ensures var j, k := After(cfg, inputs), After(cfg, inputs + [Cancel(who, reason)]);
      if j.runner.cancellationRequested || j.runner.rawTerminalSeen || j.runner.kit.terminal.Some? then k == j
      else
        && k.runner == j.runner.(cancellationRequested := true, cancelledBy := who, cancelReason := reason)
        && k.raw == if j.raw.Some? then Some(T.Step(cfg.transport, j.raw.value, T.Input.Cancel)) else None
  {
    hide T.Step;
    AfterSnoc(cfg, inputs, Cancel(who, reason));
    Reachable(cfg, inputs);
    RawOnlyOnceStarted(cfg, After(cfg, inputs));
    hide After, Inv;
  }

  lemma RawOnlyOnceStarted(cfg: Config, j: Joint)
    requires Inv(cfg, j)
    ensures j.runner.phase.NotStarted? ==> j.raw.None?
  {
    hide S.Inv, Relayed;
  }

  /** Nothing else asks for it, and what was asked for is never replaced. */
  lemma CancelIsKept(cfg: Config, inputs: seq<Input>, last: Input)
    requires !last.Cancel? || After(cfg, inputs).runner.cancellationRequested
    ensures var r, q := After(cfg, inputs).runner, After(cfg, inputs + [last]).runner;
            q.cancellationRequested == r.cancellationRequested && q.cancelledBy == r.cancelledBy && q.cancelReason == r.cancelReason
  {
    hide T.Step, T.Begin, Translated;
    AfterSnoc(cfg, inputs, last);
    hide After;
  }

  /** An unreadable event that no cancellation excuses cancels the raw run, and ends the run as invalid once that has settled. */
  lemma UnreadableCancelsRaw(cfg: Config, inputs: seq<Input>)
    requires var j := After(cfg, inputs);
      && j.runner.phase.Streaming? && j.raw.Some? && j.taken < |j.raw.value.queued| && !j.runner.cancellationRequested
      && !H.IsTerminal(j.raw.value.queued[j.taken].kind) && !Readable(cfg.decode, j.raw.value.queued[j.taken])
    ensures var j, k := After(cfg, inputs), After(cfg, inputs + [Resume]);
      && k.raw == Some(T.Step(cfg.transport, j.raw.value, T.Input.Cancel)) && k.runner.yielded == j.runner.yielded
      && k.runner.phase.AwaitingAfterMappingError?
      && k.runner.phase.failed.body == RunFailed("HERMES_INVALID_EVENT", "Hermes emitted an invalid event payload.")
  {
    hide T.Step, Translated, Readable;
    var j := After(cfg, inputs);
    AfterSnoc(cfg, inputs, Resume);
    Reachable(cfg, inputs);
    ReadableIsTranslated(cfg.decode, j.raw.value.queued[j.taken]);
    NotSeenYet(cfg, j);
    hide After, Inv;
  }
}
