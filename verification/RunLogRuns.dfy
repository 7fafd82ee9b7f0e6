/** The chat handler's run, start to end: what it does, and that in every history each run does that and nothing else. */
module RunLogRuns {
  import opened Prelude
  import opened TurnErrors
  import opened Turn
  import opened TurnLaws
  import opened RunLog

  // ---------------------------------------------------------------- one run, start to end

  // What the environment decides about the steps of one run.
  datatype ChatEnv = ChatEnv(
    wipeTook: bool, armTook: bool, startWritten: bool, startBuffered: bool,
    streamed: seq<(WriterCall, bool)>, finishBuffered: bool, clearTook: bool)

  function Streamed(i: nat, calls: seq<(WriterCall, bool)>): seq<Step> {
    seq(|calls|, k requires 0 <= k < |calls| => Stream(i, calls[k].0, calls[k].1))
  }

  function ChatSteps(i: nat, e: ChatEnv): seq<Step> {
    [Wipe(i, e.wipeTook), Arm(i, e.armTook), Start(i, e.startWritten, e.startBuffered)]
      + (if e.startWritten then Streamed(i, e.streamed) + [Settle(i), Finish(i, e.finishBuffered)] else [])
      + [Clear(i, e.clearTook)]
  }

  // What a step of run i sends, whether or not it reaches the log.
  function EventsOf(c: RunConfig, step: Step): seq<Event> {
    match step
    case Start(_, _, _) => [RunStarted]
    case Stream(_, call, _) => Written(false, true, c.turn.agentId, call)
    case Finish(_, _) => [TerminalEvent(c)]
    case _ => []
  }

  function SentBy(c: RunConfig, steps: seq<Step>): seq<Event> {
    if steps == [] then []
    else
      var n := |steps| - 1;
      SentBy(c, steps[..n]) + EventsOf(c, steps[n])
  }

  function StreamActs(c: RunConfig, calls: seq<(WriterCall, bool)>): seq<Act> {
    if calls == [] then []
    else
      var n := |calls| - 1;
      StreamActs(c, calls[..n]) + Sends(Written(false, true, c.turn.agentId, calls[n].0))
  }

  // What the handler sends and stores, in order: the turn is persisted before its terminal event.
  function ChatActs(c: RunConfig, e: ChatEnv): seq<Act> {
    [Sent(RunStarted)] +
    if e.startWritten then
      StreamActs(c, e.streamed) + WebPersist(c.sessionId, c.turn, c.known).acts + [Sent(TerminalEvent(c))]
    else []
  }

  class ChatHandler {
    var steps: seq<Step>

    constructor ()
      ensures steps == []
    {
      steps := [];
    }

    // SetActiveRun: its error is ignored.
    method SetActiveRun(i: nat, wipeTook: bool, armTook: bool)
      modifies this
      ensures steps == old(steps) + [Wipe(i, wipeTook), Arm(i, armTook)]
    {
      steps := steps + [Wipe(i, wipeTook)];
      steps := steps + [Arm(i, armTook)];
    }

    // The agent streams through a writer that leaves the lifecycle to the handler.
    method HandleDeferred(i: nat, c: RunConfig, calls: seq<(WriterCall, bool)>, session: Session)
      modifies this, session`acts
      ensures steps == old(steps) + Streamed(i, calls)
      ensures session.acts == old(session.acts) + StreamActs(c, calls)
    {
      for k := 0 to |calls|
        invariant steps == old(steps) + Streamed(i, calls[..k])
        invariant session.acts == old(session.acts) + StreamActs(c, calls[..k])
      {
        ghost var before := session.acts;
        match calls[k].0 {
          case SendOther(data) => session.Send(AgentEvent(c.turn.agentId, data));
          case _ =>
        }
        assert session.acts == before + Sends(Written(false, true, c.turn.agentId, calls[k].0));
        steps := steps + [Stream(i, calls[k].0, calls[k].1)];
        assert calls[..k + 1][..k] == calls[..k];
      }
      assert calls[..|calls|] == calls;
    }

    // The handler from SetActiveRun on; the clearing is deferred, so it also ends an aborted run.
    method Chat(i: nat, c: RunConfig, e: ChatEnv, session: Session)
      requires session.sessionId == c.sessionId
      modifies this, session
      ensures steps == old(steps) + ChatSteps(i, e)
      ensures session.acts == old(session.acts) + ChatActs(c, e)
      ensures session.mapping ==
        if e.startWritten then Remap(old(session.mapping), c.turn, WebPersist(c.sessionId, c.turn, c.known).target)
        else old(session.mapping)
    {
      hide StreamActs, Streamed, WebPersist, Remap, Join;
      SetActiveRun(i, e.wipeTook, e.armTook);
      session.Send(RunStarted);
      steps := steps + [Start(i, e.startWritten, e.startBuffered)];
      if e.startWritten {
        HandleDeferred(i, c, e.streamed, session);
        var msg, persistErr := session.PersistTurnResult(c.turn, c.known);
        steps := steps + [Settle(i)];
        var terminalErr := Join(c.turn.err, persistErr);
        if c.turn.result.Some? && c.turn.result.value.error != "" {
          terminalErr := Join(terminalErr, Some(Leaf(Other(c.turn.result.value.error))));
        }
        if terminalErr.Some? {
          session.Send(RunError("turn failed"));
        } else {
          session.Send(RunFinished);
        }
        steps := steps + [Finish(i, e.finishBuffered)];
      }
      steps := steps + [Clear(i, e.clearTook)];
    }
  }

  // Whether a turn that was saved without error also needs a mapping.
  predicate NeedsMapping(c: RunConfig) {
    CleanAndSaved(c.turn) && (NewSession(c.turn, c.known) || c.known == "")
  }

  /** A run finishes exactly when neither the call nor its result failed and every store call the reply needed was acknowledged. */
  lemma {:induction false} FinishesWhen(c: RunConfig)
    ensures TerminalEvent(c) == RunFinished <==>
      && c.turn.err.None? && (c.turn.result.Some? ==> c.turn.result.value.error == "")
      && (Substantial(c.turn) ==> !StoreFailed(c.turn, NeedsMapping(c)))
    ensures TerminalEvent(c) != RunFinished ==> TerminalEvent(c) == RunError("turn failed")
  {
    hide WebPersist;
    PersistMeans(c.sessionId, c.turn, c.known);
  }

  /** A step of a run appends exactly what it sends, in order, when that is buffered, and nothing otherwise. */
  lemma {:induction false} StepAppends(cfg: seq<RunConfig>, s: State, step: Step)
    requires |cfg| == |s.runs| && s.starts != [] && |s.starts| == |s.cuts|
    requires IsRunStep(step) && RunStep(cfg, s, step).Some?
    ensures var t := RunStep(cfg, s, step).value;
      var sent := if (step.Start? || step.Stream? || step.Finish?) && step.buffered then EventsOf(cfg[step.run], step) else [];
      && |t.all| == |s.all| + |sent| && t.all[..|s.all|] == s.all
      && forall k | 0 <= k < |sent| :: t.all[|s.all| + k] == Entry(step.run, Epoch(s), sent[k])
  {
    hide TerminalEvent, Written;
    if step.Stream? {
      DeferredIsQuiet(cfg[step.run].turn.agentId, step.call);
    }
    var t := RunStep(cfg, s, step).value;
    var sent := if (step.Start? || step.Stream? || step.Finish?) && step.buffered then EventsOf(cfg[step.run], step) else [];
    if sent == [] {
      assert t.all == s.all;
    } else {
      assert |sent| == 1 && t.all == s.all + [Entry(step.run, Epoch(s), sent[0])];
    }
  }

  function EventsIn(acts: seq<Act>): seq<Event> {
    if acts == [] then []
    else
      var n := |acts| - 1;
      EventsIn(acts[..n]) + if acts[n].Sent? then [acts[n].event] else []
  }

  lemma {:induction false} EventsInConcat(a: seq<Act>, b: seq<Act>)
    ensures EventsIn(a + b) == EventsIn(a) + EventsIn(b)
  {
    if b == [] {
      assert a + b == a;
    } else {
      var n := |b| - 1;
      assert (a + b)[..|a + b| - 1] == a + b[..n];
      EventsInConcat(a, b[..n]);
    }
  }

  lemma {:induction false} SentByConcat(c: RunConfig, a: seq<Step>, b: seq<Step>)
    ensures SentBy(c, a + b) == SentBy(c, a) + SentBy(c, b)
  {
    hide EventsOf;
    if b == [] {
      assert a + b == a;
    } else {
      var n := |b| - 1;
      assert (a + b)[..|a + b| - 1] == a + b[..n];
      SentByConcat(c, a, b[..n]);
    }
  }

  lemma {:induction false} OneEvent(events: seq<Event>)
    requires |events| <= 1
    ensures EventsIn(Sends(events)) == events
  {
    if events == [] {
    } else {
      assert Sends(events) == [Sent(events[0])] && Sends(events)[..0] == [];
    }
  }

  lemma {:induction false} StreamedEvents(c: RunConfig, i: nat, calls: seq<(WriterCall, bool)>)
    ensures EventsIn(StreamActs(c, calls)) == SentBy(c, Streamed(i, calls))
  {
    if calls == [] {
    } else {
      var n := |calls| - 1;
      var last := Written(false, true, c.turn.agentId, calls[n].0);
      StreamedEvents(c, i, calls[..n]);
      EventsInConcat(StreamActs(c, calls[..n]), Sends(last));
      DeferredIsQuiet(c.turn.agentId, calls[n].0);
      assert Streamed(i, calls)[..n] == Streamed(i, calls[..n]);
      hide Written;
      OneEvent(last);
    }
  }

  lemma {:induction false} StoringSendsNothing(acts: seq<Act>)
    requires forall k | 0 <= k < |acts| :: !acts[k].Sent?
    ensures EventsIn(acts) == []
  {
    if acts == [] {
    } else {
      StoringSendsNothing(acts[..|acts| - 1]);
    }
  }

  lemma {:induction false} PersistOnlyStores(c: RunConfig)
    ensures forall k | 0 <= k < |WebPersist(c.sessionId, c.turn, c.known).acts| ::
      !WebPersist(c.sessionId, c.turn, c.known).acts[k].Sent?
  {
    hide TranscriptText, MappingTarget, Join, StoreFailure;
  }

  lemma {:induction false} EventsOfChat(c: RunConfig, e: ChatEnv)
    ensures EventsIn(ChatActs(c, e)) ==
      [RunStarted] + if e.startWritten then EventsIn(StreamActs(c, e.streamed)) + [TerminalEvent(c)] else []
  {
    hide StreamActs, TerminalEvent, WebPersist;
    OneEvent([RunStarted]);
    assert Sends([RunStarted]) == [Sent(RunStarted)];
    if e.startWritten {
      var p := WebPersist(c.sessionId, c.turn, c.known).acts;
      PersistOnlyStores(c);
      StoringSendsNothing(p);
      OneEvent([TerminalEvent(c)]);
      assert Sends([TerminalEvent(c)]) == [Sent(TerminalEvent(c))];
      hide EventsIn;
      EventsInConcat([Sent(RunStarted)], StreamActs(c, e.streamed) + p + [Sent(TerminalEvent(c))]);
      EventsInConcat(StreamActs(c, e.streamed) + p, [Sent(TerminalEvent(c))]);
      EventsInConcat(StreamActs(c, e.streamed), p);
    } else {
      assert [Sent(RunStarted)] + [] == [Sent(RunStarted)];
    }
  }

  lemma {:induction false} SentByNone(c: RunConfig)
    ensures SentBy(c, []) == []
  {}

  lemma {:induction false} SentByOne(c: RunConfig, step: Step)
    ensures SentBy(c, [step]) == EventsOf(c, step)
  {
    assert [step][..0] == [];
    assert SentBy(c, []) == [];
  }

  lemma {:induction false} SentByHead(c: RunConfig, i: nat, e: ChatEnv)
    ensures SentBy(c, [Wipe(i, e.wipeTook), Arm(i, e.armTook), Start(i, e.startWritten, e.startBuffered)]) == [RunStarted]
  {
    var wipe, arm, start := Wipe(i, e.wipeTook), Arm(i, e.armTook), Start(i, e.startWritten, e.startBuffered);
    assert [wipe, arm, start] == [wipe] + [arm] + [start];
    SentByConcat(c, [wipe] + [arm], [start]);
    SentByConcat(c, [wipe], [arm]);
    SentByOne(c, wipe);
    SentByOne(c, arm);
    SentByOne(c, start);
  }

  lemma {:induction false} SentByChat(c: RunConfig, i: nat, e: ChatEnv)
    ensures SentBy(c, ChatSteps(i, e)) ==
      [RunStarted] + if e.startWritten then SentBy(c, Streamed(i, e.streamed)) + [TerminalEvent(c)] else []
  {
    hide Streamed, TerminalEvent, SentBy;
    var head := [Wipe(i, e.wipeTook), Arm(i, e.armTook), Start(i, e.startWritten, e.startBuffered)];
    var last := [Settle(i), Finish(i, e.finishBuffered)];
    var body := if e.startWritten then Streamed(i, e.streamed) + last else [];
    SentByHead(c, i, e);
    SentByConcat(c, head + body, [Clear(i, e.clearTook)]);
    SentByConcat(c, head, body);
    SentByOne(c, Clear(i, e.clearTook));
    if e.startWritten {
      SentByConcat(c, Streamed(i, e.streamed), last);
      SentByConcat(c, [Settle(i)], [Finish(i, e.finishBuffered)]);
      assert [Settle(i)] + [Finish(i, e.finishBuffered)] == last;
      SentByOne(c, Settle(i));
      SentByOne(c, Finish(i, e.finishBuffered));
    } else {
      SentByNone(c);
    }
  }

  /** The events among what the handler does are those its steps send. */
  lemma {:induction false} HandlerSendsItsSteps(c: RunConfig, i: nat, e: ChatEnv)
    ensures EventsIn(ChatActs(c, e)) == SentBy(c, ChatSteps(i, e))
  {
    hide ChatActs, ChatSteps, StreamActs, Streamed, EventsIn, SentBy;
    EventsOfChat(c, e);
    SentByChat(c, i, e);
    StreamedEvents(c, i, e.streamed);
  }

  // Only run i can have moved.
  ghost predicate OnlyRun(s: State, t: State, i: nat, r: RunState) {
    i < |s.runs| && t.runs == s.runs[i := r] && t.starts != [] && |t.starts| == |t.cuts|
  }

  lemma {:induction false} StreamingStaysLive(cfg: seq<RunConfig>, s: State, i: nat, calls: seq<(WriterCall, bool)>)
    requires |cfg| == |s.runs| && s.starts != [] && |s.starts| == |s.cuts|
    requires i < |s.runs| && s.runs[i].phase.Live?
    ensures Exec(cfg, s, Streamed(i, calls)).Some? && OnlyRun(s, Exec(cfg, s, Streamed(i, calls)).value, i, s.runs[i])
  {
    if calls == [] {
    } else {
      var n := |calls| - 1;
      StreamingStaysLive(cfg, s, i, calls[..n]);
      assert Streamed(i, calls)[..n] == Streamed(i, calls[..n]);
    }
  }

  lemma {:induction false} ExecThree(cfg: seq<RunConfig>, s: State, a: Step, b: Step, c: Step)
    ensures Exec(cfg, s, [a]) == Next(cfg, s, a)
    ensures Exec(cfg, s, [a, b]) == match Next(cfg, s, a) case None => None case Some(t) => Next(cfg, t, b)
    ensures Exec(cfg, s, [a, b, c]) == match Exec(cfg, s, [a, b]) case None => None case Some(t) => Next(cfg, t, c)
  {
    hide Next;
    assert [a][..0] == [] && [a, b][..1] == [a] && [a, b, c][..2] == [a, b];
  }

  lemma {:induction false} ChatBegins(cfg: seq<RunConfig>, s: State, i: nat, e: ChatEnv)
    requires |cfg| == |s.runs| && s.starts != [] && |s.starts| == |s.cuts|
    requires i < |s.runs| && s.runs[i] == RunState(Idle, false, false, false)
    ensures var t := Exec(cfg, s, [Wipe(i, e.wipeTook), Arm(i, e.armTook), Start(i, e.startWritten, e.startBuffered)]);
      t.Some? && OnlyRun(s, t.value, i, RunState(if e.startWritten then Live else Aborted, e.armTook, e.startWritten, false))
  {
    hide Exec;
    ExecThree(cfg, s, Wipe(i, e.wipeTook), Arm(i, e.armTook), Start(i, e.startWritten, e.startBuffered));
  }

  lemma {:induction false} ChatContinues(cfg: seq<RunConfig>, s: State, t: State, i: nat, e: ChatEnv)
    requires |cfg| == |s.runs|
    requires OnlyRun(s, t, i, RunState(if e.startWritten then Live else Aborted, e.armTook, e.startWritten, false))
    ensures var body := if e.startWritten then Streamed(i, e.streamed) + [Settle(i), Finish(i, e.finishBuffered)] else [];
      var u := Exec(cfg, t, body + [Clear(i, e.clearTook)]);
      u.Some? && OnlyRun(s, u.value, i, RunState(Over, e.armTook, e.startWritten, e.startWritten))
  {
    hide Exec, TerminalEvent, Streamed;
    var clear := Clear(i, e.clearTook);
    if e.startWritten {
      StreamingStaysLive(cfg, t, i, e.streamed);
      var u := Exec(cfg, t, Streamed(i, e.streamed)).value;
      ExecConcat(cfg, t, Streamed(i, e.streamed), [Settle(i), Finish(i, e.finishBuffered), clear]);
      assert Streamed(i, e.streamed) + [Settle(i), Finish(i, e.finishBuffered)] + [clear]
        == Streamed(i, e.streamed) + [Settle(i), Finish(i, e.finishBuffered), clear];
      ExecThree(cfg, u, Settle(i), Finish(i, e.finishBuffered), clear);
    } else {
      assert [] + [clear] == [clear];
      ExecThree(cfg, t, clear, clear, clear);
    }
  }

  /**
   * The handler's steps are exactly what the protocol lets one run do: from idle
   * they all take place and leave it over, persisted if and only if it started.
   */
  lemma {:induction false} ChatRunsThrough(cfg: seq<RunConfig>, s: State, i: nat, e: ChatEnv)
    requires |cfg| == |s.runs| && s.starts != [] && |s.starts| == |s.cuts|
    requires i < |s.runs| && s.runs[i] == RunState(Idle, false, false, false)
    ensures var t := Exec(cfg, s, ChatSteps(i, e));
      t.Some? && OnlyRun(s, t.value, i, RunState(Over, e.armTook, e.startWritten, e.startWritten))
  {
    hide Exec, Next, Streamed, OnlyRun;
    var head := [Wipe(i, e.wipeTook), Arm(i, e.armTook), Start(i, e.startWritten, e.startBuffered)];
    ChatBegins(cfg, s, i, e);
    var t := Exec(cfg, s, head).value;
    var body := if e.startWritten then Streamed(i, e.streamed) + [Settle(i), Finish(i, e.finishBuffered)] else [];
    var tail := [Clear(i, e.clearTook)];
    ChatContinues(cfg, s, t, i, e);
    ExecConcat(cfg, s, head, body + tail);
    assert ChatSteps(i, e) == head + (body + tail);
  }

  // ---------------------------------------------------------------- in every history

  // The steps of one run, in their order in the history.
  function Own(steps: seq<Step>, i: nat): seq<Step> {
    if steps == [] then []
    else
      var n := |steps| - 1;
      Own(steps[..n], i) + if IsRunStep(steps[n]) && steps[n].run == i then [steps[n]] else []
  }

  predicate AllStreams(steps: seq<Step>, from: nat, to: nat)
    requires to <= |steps|
  {
    forall k | from <= k < to :: steps[k].Stream?
  }

  // The first three steps of a run that went past RUN_STARTED, which reached its client or not.
  predicate Begun(own: seq<Step>, written: bool) {
    |own| >= 3 && own[0].Wipe? && own[1].Arm? && own[2].Start? && own[2].written == written
  }

  // What a run has done when it is in a phase.
  ghost predicate ByPhase(r: RunState, own: seq<Step>, i: nat) {
    && (forall k | 0 <= k < |own| :: IsRunStep(own[k]) && own[k].run == i)
    && match r.phase
       case Idle => own == []
       case Wiped => |own| == 1 && own[0].Wipe?
       case Armed => |own| == 2 && own[0].Wipe? && own[1].Arm?
       case Live => r.started && Begun(own, true) && AllStreams(own, 3, |own|)
       case Aborted => !r.started && Begun(own, false) && |own| == 3
       case Settled => r.started && Begun(own, true) && |own| >= 4 && AllStreams(own, 3, |own| - 1) && own[|own| - 1].Settle?
       case Closed =>
         r.started && Begun(own, true) && |own| >= 5 && AllStreams(own, 3, |own| - 2) && own[|own| - 2].Settle? && own[|own| - 1].Finish?
       case Over =>
         if r.started then
           Begun(own, true) && |own| >= 6 && AllStreams(own, 3, |own| - 3)
           && own[|own| - 3].Settle? && own[|own| - 2].Finish? && own[|own| - 1].Clear?
         else Begun(own, false) && |own| == 4 && own[3].Clear?
  }

  lemma {:induction false} StepByPhase(cfg: seq<RunConfig>, s: State, step: Step, own: seq<Step>, i: nat)
    requires |cfg| == |s.runs| && s.starts != [] && |s.starts| == |s.cuts|
    requires i < |s.runs| && Next(cfg, s, step).Some? && ByPhase(s.runs[i], own, i)
    ensures var t := Next(cfg, s, step).value;
      && i < |t.runs|
      && ByPhase(t.runs[i], own + if IsRunStep(step) && step.run == i then [step] else [], i)
  {
    hide ReaderStep, TerminalEvent, Written;
    var t := Next(cfg, s, step).value;
    if IsRunStep(step) && step.run == i {
      var more := own + [step];
      assert forall k | 0 <= k < |own| :: more[k] == own[k];
    } else {
      assert own + [] == own;
      assert t.runs[i] == s.runs[i];
    }
  }

  lemma {:induction false} IdleByPhase(cfg: seq<RunConfig>, s: State, i: nat)
    requires Initial(cfg, s) && i < |cfg|
    ensures |s.runs| == |cfg| && ByPhase(s.runs[i], [], i)
  {}

  lemma {:induction false} ShapeOf(cfg: seq<RunConfig>, s: State)
    requires Inv(cfg, s)
    ensures |s.runs| == |cfg| && s.starts != [] && |s.starts| == |s.cuts|
  {}

  lemma {:induction false} HistoryByPhase(cfg: seq<RunConfig>, s: State, steps: seq<Step>, i: nat)
    requires Initial(cfg, s) && Exec(cfg, s, steps).Some? && i < |cfg|
    ensures var t := Exec(cfg, s, steps).value;
      |t.runs| == |cfg| && ByPhase(t.runs[i], Own(steps, i), i)
  {
    hide Next, Inv, ByPhase;
    if steps == [] {
      IdleByPhase(cfg, s, i);
    } else {
      var n := |steps| - 1;
      var t := Exec(cfg, s, steps[..n]).value;
      HistoryByPhase(cfg, s, steps[..n], i);
      Reachable(cfg, s, steps[..n]);
      Reachable(cfg, s, steps);
      ShapeOf(cfg, t);
      ShapeOf(cfg, Exec(cfg, s, steps).value);
      StepByPhase(cfg, t, steps[n], Own(steps[..n], i), i);
    }
  }

  // The environment that makes the handler take these steps.
  function EnvOf(own: seq<Step>, streams: nat): ChatEnv
    requires streams + 3 <= |own| || streams == 0
    requires forall k | 3 <= k < 3 + streams :: own[k].Stream?
    requires |own| > 0 ==> own[0].Wipe?
    requires |own| > 1 ==> own[1].Arm?
    requires |own| > 2 ==> own[2].Start?
  {
    ChatEnv(
      |own| > 0 && own[0].took, |own| > 1 && own[1].took,
      |own| <= 2 || own[2].written, |own| > 2 && own[2].buffered,
      seq(streams, k requires 0 <= k < streams => (own[k + 3].call, own[k + 3].buffered)),
      |own| > streams + 4 && own[streams + 4].Finish? && own[streams + 4].buffered,
      |own| > 3 && own[|own| - 1].Clear? && own[|own| - 1].took)
  }

  // How many events a run has streamed.
  function StreamCount(r: RunState, own: seq<Step>): int {
    match r.phase
    case Live => |own| - 3
    case Settled => |own| - 4
    case Closed => |own| - 5
    case Over => if r.started then |own| - 6 else 0
    case _ => 0
  }

  lemma {:induction false} FollowsHandler(r: RunState, own: seq<Step>, i: nat)
    requires ByPhase(r, own, i)
    ensures exists e :: own <= ChatSteps(i, e)
    ensures r.phase.Over? ==> exists e :: own == ChatSteps(i, e)
  {
    var n := StreamCount(r, own);
    var e := EnvOf(own, n);
    var all := ChatSteps(i, e);
    var streamed := Streamed(i, e.streamed);
    assert |streamed| == n;
    assert forall k | 0 <= k < n :: streamed[k] == own[k + 3];
    forall k | 0 <= k < |own|
      ensures k < |all| && own[k] == all[k]
    {
      if 3 <= k < n + 3 {
        assert all[k] == streamed[k - 3];
      }
    }
    assert own <= all;
    if r.phase.Over? {
      assert |own| == |all|;
      assert own == all;
    }
  }

  /**
   * However histories interleave, the steps a run has taken are the first steps
   * of the chat handler in some environment, and all of them once it is over.
   */
  lemma {:induction false} RunsFollowTheHandler(cfg: seq<RunConfig>, s: State, steps: seq<Step>, i: nat)
    requires Initial(cfg, s) && Exec(cfg, s, steps).Some? && i < |cfg|
    ensures exists e :: Own(steps, i) <= ChatSteps(i, e)
    ensures var t := Exec(cfg, s, steps).value;
      i < |t.runs| && (t.runs[i].phase.Over? ==> exists e :: Own(steps, i) == ChatSteps(i, e))
  {
    HistoryByPhase(cfg, s, steps, i);
    var own := Own(steps, i);
    var r := Exec(cfg, s, steps).value.runs[i];
    hide Exec, Own, Initial;
    FollowsHandler(r, own, i);
  }
}
