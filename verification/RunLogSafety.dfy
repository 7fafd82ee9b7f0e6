/** What readers see, and what a finished run means, in every reachable state of the reconnect protocol. */
module RunLogSafety {
  import opened Prelude
  import opened TurnErrors
  import opened Turn
  import opened RunLog
  import DebateLifecycle

  // ---------------------------------------------------------------- what a reader has seen

  lemma {:induction false} UntrimmedEpoch(s: State, q: nat)
    requires EpochsOk(s) && EntriesOk(s) && q < |s.all|
    requires var e := s.all[q].epoch; End(s, e) - s.starts[e] <= MAX_LEN
    ensures !Dropped(s, q)
  {
    var e := s.all[q].epoch;
    assert EpochOk(s, e);
  }

  lemma {:induction false} EpochOf(s: State, e: nat, q: nat)
    requires EpochsOk(s) && EntriesOk(s) && e < |s.starts| && s.starts[e] <= q < End(s, e)
    ensures q < |s.all| && s.all[q].epoch == e
  {
    assert EpochOk(s, e);
    var f := s.all[q].epoch;
    assert s.starts[f] <= q < End(s, f);
  }

  // One past the last delivered position of epoch e.
  lemma {:induction false} LastDelivered(cfg: seq<RunConfig>, s: State, d: seq<nat>, e: nat) returns (m: nat)
    requires EpochsOk(s) && e < |s.starts|
    ensures s.starts[e] <= m <= End(s, e)
    ensures m > s.starts[e] ==> m - 1 in d
    ensures forall q | q in d && s.starts[e] <= q < End(s, e) :: q < m
    decreases |d|
  {
    assert EpochOk(s, e);
    if d == [] {
      m := s.starts[e];
    } else {
      var n := |d| - 1;
      m := LastDelivered(cfg, s, d[..n], e);
      assert d == d[..n] + [d[n]];
      if s.starts[e] <= d[n] < End(s, e) && m <= d[n] {
        m := d[n] + 1;
      }
    }
  }

  /**
   * Whatever the interleaving, what a reader has delivered goes forward only,
   * and of each stream that never outgrew the buffer it is exactly a prefix.
   */
  lemma {:induction false} ReplayIsPrefixes(cfg: seq<RunConfig>, s: State, i: nat, e: nat) returns (m: nat)
    requires Inv(cfg, s) && i < |s.readers| && e < |s.starts|
    requires End(s, e) - s.starts[e] <= MAX_LEN
    ensures InOrder(s.readers[i].delivered)
    ensures s.starts[e] <= m <= End(s, e)
    ensures forall q: nat | s.starts[e] <= q < End(s, e) :: q in s.readers[i].delivered <==> q < m
  {
    var rd := s.readers[i];
    assert ReaderOk(s, rd);
    m := LastDelivered(cfg, s, rd.delivered, e);
    forall q: nat | s.starts[e] <= q < End(s, e)
      ensures q in rd.delivered <==> q < m
    {
      EpochOf(s, e, q);
      if q + 1 < m {
        EpochOf(s, e, m - 1);
        UntrimmedEpoch(s, q);
        var k :| 0 <= k < |rd.delivered| && rd.delivered[k] == m - 1;
        assert SkipsNothing(s, rd.delivered, rd.delivered[k], q);
      }
    }
  }

  /**
   * A stream that did outgrow the buffer leaves a gap: an event trimmed before
   * the reader's next read is passed over, and what follows lies beyond it.
   */
  lemma {:induction false} TrimmedIsPassedOver(s: State, rd: Reader, q: nat, i: nat)
    requires EpochsOk(s) && ReaderOk(s, rd) && rd.phase.Open? && rd.pending == []
    requires rd.cursor <= q < Base(s) < |s.all|
    ensures var t := ReaderStep(s, rd, Read(i));
      && t.Some? && t.value.pending != []
      && q !in t.value.delivered && forall p | p in t.value.pending :: q < p
  {
    BatchShape(s.all, Base(s), rd.cursor);
    assert q !in rd.delivered;
  }

  /**
   * A reader that stopped on a terminal event delivered just that one, last,
   * and with it everything its run still had in that stream.
   */
  lemma {:induction false} StoppedReaderIsComplete(cfg: seq<RunConfig>, s: State, i: nat)
    requires Inv(cfg, s) && i < |s.readers| && s.readers[i].phase == Left(SawTerminal)
    ensures var d := s.readers[i].delivered;
      && d != [] && d[|d| - 1] < |s.all|
      && (forall k | 0 <= k < |d| :: s.all[d[k]].event.RunFinished? || s.all[d[k]].event.RunError? <==> k == |d| - 1)
      && (forall q: nat | q < |s.all| && s.all[q].run == s.all[d[|d| - 1]].run
                          && s.all[q].epoch == s.all[d[|d| - 1]].epoch && !Dropped(s, q) :: q in d)
  {
    hide EpochsOk, EntriesOk, PendingOk;
    var rd := s.readers[i];
    assert ReaderOk(s, rd);
    var d := rd.delivered;
    var p := d[|d| - 1];
    assert Terminal(s.all[p].event);
    forall q: nat | q < |s.all| && s.all[q].run == s.all[p].run && s.all[q].epoch == s.all[p].epoch && !Dropped(s, q)
      ensures q in d
    {
      if q < p {
        assert SkipsNothing(s, d, d[|d| - 1], q);
      }
    }
  }

  /** Any reader, at any time, has delivered at most one terminal event, and nothing after it. */
  lemma {:induction false} TerminalEndsDelivery(cfg: seq<RunConfig>, s: State, i: nat, k: nat)
    requires Inv(cfg, s) && i < |s.readers| && k < |s.readers[i].delivered|
    requires s.readers[i].delivered[k] < |s.all|
    requires var e := s.all[s.readers[i].delivered[k]].event; e.RunFinished? || e.RunError?
    ensures k == |s.readers[i].delivered| - 1 && s.readers[i].phase == Left(SawTerminal)
  {
    assert ReaderOk(s, s.readers[i]);
  }

  // The loop form of delivering a pending batch is the step form.
  function DeliverAll(s: State, rd: Reader, writes: nat -> bool): Reader
    requires forall i | 0 <= i < |rd.pending| :: rd.pending[i] < |s.all|
    decreases |rd.pending|
  {
    if rd.pending == [] || !rd.phase.Open? then rd
    else DeliverAll(s, Handed(rd, s.all[rd.pending[0]].event, writes(|rd.delivered|)), writes)
  }

  function BatchOf(s: State, pending: seq<nat>): seq<(nat, Event)>
    requires forall i | 0 <= i < |pending| :: pending[i] < |s.all|
  {
    seq(|pending|, i requires 0 <= i < |pending| => (pending[i], s.all[pending[i]].event))
  }

  /** Serving a batch in the read loop does what delivering its events step by step does. */
  lemma {:induction false} LoopIsSteps(s: State, rd: Reader, writes: nat -> bool)
    requires rd.phase.Open? && forall i | 0 <= i < |rd.pending| :: rd.pending[i] < |s.all|
    ensures Served(rd.(pending := []), BatchOf(s, rd.pending), writes) == DeliverAll(s, rd, writes)
    decreases |rd.pending|
  {
    if rd.pending == [] {
    } else {
      var batch := BatchOf(s, rd.pending);
      var e := s.all[rd.pending[0]].event;
      var w := writes(|rd.delivered|);
      var next := Handed(rd, e, w);
      assert batch[0] == (rd.pending[0], e);
      assert batch[1..] == BatchOf(s, rd.pending[1..]);
      assert rd.(pending := []).(pending := [batch[0].0]) == rd.(pending := [rd.pending[0]]);
      var one := Handed(rd.(pending := [rd.pending[0]]), e, w);
      assert one == next.(pending := []);
      if next.phase.Open? {
        LoopIsSteps(s, next, writes);
      }
    }
  }

  // ---------------------------------------------------------------- the whole log of a run

  // Run r has sent its start and not yet its end.
  predicate Underway(steps: seq<Step>, r: nat) {
    steps != [] &&
    var n := |steps| - 1;
    if steps[n].Start? && steps[n].run == r then true
    else if (steps[n].Finish? || steps[n].Clear?) && steps[n].run == r then false
    else Underway(steps[..n], r)
  }

  // The stream was deleted in the middle of run r.
  predicate Disturbed(steps: seq<Step>, r: nat) {
    steps != [] &&
    var n := |steps| - 1;
    Disturbed(steps[..n], r) || (steps[n].Wipe? && steps[n].took && Underway(steps[..n], r))
  }

  // A run's step moves only that run, and appends at most one event, of that run, to the current stream.
  lemma {:induction false} MovesOne(cfg: seq<RunConfig>, s: State, step: Step)
    requires |cfg| == |s.runs| && s.starts != [] && |s.starts| == |s.cuts|
    requires IsRunStep(step) && RunStep(cfg, s, step).Some?
    ensures var t := RunStep(cfg, s, step).value;
      var i := step.run;
      && i < |s.runs| && |t.runs| == |s.runs| && (forall j | 0 <= j < |s.runs| && j != i :: t.runs[j] == s.runs[j])
      && (if step.Wipe? then s.runs[i].phase.Idle? && t.all == s.all else t.starts == s.starts && InFlight(s.runs[i].phase))
      && (t.starts == s.starts || (step.Wipe? && step.took))
      && (t.all == s.all || (|t.all| == |s.all| + 1 && t.all[..|s.all|] == s.all && t.all[|s.all|].run == i && t.all[|s.all|].epoch == Epoch(s)))
  {
    hide TerminalEvent, Written;
  }

  predicate Middle(p: RunPhase) {
    p.Live? || p.Aborted? || p.Settled?
  }

  // When a run is under way, told from its phase, and which of its steps append.
  lemma {:induction false} PhaseStep(cfg: seq<RunConfig>, s: State, step: Step)
    requires |cfg| == |s.runs| && s.starts != [] && |s.starts| == |s.cuts|
    requires IsRunStep(step) && RunStep(cfg, s, step).Some?
    ensures var t := RunStep(cfg, s, step).value;
      var p, q := s.runs[step.run].phase, t.runs[step.run].phase;
      && (if step.Start? then p.Armed? else if step.Finish? then p.Settled? else if step.Stream? || step.Settle? then p.Live? else true)
      && (Middle(q) <==> step.Start? || (Middle(p) && !step.Finish? && !step.Clear?))
      && (t.all != s.all ==> step.Start? || Middle(p))
  {
    hide TerminalEvent, Written;
  }

  // Unless the stream was deleted in its middle, all events of run r are in one stream, the current one while it is under way.
  ghost predicate OneStream(s: State, r: nat, underway: bool) {
    && s.starts != [] && |s.starts| == |s.cuts|
    && r < |s.runs| && (Middle(s.runs[r].phase) <==> underway)
    && (forall p | 0 <= p < |s.all| && s.all[p].run == r :: Started(s.runs[r].phase))
    && (forall p, q | 0 <= p < q < |s.all| && s.all[p].run == r == s.all[q].run :: s.all[p].epoch == s.all[q].epoch)
    && (underway ==> forall p | 0 <= p < |s.all| && s.all[p].run == r :: s.all[p].epoch == Epoch(s))
  }

  lemma {:induction false} StartedOnly(cfg: seq<RunConfig>, s: State, r: nat)
    requires RunsOk(cfg, s) && r < |s.runs|
    ensures forall p | 0 <= p < |s.all| && s.all[p].run == r :: Started(s.runs[r].phase)
  {}

  // One more event in the current stream, of run r only if that had none or is under way.
  lemma {:induction false} OneMoreEvent(s: State, t: State, r: nat, underway: bool)
    requires OneStream(s, r, underway)
    requires |t.all| == |s.all| + 1 && t.all[..|s.all|] == s.all && t.all[|s.all|].epoch == Epoch(s) && t.starts == s.starts
    requires t.all[|s.all|].run == r ==> underway || !Started(s.runs[r].phase)
    ensures forall p, q | 0 <= p < q < |t.all| && t.all[p].run == r == t.all[q].run :: t.all[p].epoch == t.all[q].epoch
    ensures underway || t.all[|s.all|].run == r ==>
      forall p | 0 <= p < |t.all| && t.all[p].run == r :: t.all[p].epoch == Epoch(t)
  {
    forall p | 0 <= p < |s.all|
      ensures t.all[p] == s.all[p]
    {
      assert t.all[..|s.all|][p] == t.all[p];
    }
  }

  lemma {:induction false} RunsPartNext(cfg: seq<RunConfig>, s: State, step: Step)
    requires Inv(cfg, s) && IsRunStep(step) && |cfg| == |s.runs| && s.starts != [] && |s.starts| == |s.cuts|
    requires RunStep(cfg, s, step).Some?
    ensures RunsOk(cfg, RunStep(cfg, s, step).value)
  {
    hide RunStep;
    RunStepKeepsRuns(cfg, s, step);
  }

  lemma {:induction false} StreamStep(cfg: seq<RunConfig>, s: State, step: Step, r: nat, underway: bool)
    requires Inv(cfg, s) && IsRunStep(step) && RunStep(cfg, s, step).Some? && OneStream(s, r, underway)
    requires !(step.Wipe? && step.took && underway)
    ensures var t := RunStep(cfg, s, step).value;
      OneStream(t, r, if step.run != r then underway else step.Start? || (underway && !step.Finish? && !step.Clear?))
  {
    var t := RunStep(cfg, s, step).value;
    RunsPart(cfg, s);
    RunsPartNext(cfg, s, step);
    MovesOne(cfg, s, step);
    PhaseStep(cfg, s, step);
    assert t.starts != [] && |t.starts| == |t.cuts| by { StepShape(cfg, s, step); }
    hide RunStep, Inv, RunsOk;
    StartedOnly(cfg, t, r);
    if t.all == s.all {
    } else {
      OneMoreEvent(s, t, r, underway);
    }
  }

  lemma {:induction false} InitialStream(cfg: seq<RunConfig>, s: State, r: nat)
    requires Initial(cfg, s) && r < |cfg|
    ensures OneStream(s, r, false)
  {}

  lemma {:induction false} OtherStep(cfg: seq<RunConfig>, s: State, step: Step, r: nat, underway: bool)
    requires OneStream(s, r, underway) && !IsRunStep(step) && Next(cfg, s, step).Some?
    ensures OneStream(Next(cfg, s, step).value, r, underway)
  {
    hide ReaderStep;
  }

  lemma {:induction false} UndisturbedStream(cfg: seq<RunConfig>, s: State, steps: seq<Step>, r: nat)
    requires Initial(cfg, s) && Exec(cfg, s, steps).Some? && r < |cfg|
    ensures Inv(cfg, Exec(cfg, s, steps).value)
    ensures !Disturbed(steps, r) ==> OneStream(Exec(cfg, s, steps).value, r, Underway(steps, r))
  {
    hide Inv, OneStream, RunStep, ReaderStep, Trimmed;
    if steps == [] {
      InitialInv(cfg, s);
      InitialStream(cfg, s, r);
    } else {
      var n := |steps| - 1;
      var t := Exec(cfg, s, steps[..n]).value;
      UndisturbedStream(cfg, s, steps[..n], r);
      StepKeepsInv(cfg, t, steps[n]);
      if !Disturbed(steps, r) {
        if IsRunStep(steps[n]) {
          StreamStep(cfg, t, steps[n], r, Underway(steps[..n], r));
        } else {
          OtherStep(cfg, t, steps[n], r, Underway(steps[..n], r));
        }
      }
    }
  }

  lemma {:induction false} SameStream(s: State, r: nat, underway: bool, p: nat, q: nat)
    requires OneStream(s, r, underway) && p < |s.all| && q < |s.all| && s.all[p].run == r == s.all[q].run
    ensures s.all[p].epoch == s.all[q].epoch
  {}

  /**
   * In every interleaving, a reader that stopped on a terminal event has
   * delivered the whole buffered log of its run, trimming aside, unless the
   * stream was deleted in the middle of that run.
   */
  lemma {:induction false} StoppedReaderHasWholeRun(cfg: seq<RunConfig>, s: State, steps: seq<Step>, i: nat, q: nat)
    requires Initial(cfg, s) && Exec(cfg, s, steps).Some?
    requires var t := Exec(cfg, s, steps).value;
      && i < |t.readers| && t.readers[i].phase == Left(SawTerminal)
      && t.readers[i].delivered != [] && t.readers[i].delivered[|t.readers[i].delivered| - 1] < |t.all|
      && q < |t.all| && t.all[q].run == t.all[t.readers[i].delivered[|t.readers[i].delivered| - 1]].run
      && !Dropped(t, q)
    ensures var t := Exec(cfg, s, steps).value;
      q in t.readers[i].delivered || Disturbed(steps, t.all[q].run)
  {
    hide Exec, Initial, Inv, Dropped, OneStream, Disturbed;
    Reachable(cfg, s, steps);
    var t := Exec(cfg, s, steps).value;
    RunsPart(cfg, t);
    var r := t.all[q].run;
    StoppedReaderIsComplete(cfg, t, i);
    UndisturbedStream(cfg, s, steps, r);
    if !Disturbed(steps, r) {
      var d := t.readers[i].delivered;
      SameStream(t, r, Underway(steps, r), q, d[|d| - 1]);
    }
  }

  // ---------------------------------------------------------------- what RUN_FINISHED means

  lemma {:induction false} CleanTerminal(c: RunConfig)
    requires TerminalErr(c).None?
    ensures c.turn.err.None?
    ensures c.turn.result.Some? ==> c.turn.result.value.error == ""
    ensures !DebateLifecycle.LosesSomething(WebPersist(c.sessionId, c.turn, c.known).acts)
  {
    hide WebPersist, DebateLifecycle.LosesSomething;
    if DebateLifecycle.LosesSomething(WebPersist(c.sessionId, c.turn, c.known).acts) {
      DebateLifecycle.PersistLoss(c.sessionId, c.turn, c.known);
      assert false;
    }
  }

  /**
   * RUN_FINISHED in the log: the run was persisted, and every save and every
   * session mapping the turn needed was confirmed, or it had nothing to persist.
   */
  lemma {:induction false} FinishedMeansSaved(cfg: seq<RunConfig>, s: State, p: nat)
    requires Inv(cfg, s) && p < |s.all| && s.all[p].event == RunFinished
    ensures var i := s.all[p].run;
      && i < |s.runs| && i < |cfg| && s.runs[i].settled
      && var c := cfg[i];
        && c.turn.err.None?
        && (c.turn.result.Some? ==> c.turn.result.value.error == "")
        && !DebateLifecycle.LosesSomething(WebPersist(c.sessionId, c.turn, c.known).acts)
  {
    hide EpochsOk, EntriesOk, ReaderOk, TerminalErr;
    var i := s.all[p].run;
    var c := cfg[i];
    assert Terminal(s.all[p].event);
    assert TerminalErr(c).None?;
    CleanTerminal(c);
  }
}
