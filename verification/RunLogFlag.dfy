/** What it means that no run of a session is in flight: the promise behind a 204, when it holds and when it fails. */
module RunLogFlag {
  import opened Prelude
  import opened Turn
  import opened RunLog
  import opened RunLogSafety

  // ---------------------------------------------------------------- the flag

  ghost predicate DistinctTokens(cfg: seq<RunConfig>) {
    forall i, j | 0 <= i < j < |cfg| :: cfg[i].token != cfg[j].token
  }

  ghost predicate FlagOk(cfg: seq<RunConfig>, s: State) {
    && |s.runs| == |cfg|
    && (s.lastSetter.Some? ==> s.lastSetter.value < |cfg| && s.runs[s.lastSetter.value].flagged)
    && (s.flag.Some? ==> s.lastSetter.Some? && s.flag.value == cfg[s.lastSetter.value].token)
    && (s.lastSetter.Some? && InFlight(s.runs[s.lastSetter.value].phase) ==> s.flag.Some?)
  }

  lemma {:induction false} StepKeepsFlag(cfg: seq<RunConfig>, s: State, step: Step)
    requires Inv(cfg, s) && Next(cfg, s, step).Some? && FlagOk(cfg, s)
    requires DistinctTokens(cfg)
    ensures FlagOk(cfg, Next(cfg, s, step).value)
  {
    hide Inv, ReaderStep, TerminalEvent, Written;
    assert RunsOk(cfg, s) by { RunsPart(cfg, s); }
    if step.Clear? {
      assert forall j | 0 <= j < |cfg| && j != step.run :: cfg[j].token != cfg[step.run].token;
    }
  }

  /**
   * While a run is in flight and its flag took effect, the flag names it exactly
   * when no later run has taken the flag over.
   */
  lemma {:induction false} FlagNamesLastSetter(cfg: seq<RunConfig>, s: State, i: nat)
    requires FlagOk(cfg, s) && DistinctTokens(cfg)
    requires i < |s.runs| && InFlight(s.runs[i].phase) && s.runs[i].flagged
    ensures s.flag == Some(cfg[i].token) <==> s.lastSetter == Some(i)
  {
    if s.flag == Some(cfg[i].token) {
      var j := s.lastSetter.value;
      assert cfg[j].token == cfg[i].token;
    }
  }

  lemma {:induction false} InitialFlag(cfg: seq<RunConfig>, s: State)
    requires Initial(cfg, s)
    ensures FlagOk(cfg, s)
  {}

  lemma {:induction false} FlagReachable(cfg: seq<RunConfig>, s: State, steps: seq<Step>)
    requires Initial(cfg, s) && Exec(cfg, s, steps).Some? && DistinctTokens(cfg)
    ensures Inv(cfg, Exec(cfg, s, steps).value) && FlagOk(cfg, Exec(cfg, s, steps).value)
  {
    hide Next, Inv, FlagOk, Initial, DistinctTokens;
    if steps == [] {
      InitialInv(cfg, s);
      InitialFlag(cfg, s);
    } else {
      var n := |steps| - 1;
      FlagReachable(cfg, s, steps[..n]);
      StepKeepsInv(cfg, Exec(cfg, s, steps[..n]).value, steps[n]);
      StepKeepsFlag(cfg, Exec(cfg, s, steps[..n]).value, steps[n]);
    }
  }

  // ---------------------------------------------------------------- what an inactive run means

  // A reader gives up on the run because Redis answered that nothing is in flight.
  predicate GivesUp(s: State, step: Step) {
    && (step.AskFlag? || step.Recheck?) && step.answered
    && s.flag.None?
  }

  // Another run's step that can take the flag from run i: setting it, or clearing it under the same token.
  predicate TakesFlag(cfg: seq<RunConfig>, step: Step, i: nat) {
    || (step.Arm? && step.took && step.run != i)
    || (step.Clear? && step.took && step.run != i && step.run < |cfg| && i < |cfg| && cfg[step.run].token == cfg[i].token)
  }

  // After run i set its flag, another run took it.
  predicate Overtaken(cfg: seq<RunConfig>, steps: seq<Step>, i: nat) {
    steps != [] &&
    var n := |steps| - 1;
    Overtaken(cfg, steps[..n], i) || (Arm(i, true) in steps[..n] && TakesFlag(cfg, steps[n], i))
  }

  // A run keeps the flag it set until it is over or another run takes it.
  lemma {:induction false} FlagStep(cfg: seq<RunConfig>, s: State, step: Step, i: nat)
    requires RunsOk(cfg, s) && Next(cfg, s, step).Some? && i < |cfg|
    ensures var t := Next(cfg, s, step).value;
      && |t.runs| == |s.runs|
      && (if s.runs[i].flagged then
            && t.runs[i].flagged
            && (InFlight(t.runs[i].phase) ==> InFlight(s.runs[i].phase))
            && (InFlight(t.runs[i].phase) && s.flag == Some(cfg[i].token) && !TakesFlag(cfg, step, i) ==> t.flag == s.flag)
          else t.runs[i].flagged ==> step == Arm(i, true) && t.flag == Some(cfg[i].token))
  {
    hide ReaderStep, TerminalEvent, Written;
    RunFacts(cfg, s, i);
    hide RunsOk;
  }

  lemma {:induction false} FlagHeld(cfg: seq<RunConfig>, s: State, steps: seq<Step>, i: nat)
    requires Initial(cfg, s) && Exec(cfg, s, steps).Some? && i < |cfg|
    ensures var t := Exec(cfg, s, steps).value;
      && Inv(cfg, t) && |t.runs| == |cfg|
      && (t.runs[i].flagged ==>
            && Arm(i, true) in steps
            && (InFlight(t.runs[i].phase) ==> t.flag == Some(cfg[i].token) || Overtaken(cfg, steps, i)))
  {
    hide Next, Inv, TakesFlag, RunsOk;
    if steps == [] {
      InitialInv(cfg, s);
    } else {
      var n := |steps| - 1;
      var t := Exec(cfg, s, steps[..n]).value;
      FlagHeld(cfg, s, steps[..n], i);
      assert RunsOk(cfg, t) by { RunsPart(cfg, t); }
      FlagStep(cfg, t, steps[n], i);
      StepKeepsInv(cfg, t, steps[n]);
      assert steps == steps[..n] + [steps[n]];
    }
  }

  /**
   * In every interleaving of any runs, a 204 or an inactive exit on an answered
   * lookup means of each run that set its flag: it is over, and persisted if it
   * started, unless another run has taken the flag from it.
   */
  lemma {:induction false} InactiveMeansSaved(cfg: seq<RunConfig>, s: State, steps: seq<Step>, step: Step, i: nat)
    requires Initial(cfg, s) && Exec(cfg, s, steps).Some?
    requires var t := Exec(cfg, s, steps).value;
      i < |t.runs| && t.runs[i].flagged && GivesUp(t, step)
    ensures var r := Exec(cfg, s, steps).value.runs[i];
      (r.phase.Over? && (r.started ==> r.settled)) || Overtaken(cfg, steps, i)
  {
    hide Exec, Inv, Overtaken;
    Reachable(cfg, s, steps);
    var t := Exec(cfg, s, steps).value;
    RunsPart(cfg, t);
    FlagHeld(cfg, s, steps, i);
  }

  /** With distinct tokens the run that set the flag last is always over, and persisted if it started. */
  lemma {:induction false} LastSetterSaved(cfg: seq<RunConfig>, s: State, steps: seq<Step>, step: Step, i: nat)
    requires Initial(cfg, s) && Exec(cfg, s, steps).Some? && DistinctTokens(cfg)
    requires var t := Exec(cfg, s, steps).value;
      t.lastSetter == Some(i) && GivesUp(t, step)
    ensures var t := Exec(cfg, s, steps).value;
      i < |t.runs| && t.runs[i].phase.Over? && (t.runs[i].started ==> t.runs[i].settled)
  {
    hide Exec, Inv, Initial;
    FlagReachable(cfg, s, steps);
    RunsPart(cfg, Exec(cfg, s, steps).value);
  }

  // ---------------------------------------------------------------- runs that do not overlap

  // A run begins only when none of the session's other runs is in flight.
  predicate Fits(s: State, step: Step) {
    step.Wipe? ==> forall i | 0 <= i < |s.runs| :: !InFlight(s.runs[i].phase)
  }

  predicate Serial(cfg: seq<RunConfig>, s: State, steps: seq<Step>) {
    steps == [] ||
    var n := |steps| - 1;
    && Serial(cfg, s, steps[..n])
    && var t := Exec(cfg, s, steps[..n]);
       t.Some? ==> Fits(t.value, steps[n])
  }

  ghost predicate AtMostOneInFlight(s: State) {
    forall i, j | 0 <= i < j < |s.runs| :: !(InFlight(s.runs[i].phase) && InFlight(s.runs[j].phase))
  }

  lemma {:induction false} StepKeepsOne(cfg: seq<RunConfig>, s: State, step: Step)
    requires Next(cfg, s, step).Some? && AtMostOneInFlight(s) && Fits(s, step)
    ensures AtMostOneInFlight(Next(cfg, s, step).value)
  {
    hide ReaderStep, TerminalEvent, Written;
  }

  lemma {:induction false} OvertakenHadFlag(cfg: seq<RunConfig>, steps: seq<Step>, i: nat)
    ensures Overtaken(cfg, steps, i) ==> Arm(i, true) in steps
  {
    hide TakesFlag;
    if steps == [] {
    } else {
      OvertakenHadFlag(cfg, steps[..|steps| - 1], i);
    }
  }

  lemma {:induction false} OnlyOneTakes(cfg: seq<RunConfig>, s: State, step: Step, i: nat)
    requires Next(cfg, s, step).Some? && AtMostOneInFlight(s) && i < |s.runs|
    ensures TakesFlag(cfg, step, i) ==> !InFlight(s.runs[i].phase)
  {}

  lemma {:induction false} MiddleInFlight(s: State, r: nat, underway: bool)
    requires OneStream(s, r, underway)
    ensures underway ==> InFlight(s.runs[r].phase)
  {}

  lemma {:induction false} ArmFlags(cfg: seq<RunConfig>, s: State, step: Step)
    requires Next(cfg, s, step).Some?
    ensures step.Arm? && step.took ==>
      step.run < |Next(cfg, s, step).value.runs| && Next(cfg, s, step).value.runs[step.run].flagged
  {}

  // A run that set its flag is known to have set it.
  lemma {:induction false} NotFlaggedYet(cfg: seq<RunConfig>, s: State, steps: seq<Step>, i: nat)
    requires Initial(cfg, s) && Exec(cfg, s, steps).Some? && i < |cfg|
    ensures var t := Exec(cfg, s, steps).value;
      |t.runs| == |cfg| && (Arm(i, true) in steps <==> t.runs[i].flagged)
  {
    hide Next, Inv, RunsOk;
    if steps == [] {
    } else {
      var n := |steps| - 1;
      var t := Exec(cfg, s, steps[..n]).value;
      NotFlaggedYet(cfg, s, steps[..n], i);
      Reachable(cfg, s, steps[..n]);
      assert RunsOk(cfg, t) by { RunsPart(cfg, t); }
      FlagStep(cfg, t, steps[n], i);
      ArmFlags(cfg, t, steps[n]);
      assert steps == steps[..n] + [steps[n]];
    }
  }

  lemma {:induction false} SerialHistory(cfg: seq<RunConfig>, s: State, steps: seq<Step>, i: nat)
    requires Initial(cfg, s) && Exec(cfg, s, steps).Some? && Serial(cfg, s, steps) && i < |cfg|
    ensures var t := Exec(cfg, s, steps).value;
      && AtMostOneInFlight(t) && Inv(cfg, t) && |t.runs| == |cfg|
      && !(InFlight(t.runs[i].phase) && t.runs[i].flagged && Overtaken(cfg, steps, i))
      && !Disturbed(steps, i)
  {
    hide Next, Inv, OneStream, RunsOk, TakesFlag;
    if steps == [] {
      InitialInv(cfg, s);
    } else {
      var n := |steps| - 1;
      var t := Exec(cfg, s, steps[..n]).value;
      SerialHistory(cfg, s, steps[..n], i);
      StepKeepsInv(cfg, t, steps[n]);
      StepKeepsOne(cfg, t, steps[n]);
      assert RunsOk(cfg, t) by { RunsPart(cfg, t); }
      FlagStep(cfg, t, steps[n], i);
      FlagHeld(cfg, s, steps[..n], i);
      OnlyOneTakes(cfg, t, steps[n], i);
      NotFlaggedYet(cfg, s, steps[..n], i);
      OvertakenHadFlag(cfg, steps[..n], i);
      UndisturbedStream(cfg, s, steps[..n], i);
      MiddleInFlight(t, i, Underway(steps[..n], i));
    }
  }

  /** So while the runs of a session do not overlap, giving up on an answered lookup always means saved, and stopped readers have whole runs. */
  lemma {:induction false} SerialMeansSaved(cfg: seq<RunConfig>, s: State, steps: seq<Step>, step: Step, i: nat)
    requires Initial(cfg, s) && Exec(cfg, s, steps).Some? && Serial(cfg, s, steps) && i < |cfg|
    ensures !Disturbed(steps, i)
    ensures var t := Exec(cfg, s, steps).value;
      i < |t.runs| && (t.runs[i].flagged && GivesUp(t, step) ==> t.runs[i].phase.Over? && (t.runs[i].started ==> t.runs[i].settled))
  {
    hide Exec, Serial, Inv, Overtaken, Disturbed;
    SerialHistory(cfg, s, steps, i);
    var t := Exec(cfg, s, steps).value;
    RunsPart(cfg, t);
    FlagHeld(cfg, s, steps, i);
  }

  // ---------------------------------------------------------------- where the promise fails

  // Every answered give-up finds each run that set its flag and started persisted.
  ghost predicate KeepsPromise(cfg: seq<RunConfig>) {
    forall s, steps, step, i: nat |
        && Initial(cfg, s) && Exec(cfg, s, steps).Some?
        && GivesUp(Exec(cfg, s, steps).value, step) && Next(cfg, Exec(cfg, s, steps).value, step).Some?
        && i < |Exec(cfg, s, steps).value.runs| ::
      Exec(cfg, s, steps).value.runs[i].flagged && Exec(cfg, s, steps).value.runs[i].started ==>
        Exec(cfg, s, steps).value.runs[i].settled
  }

  const IDLE_RUN := RunState(Idle, false, false, false)

  const LIVE_RUN := RunState(Live, true, true, false)

  // A session without history and one reader.
  function Quiet(runs: nat): State {
    State([], [0], [0], None, None, seq(runs, i => IDLE_RUN), [Reader(Asking, 0, [], [])])
  }

  lemma {:induction false} QuietIsInitial(cfg: seq<RunConfig>)
    ensures Initial(cfg, Quiet(|cfg|))
  {}

  // The first run of a session goes live, none of its events buffered; whether its flag is set is up to `flagged`.
  lemma {:induction false} FirstRunLive(cfg: seq<RunConfig>, flagged: bool)
    requires cfg != []
    ensures var s := Quiet(|cfg|);
      Exec(cfg, s, [Wipe(0, true), Arm(0, flagged), Start(0, true, false)]) ==
        Some(State([], [0, 0], [0, 0], if flagged then Some(cfg[0].token) else None, if flagged then Some(0) else None,
          s.runs[0 := RunState(Live, flagged, true, false)], s.readers))
  {
    hide TerminalEvent, Exec;
    var s := Quiet(|cfg|);
    var steps := [Wipe(0, true), Arm(0, flagged), Start(0, true, false)];
    ExecNothing(cfg, s);
    assert steps[..0] == [];
    var s1 := s.(runs := s.runs[0 := RunState(Wiped, false, false, false)], starts := [0] + [0], cuts := [0] + [0]);
    ExecTo(cfg, s, steps, 0, s, s1);
    var s2 := s1.(runs := s1.runs[0 := RunState(Armed, flagged, false, false)]);
    s2 := if flagged then s2.(flag := Some(cfg[0].token), lastSetter := Some(0)) else s2;
    ExecTo(cfg, s, steps, 1, s1, s2);
    var s3 := s2.(runs := s2.runs[0 := RunState(Live, flagged, true, false)]);
    ExecTo(cfg, s, steps, 2, s2, s3);
    assert steps[..3] == steps;
    assert s3.starts == [0, 0] && s3.cuts == [0, 0];
    assert s3.runs == s.runs[0 := RunState(Live, flagged, true, false)];
  }

  // A reader finds nothing buffered and asks for the flag.
  lemma {:induction false} ReaderGivesUp(cfg: seq<RunConfig>, s: State, answered: bool)
    requires |cfg| == |s.runs| && s.starts != [] && |s.starts| == |s.cuts| && |s.all| <= Base(s)
    requires s.readers == [Reader(Asking, 0, [], [])] && (answered ==> s.flag.None?)
    ensures var t := s.(readers := [Reader(Empty, 0, [], [])]);
      && Next(cfg, s, AskLength(0, true)) == Some(t)
      && Next(cfg, t, AskFlag(0, answered)) == Some(s.(readers := [Reader(Left(NoContent), 0, [], [])]))
  {
    assert s.readers[0 := Reader(Empty, 0, [], [])] == [Reader(Empty, 0, [], [])];
    assert [Reader(Empty, 0, [], [])][0 := Reader(Left(NoContent), 0, [], [])] == [Reader(Left(NoContent), 0, [], [])];
  }

  function SecondRun(): seq<Step> {
    [Wipe(1, true), Arm(1, true), Start(1, true, false), Settle(1), Finish(1, false), Clear(1, true)]
  }

  // A second run passes by while the first is live: it takes the flag over and clears it.
  lemma {:induction false} SecondRunPasses(cfg: seq<RunConfig>, s: State)
    requires |cfg| == |s.runs| >= 2 && s.starts != [] && |s.starts| == |s.cuts| && s.runs[1] == IDLE_RUN
    ensures Exec(cfg, s, SecondRun()) ==
      Some(s.(starts := s.starts + [|s.all|], cuts := s.cuts + [|s.all|], flag := None, lastSetter := Some(1),
              runs := s.runs[1 := RunState(Over, true, true, true)]))
  {
    hide TerminalEvent, Exec;
    var steps := SecondRun();
    ExecNothing(cfg, s);
    assert steps[..0] == [];
    var s1 := s.(runs := s.runs[1 := RunState(Wiped, false, false, false)], starts := s.starts + [|s.all|], cuts := s.cuts + [|s.all|]);
    ExecTo(cfg, s, steps, 0, s, s1);
    var s2 := s1.(runs := s1.runs[1 := RunState(Armed, true, false, false)], flag := Some(cfg[1].token), lastSetter := Some(1));
    ExecTo(cfg, s, steps, 1, s1, s2);
    var s3 := s2.(runs := s2.runs[1 := LIVE_RUN]);
    ExecTo(cfg, s, steps, 2, s2, s3);
    var s4 := s3.(runs := s3.runs[1 := RunState(Settled, true, true, true)]);
    ExecTo(cfg, s, steps, 3, s3, s4);
    var s5 := s4.(runs := s4.runs[1 := RunState(Closed, true, true, true)]);
    ExecTo(cfg, s, steps, 4, s4, s5);
    var s6 := s5.(runs := s5.runs[1 := RunState(Over, true, true, true)], flag := None);
    ExecTo(cfg, s, steps, 5, s5, s6);
    assert steps[..6] == steps;
    assert s6.runs == s.runs[1 := RunState(Over, true, true, true)];
  }

  /**
   * Of any two runs the second can take the flag over and clear it, so that a
   * reader gets 204 on an answered lookup while the first is live and unsaved.
   */
  lemma {:induction false} OverlapBreaksPromise(cfg: seq<RunConfig>) returns (s: State, steps: seq<Step>)
    requires |cfg| >= 2
    ensures Initial(cfg, s) && Exec(cfg, s, steps).Some?
    ensures var t := Exec(cfg, s, steps).value;
      && GivesUp(t, AskFlag(0, true)) && Next(cfg, t, AskFlag(0, true)).Some?
      && Next(cfg, t, AskFlag(0, true)).value.readers == [Reader(Left(NoContent), 0, [], [])]
      && t.runs != [] && t.runs[0] == LIVE_RUN
  {
    hide Next, Exec, Initial;
    s := Quiet(|cfg|);
    QuietIsInitial(cfg);
    FirstRunLive(cfg, true);
    var first := [Wipe(0, true), Arm(0, true), Start(0, true, false)];
    var t := Exec(cfg, s, first).value;
    SecondRunPasses(cfg, t);
    ExecConcat(cfg, s, first, SecondRun());
    var u := Exec(cfg, s, first + SecondRun()).value;
    assert u.runs[0] == LIVE_RUN;
    ReaderGivesUp(cfg, u, true);
    ExecOne(cfg, s, first + SecondRun(), AskLength(0, true));
    steps := first + SecondRun() + [AskLength(0, true)];
  }

  // Only the session's own runs take steps.
  lemma {:induction false} StepInRange(cfg: seq<RunConfig>, s: State, step: Step)
    requires Next(cfg, s, step).Some? && |s.runs| == |cfg|
    ensures |Next(cfg, s, step).value.runs| == |cfg|
    ensures IsRunStep(step) ==> step.run < |cfg|
  {
    hide ReaderStep, TerminalEvent, Written;
  }

  lemma {:induction false} StepsInRange(cfg: seq<RunConfig>, s: State, steps: seq<Step>)
    requires Initial(cfg, s) && Exec(cfg, s, steps).Some?
    ensures |Exec(cfg, s, steps).value.runs| == |cfg|
    ensures forall k | 0 <= k < |steps| && IsRunStep(steps[k]) :: steps[k].run < |cfg|
  {
    hide Next;
    if steps == [] {
    } else {
      var n := |steps| - 1;
      StepsInRange(cfg, s, steps[..n]);
      StepInRange(cfg, Exec(cfg, s, steps[..n]).value, steps[n]);
    }
  }

  lemma {:induction false} AloneNotOvertaken(cfg: seq<RunConfig>, steps: seq<Step>, i: nat)
    requires i < |cfg| < 2 && forall k | 0 <= k < |steps| && IsRunStep(steps[k]) :: steps[k].run < |cfg|
    ensures !Overtaken(cfg, steps, i)
  {
    if steps == [] {
    } else {
      AloneNotOvertaken(cfg, steps[..|steps| - 1], i);
    }
  }

  /** Every history of a session keeps the promise exactly when the session has fewer than two runs. */
  lemma {:induction false} KeepsPromiseWhen(cfg: seq<RunConfig>)
    ensures KeepsPromise(cfg) <==> |cfg| < 2
  {
    hide Exec, Next, Initial, Overtaken;
    if |cfg| < 2 {
      forall s, steps, step, i: nat |
          && Initial(cfg, s) && Exec(cfg, s, steps).Some?
          && GivesUp(Exec(cfg, s, steps).value, step) && Next(cfg, Exec(cfg, s, steps).value, step).Some?
          && i < |Exec(cfg, s, steps).value.runs|
        ensures Exec(cfg, s, steps).value.runs[i].flagged && Exec(cfg, s, steps).value.runs[i].started ==>
          Exec(cfg, s, steps).value.runs[i].settled
      {
        StepsInRange(cfg, s, steps);
        AloneNotOvertaken(cfg, steps, i);
        if Exec(cfg, s, steps).value.runs[i].flagged {
          InactiveMeansSaved(cfg, s, steps, step, i);
        }
      }
    } else {
      var s, steps := OverlapBreaksPromise(cfg);
      assert GivesUp(Exec(cfg, s, steps).value, AskFlag(0, true)) && Exec(cfg, s, steps).value.runs[0] == LIVE_RUN;
    }
  }

  // ---------------------------------------------------------------- which histories keep it

  ghost predicate AllSaved(s: State) {
    forall i | 0 <= i < |s.runs| && s.runs[i].flagged :: s.runs[i].phase.Over? && (s.runs[i].started ==> s.runs[i].settled)
  }

  // Whenever nothing is flagged, every run that set its flag is over, and persisted if it started.
  ghost predicate KeptThroughout(cfg: seq<RunConfig>, s: State, steps: seq<Step>) {
    forall n | 0 <= n <= |steps| && Exec(cfg, s, steps[..n]).Some? && Exec(cfg, s, steps[..n]).value.flag.None? ::
      AllSaved(Exec(cfg, s, steps[..n]).value)
  }

  // This step clears the flag while another run that had set it is in flight.
  predicate ClearsUnder(cfg: seq<RunConfig>, s: State, step: Step) {
    && step.Clear? && step.took && step.run < |cfg| && s.flag == Some(cfg[step.run].token)
    && exists i | 0 <= i < |s.runs| :: i != step.run && s.runs[i].flagged && InFlight(s.runs[i].phase)
  }

  predicate NeverClearedUnder(cfg: seq<RunConfig>, s: State, steps: seq<Step>) {
    steps == [] ||
    var n := |steps| - 1;
    && NeverClearedUnder(cfg, s, steps[..n])
    && var t := Exec(cfg, s, steps[..n]);
       t.Some? ==> !ClearsUnder(cfg, t.value, steps[n])
  }

  // Only clearing under the flag's own token takes the flag away, and it moves only its own run.
  lemma {:induction false} FlagTaken(cfg: seq<RunConfig>, s: State, step: Step)
    requires Next(cfg, s, step).Some? && Next(cfg, s, step).value.flag.None? && |s.runs| == |cfg|
    ensures var t := Next(cfg, s, step).value;
      if s.flag.None? then
        |t.runs| == |s.runs| && forall i | 0 <= i < |s.runs| && t.runs[i].flagged ::
          s.runs[i].flagged && (s.runs[i].phase.Over? ==> t.runs[i] == s.runs[i])
      else
        && step.Clear? && step.took && step.run < |cfg| && s.flag == Some(cfg[step.run].token)
        && t.runs == s.runs[step.run := s.runs[step.run].(phase := Over)]
  {
    hide ReaderStep, TerminalEvent, Written;
  }

  // One step on: whether everything flagged is saved once the flag is gone depends on whose flag was cleared.
  lemma {:induction false} StepSaves(cfg: seq<RunConfig>, s: State, step: Step)
    requires Next(cfg, s, step).Some? && RunsOk(cfg, s) && RunsOk(cfg, Next(cfg, s, step).value)
    ensures var t := Next(cfg, s, step).value;
      t.flag.None? ==> if s.flag.None? then AllSaved(s) ==> AllSaved(t) else AllSaved(t) <==> !ClearsUnder(cfg, s, step)
    ensures ClearsUnder(cfg, s, step) ==> s.flag.Some? && Next(cfg, s, step).value.flag.None?
  {
    hide ReaderStep, TerminalEvent, Written;
    var t := Next(cfg, s, step).value;
    forall i: nat | i < |s.runs|
      ensures s.runs[i].flagged ==> s.runs[i].phase.Over? || InFlight(s.runs[i].phase)
      ensures |t.runs| == |s.runs| && (t.runs[i].phase.Over? && t.runs[i].started ==> t.runs[i].settled)
    {
      RunFacts(cfg, s, i);
      RunFacts(cfg, t, i);
    }
    if t.flag.None? {
      FlagTaken(cfg, s, step);
    }
    hide RunsOk;
  }

  lemma {:induction false} NothingFlagged(cfg: seq<RunConfig>, s: State)
    requires Initial(cfg, s)
    ensures AllSaved(s)
  {}

  /** A history keeps the promise at every point exactly when no run ever clears the flag while another that set it is in flight. */
  lemma {:induction false} KeptThroughoutWhen(cfg: seq<RunConfig>, s: State, steps: seq<Step>)
    requires Initial(cfg, s) && Exec(cfg, s, steps).Some?
    ensures KeptThroughout(cfg, s, steps) <==> NeverClearedUnder(cfg, s, steps)
  {
    hide Next, Inv, AllSaved, ClearsUnder, RunsOk;
    if steps == [] {
      assert AllSaved(s) by { NothingFlagged(cfg, s); }
    } else {
      var n := |steps| - 1;
      var t := Exec(cfg, s, steps[..n]).value;
      KeptThroughoutWhen(cfg, s, steps[..n]);
      assert forall k | 0 <= k <= n :: steps[..n][..k] == steps[..k];
      assert steps[..|steps|] == steps && steps[..n][..n] == steps[..n];
      Reachable(cfg, s, steps[..n]);
      Reachable(cfg, s, steps);
      RunsPart(cfg, t);
      RunsPart(cfg, Exec(cfg, s, steps).value);
      StepSaves(cfg, t, steps[n]);
    }
  }

  lemma {:induction false} GiveUpOnFirst(cfg: seq<RunConfig>, flagged: bool, answered: bool) returns (s: State, steps: seq<Step>)
    requires cfg != [] && (answered ==> !flagged)
    ensures Initial(cfg, s) && Exec(cfg, s, steps).Some?
    ensures steps != [] && steps[|steps| - 1] == AskFlag(0, answered)
    ensures var t := Exec(cfg, s, steps).value;
      && t.runs != [] && t.runs[0] == RunState(Live, flagged, true, false)
      && t.flag == (if flagged then Some(cfg[0].token) else None)
      && t.readers == [Reader(Left(NoContent), 0, [], [])]
  {
    hide Next, Exec, Initial;
    s := Quiet(|cfg|);
    QuietIsInitial(cfg);
    FirstRunLive(cfg, flagged);
    var first := [Wipe(0, true), Arm(0, flagged), Start(0, true, false)];
    var t := Exec(cfg, s, first).value;
    ReaderGivesUp(cfg, t, answered);
    ExecTwo(cfg, t, AskLength(0, true), AskFlag(0, answered));
    ExecConcat(cfg, s, first, [AskLength(0, true), AskFlag(0, answered)]);
    steps := first + [AskLength(0, true), AskFlag(0, answered)];
  }

  /** A lookup that fails reads as inactive: in any session a reader can get 204 while a flagged run is live and unsaved. */
  lemma {:induction false} FailedLookupMisleads(cfg: seq<RunConfig>) returns (s: State, steps: seq<Step>)
    requires cfg != []
    ensures Initial(cfg, s) && Exec(cfg, s, steps).Some?
    ensures var t := Exec(cfg, s, steps).value;
      && t.runs != [] && t.runs[0] == LIVE_RUN && t.flag == Some(cfg[0].token)
      && t.readers == [Reader(Left(NoContent), 0, [], [])]
  {
    s, steps := GiveUpOnFirst(cfg, true, false);
  }

  /** A flag that could not be set misleads an answered lookup in the same way, since the run goes on without it. */
  lemma {:induction false} UnsetFlagMisleads(cfg: seq<RunConfig>) returns (s: State, steps: seq<Step>)
    requires cfg != []
    ensures Initial(cfg, s) && Exec(cfg, s, steps).Some?
    ensures steps != [] && steps[|steps| - 1] == AskFlag(0, true)
    ensures var t := Exec(cfg, s, steps).value;
      && t.runs != [] && t.runs[0] == LIVE_RUN.(flagged := false)
      && t.readers == [Reader(Left(NoContent), 0, [], [])]
  {
    s, steps := GiveUpOnFirst(cfg, false, true);
  }
}
