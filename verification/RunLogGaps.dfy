/** Replays without gaps: exactly as long as no stream outgrows the buffer. */
module RunLogGaps {
  import opened Prelude
  import opened Turn
  import opened RunLog
  import opened RunLogSafety
  import opened RunLogFlag

  // A reader delivered something of a stream and skipped something before it.
  ghost predicate LeavesGap(s: State) {
    exists i, k, q |
        0 <= i < |s.readers| && 0 <= k < |s.readers[i].delivered| && 0 <= q < s.readers[i].delivered[k] < |s.all| ::
      s.all[q].epoch == s.all[s.readers[i].delivered[k]].epoch && q !in s.readers[i].delivered
  }

  // No stream ever held more than n events.
  ghost predicate StreamsWithin(s: State, n: nat) {
    forall e | 0 <= e < |s.starts| :: End(s, e) - s.starts[e] <= n
  }

  // No history of any runs whose streams hold at most n events leaves a gap.
  ghost predicate GapFree(n: nat) {
    forall cfg, s, steps |
        Initial(cfg, s) && Exec(cfg, s, steps).Some? && StreamsWithin(Exec(cfg, s, steps).value, n) ::
      !LeavesGap(Exec(cfg, s, steps).value)
  }

  lemma {:induction false} FittingLeavesNoGap(cfg: seq<RunConfig>, s: State)
    requires Inv(cfg, s) && StreamsWithin(s, MAX_LEN)
    ensures !LeavesGap(s)
  {
    forall i, k, q |
        && 0 <= i < |s.readers| && 0 <= k < |s.readers[i].delivered| && 0 <= q < s.readers[i].delivered[k] < |s.all|
        && s.all[q].epoch == s.all[s.readers[i].delivered[k]].epoch
      ensures q in s.readers[i].delivered
    {
      var rd := s.readers[i];
      assert ReaderOk(s, rd);
      UntrimmedEpoch(s, q);
      assert SkipsNothing(s, rd.delivered, rd.delivered[k], q);
    }
  }

  // ---------------------------------------------------------------- a run that outgrows the buffer

  const EVENT := AgentEvent("agent", "x")

  const TURN := TurnInput("agent", true, None, [], None, None, Works, Works, Works)

  function OneRun(): seq<RunConfig> {
    [RunConfig("a", "s", TURN, "")]
  }

  // The first events of one run that is live: its start and n streamed events.
  function Log(n: nat): seq<Entry> {
    seq(n + 1, k => Entry(0, 1, if k == 0 then RunStarted else EVENT))
  }

  function LiveWith(n: nat, base: nat, rd: Reader): State {
    State(Log(n), [0, 0], [0, base], Some("a"), Some(0), [LIVE_RUN], [rd])
  }

  const ASKING := Reader(Asking, 0, [], [])

  function Streaming(n: nat): seq<Step> {
    [Wipe(0, true), Arm(0, true), Start(0, true, true)] + seq(n, k => Stream(0, SendOther("x"), true))
  }

  lemma {:induction false} StartsBuffered()
    ensures Exec(OneRun(), Quiet(1), [Wipe(0, true), Arm(0, true), Start(0, true, true)]) == Some(LiveWith(0, 0, ASKING))
  {
    hide Exec;
    var cfg, s := OneRun(), Quiet(1);
    var steps := [Wipe(0, true), Arm(0, true), Start(0, true, true)];
    ExecNothing(cfg, s);
    assert steps[..0] == [];
    assert s.runs == [IDLE_RUN];
    var s1 := State([], [0, 0], [0, 0], None, None, [RunState(Wiped, false, false, false)], [ASKING]);
    assert [0] + [0] == [0, 0];
    assert s.runs[0 := RunState(Wiped, false, false, false)] == s1.runs;
    ExecTo(cfg, s, steps, 0, s, s1);
    var s2 := State([], [0, 0], [0, 0], Some("a"), Some(0), [RunState(Armed, true, false, false)], [ASKING]);
    assert s1.runs[0 := RunState(Armed, true, false, false)] == s2.runs;
    ExecTo(cfg, s, steps, 1, s1, s2);
    assert s2.runs[0 := LIVE_RUN] == [LIVE_RUN];
    assert [] + [Entry(0, 1, RunStarted)] == Log(0);
    ExecTo(cfg, s, steps, 2, s2, LiveWith(0, 0, ASKING));
    assert steps[..3] == steps;
  }

  lemma {:induction false} StreamsOn(n: nat)
    ensures Exec(OneRun(), Quiet(1), Streaming(n)) == Some(LiveWith(n, 0, ASKING))
  {
    var cfg, s := OneRun(), Quiet(1);
    if n == 0 {
      assert Streaming(0) == [Wipe(0, true), Arm(0, true), Start(0, true, true)];
      StartsBuffered();
    } else {
      hide Exec;
      StreamsOn(n - 1);
      var step := Stream(0, SendOther("x"), true);
      assert Streaming(n) == Streaming(n - 1) + [step];
      ExecOne(cfg, s, Streaming(n - 1), step);
      assert Log(n) == Log(n - 1) + [Entry(0, 1, EVENT)];
      assert Next(cfg, LiveWith(n - 1, 0, ASKING), step) == Some(LiveWith(n, 0, ASKING));
    }
  }

  // The start of a full stream is trimmed before a reader comes, which then begins behind it.
  function LateReader(): seq<Step> {
    [Trim(1), AskLength(0, true), Read(0), Deliver(0, true)]
  }

  lemma {:induction false} LateReaderSkips()
    ensures var t := Exec(OneRun(), LiveWith(MAX_LEN, 0, ASKING), LateReader());
      && t.Some? && t.value.all == Log(MAX_LEN) && t.value.starts == [0, 0]
      && |t.value.readers| == 1 && t.value.readers[0].delivered == [1]
  {
    hide Exec;
    var cfg, steps := OneRun(), LateReader();
    var s := LiveWith(MAX_LEN, 0, ASKING);
    ExecNothing(cfg, s);
    assert steps[..0] == [];
    var s1 := LiveWith(MAX_LEN, 1, ASKING);
    assert [0, 0][1 := 1] == [0, 1];
    ExecTo(cfg, s, steps, 0, s, s1);
    var open := ASKING.(phase := Open);
    assert [ASKING][0 := open] == [open];
    ExecTo(cfg, s, steps, 1, s1, LiveWith(MAX_LEN, 1, open));
    var batch := NextBatch(Log(MAX_LEN), 1, 0);
    BatchShape(Log(MAX_LEN), 1, 0);
    assert batch != [] && batch[0] == 1;
    var reading := open.(pending := batch);
    assert [open][0 := reading] == [reading];
    ExecTo(cfg, s, steps, 2, LiveWith(MAX_LEN, 1, open), LiveWith(MAX_LEN, 1, reading));
    var delivered := Handed(reading, EVENT, true);
    assert Log(MAX_LEN)[1].event == EVENT;
    assert [reading][0 := delivered] == [delivered];
    ExecTo(cfg, s, steps, 3, LiveWith(MAX_LEN, 1, reading), LiveWith(MAX_LEN, 1, delivered));
    assert steps[..4] == steps;
    assert [] + [1] == [1];
  }

  /** A history of one run that sends one event more than the buffer keeps, and a reader that never gets the first. */
  lemma {:induction false} OutgrownStreamLeavesGap() returns (s: State, steps: seq<Step>)
    ensures Initial(OneRun(), s) && Exec(OneRun(), s, steps).Some?
    ensures StreamsWithin(Exec(OneRun(), s, steps).value, MAX_LEN + 1)
    ensures LeavesGap(Exec(OneRun(), s, steps).value)
  {
    hide Exec, Initial;
    s := Quiet(1);
    QuietIsInitial(OneRun());
    StreamsOn(MAX_LEN);
    LateReaderSkips();
    steps := Streaming(MAX_LEN) + LateReader();
    ExecConcat(OneRun(), s, Streaming(MAX_LEN), LateReader());
    var t := Exec(OneRun(), s, steps).value;
    assert t.readers[0].delivered[0] == 1;
    assert t.all[0].epoch == t.all[1].epoch && 0 !in t.readers[0].delivered;
  }

  /** Replays are free of gaps for streams of up to n events exactly when the buffer keeps n. */
  lemma {:induction false} GapFreeWhen(n: nat)
    ensures GapFree(n) <==> n <= MAX_LEN
  {
    hide Exec, Initial, LeavesGap;
    if n <= MAX_LEN {
      forall cfg, s, steps |
          Initial(cfg, s) && Exec(cfg, s, steps).Some? && StreamsWithin(Exec(cfg, s, steps).value, n)
        ensures !LeavesGap(Exec(cfg, s, steps).value)
      {
        Reachable(cfg, s, steps);
        FittingLeavesNoGap(cfg, Exec(cfg, s, steps).value);
      }
    } else {
      var s, steps := OutgrownStreamLeavesGap();
      assert StreamsWithin(Exec(OneRun(), s, steps).value, n);
    }
  }
}
