/**
 * The reconnect protocol of one session: agent runs that buffer their events
 * and flag themselves as in flight, and readers that replay the buffer, all
 * interleaved step by step. A position in `all` stands for a stream ID, which
 * keeps growing when the stream is deleted and created again.
 */
module RunLog {
  import opened Prelude
  import opened TurnErrors
  import opened Turn

  const MAX_LEN: nat := 5000

  const BATCH: nat := 100

  // ---------------------------------------------------------------- state

  datatype RunConfig = RunConfig(token: string, sessionId: string, turn: TurnInput, known: string)

  // Wiped: the old stream was deleted; Armed: the flag was set; Settled: the turn was persisted.
  datatype RunPhase = Idle | Wiped | Armed | Live | Aborted | Settled | Closed | Over

  // flagged: setting the flag took effect; started: RUN_STARTED reached the client; settled: the turn was persisted.
  datatype RunState = RunState(phase: RunPhase, flagged: bool, started: bool, settled: bool)

  datatype Why = NoContent | Inactive | SawTerminal | Disconnected

  datatype ReaderPhase = Asking | Empty | Open | Doubting | Left(why: Why)

  datatype Reader = Reader(phase: ReaderPhase, cursor: nat, pending: seq<nat>, delivered: seq<nat>)

  // epoch: how often the stream had been deleted when the event was appended.
  datatype Entry = Entry(run: nat, epoch: nat, event: Event)

  // starts[e]: where epoch e begins; cuts[e]: everything of epoch e below it has been trimmed.
  datatype State = State(
    all: seq<Entry>, starts: seq<nat>, cuts: seq<nat>,
    flag: Option<string>, lastSetter: Option<nat>,
    runs: seq<RunState>, readers: seq<Reader>)

  datatype Step =
    | Wipe(run: nat, took: bool)
    | Arm(run: nat, took: bool)
    | Start(run: nat, written: bool, buffered: bool)
    | Stream(run: nat, call: WriterCall, buffered: bool)
    | Settle(run: nat)
    | Finish(run: nat, buffered: bool)
    | Clear(run: nat, took: bool)
    | Trim(to: nat)
    | AskLength(reader: nat, answered: bool)
    | AskFlag(reader: nat, answered: bool)
    | Read(reader: nat)
    | Deliver(reader: nat, written: bool)
    | Expire(reader: nat)
    | Recheck(reader: nat, answered: bool)
    | Leave(reader: nat)

  predicate Terminal(e: Event) {
    e.RunFinished? || e.RunError?
  }

  function Epoch(s: State): nat
    requires s.starts != []
  {
    |s.starts| - 1
  }

  // The first position Redis still holds.
  function Base(s: State): nat
    requires s.cuts != []
  {
    s.cuts[|s.cuts| - 1]
  }

  // ---------------------------------------------------------------- the run's side

  // What decides between RUN_FINISHED and RUN_ERROR.
  function TerminalErr(c: RunConfig): Option<Err> {
    var e := Join(c.turn.err, WebPersist(c.sessionId, c.turn, c.known).err);
    if c.turn.result.Some? && c.turn.result.value.error != "" then
      Join(e, Some(Leaf(Other(c.turn.result.value.error))))
    else e
  }

  function TerminalEvent(c: RunConfig): Event {
    if TerminalErr(c).Some? then RunError("turn failed") else RunFinished
  }

  function Appended(s: State, run: nat, e: Event, buffered: bool): State
    requires s.starts != []
  {
    if buffered then s.(all := s.all + [Entry(run, Epoch(s), e)]) else s
  }

  function WithRun(s: State, run: nat, r: RunState): State
    requires run < |s.runs|
  {
    s.(runs := s.runs[run := r])
  }

  predicate IsRunStep(step: Step) {
    step.Wipe? || step.Arm? || step.Start? || step.Stream? || step.Settle? || step.Finish? || step.Clear?
  }

  function RunStep(cfg: seq<RunConfig>, s: State, step: Step): Option<State>
    requires |cfg| == |s.runs| && s.starts != [] && |s.starts| == |s.cuts|
    requires IsRunStep(step)
  {
    if step.run >= |s.runs| then None
    else
      var r := s.runs[step.run];
      match step
      case Wipe(i, took) =>
        if !r.phase.Idle? then None
        else
          var t := WithRun(s, i, r.(phase := Wiped));
          Some(if took then t.(starts := s.starts + [|s.all|], cuts := s.cuts + [|s.all|]) else t)
      case Arm(i, took) =>
        if !r.phase.Wiped? then None
        else
          var t := WithRun(s, i, r.(phase := Armed, flagged := took));
          Some(if took then t.(flag := Some(cfg[i].token), lastSetter := Some(i)) else t)
      case Start(i, written, buffered) =>
        if !r.phase.Armed? then None
        else Some(Appended(WithRun(s, i, r.(phase := if written then Live else Aborted, started := written)), i, RunStarted, buffered))
      case Stream(i, call, buffered) =>
        if !r.phase.Live? then None
        else
          var events := Written(false, true, cfg[i].turn.agentId, call);
          Some(if events == [] then s else Appended(s, i, events[0], buffered))
      case Settle(i) =>
        if !r.phase.Live? then None
        else Some(WithRun(s, i, r.(phase := Settled, settled := true)))
      case Finish(i, buffered) =>
        if !r.phase.Settled? then None
        else Some(Appended(WithRun(s, i, r.(phase := Closed)), i, TerminalEvent(cfg[i]), buffered))
      case Clear(i, took) =>
        if !(r.phase.Closed? || r.phase.Aborted?) then None
        else
          var t := WithRun(s, i, r.(phase := Over));
          Some(if took && s.flag == Some(cfg[i].token) then t.(flag := None) else t)
  }

  // ---------------------------------------------------------------- the reader's side

  // The next batch after the cursor; empty means the read would block.
  function NextBatch(all: seq<Entry>, base: nat, cursor: nat): seq<nat> {
    var from := if cursor < base then base else cursor;
    if from >= |all| then []
    else
      var n := if |all| - from < BATCH then |all| - from else BATCH;
      seq(n, i => from + i)
  }

  // One event of the batch goes to the client; a terminal event closes the stream.
  function Handed(rd: Reader, e: Event, written: bool): Reader
    requires rd.pending != []
  {
    if !written then rd.(phase := Left(Disconnected), pending := [])
    else
      var p := rd.pending[0];
      var next := rd.(cursor := p + 1, delivered := rd.delivered + [p]);
      if Terminal(e) then next.(phase := Left(SawTerminal), pending := [])
      else next.(pending := rd.pending[1..])
  }

  function ReaderStep(s: State, rd: Reader, step: Step): Option<Reader>
    requires s.cuts != []
    requires !step.Trim? && !IsRunStep(step)
  {
    match step
    case AskLength(_, answered) =>
      if !rd.phase.Asking? then None
      else Some(rd.(phase := if answered && Base(s) < |s.all| then Open else Empty))
    case AskFlag(_, answered) =>
      if !rd.phase.Empty? then None
      else Some(rd.(phase := if answered && s.flag.Some? then Open else Left(NoContent)))
    case Read(_) =>
      var batch := NextBatch(s.all, Base(s), rd.cursor);
      if !rd.phase.Open? || rd.pending != [] || batch == [] then None
      else Some(rd.(pending := batch))
    case Deliver(_, written) =>
      if !rd.phase.Open? || rd.pending == [] || rd.pending[0] >= |s.all| then None
      else Some(Handed(rd, s.all[rd.pending[0]].event, written))
    case Expire(_) =>
      if !rd.phase.Open? || rd.pending != [] || NextBatch(s.all, Base(s), rd.cursor) != [] then None
      else Some(rd.(phase := Doubting))
    case Recheck(_, answered) =>
      if !rd.phase.Doubting? then None
      else Some(rd.(phase := if answered && s.flag.Some? then Open else Left(Inactive)))
    case Leave(_) =>
      if rd.phase.Left? || rd.pending != [] then None else Some(rd.(phase := Left(Disconnected)))
  }

  // What a blocking read returns: events with their stream IDs, an expired block window, or a failure.
  datatype Response = Events(batch: seq<(nat, Event)>) | Expired(active: bool) | ReadFailed

  // The events of one batch handed over one by one, as long as the stream stays open.
  function Served(rd: Reader, batch: seq<(nat, Event)>, writes: nat -> bool): Reader
    decreases |batch|
  {
    if batch == [] || !rd.phase.Open? then rd
    else
      var next := Handed(rd.(pending := [batch[0].0]), batch[0].1, writes(|rd.delivered|));
      Served(next, batch[1..], writes)
  }

  function Answered(rd: Reader, response: Response, writes: nat -> bool): Reader {
    match response
    case Events(batch) => Served(rd, batch, writes)
    case Expired(active) => if active then rd else rd.(phase := Left(Inactive))
    case ReadFailed => rd.(phase := Left(Disconnected))
  }

  function Replayed(rd: Reader, responses: seq<Response>, writes: nat -> bool): Reader
    decreases |responses|
  {
    if !rd.phase.Open? then rd
    else if responses == [] then rd.(phase := Left(Disconnected))
    else Replayed(Answered(rd, responses[0], writes), responses[1..], writes)
  }

  // The read loop; running out of responses is the deadline of the request.
  method ReplayLoop(responses: seq<Response>, writes: nat -> bool) returns (cursor: nat, delivered: seq<nat>, why: Why)
    ensures Replayed(Reader(Open, 0, [], []), responses, writes) == Reader(Left(why), cursor, [], delivered)
  {
    cursor, delivered := 0, [];
    ghost var start := Reader(Open, 0, [], []);
    for i := 0 to |responses|
      invariant Replayed(start, responses, writes) ==
        Replayed(Reader(Open, cursor, [], delivered), responses[i..], writes)
    {
      ghost var before := Reader(Open, cursor, [], delivered);
      assert responses[i..][0] == responses[i] && responses[i..][1..] == responses[i + 1..];
      match responses[i] {
        case ReadFailed =>
          return cursor, delivered, Disconnected;
        case Expired(active) =>
          if !active {
            return cursor, delivered, Inactive;
          }
        case Events(batch) =>
          for j := 0 to |batch|
            invariant Served(before, batch, writes) == Served(Reader(Open, cursor, [], delivered), batch[j..], writes)
          {
            assert batch[j..][0] == batch[j] && batch[j..][1..] == batch[j + 1..];
            if !writes(|delivered|) {
              return cursor, delivered, Disconnected;
            }
            cursor := batch[j].0 + 1;
            delivered := delivered + [batch[j].0];
            if Terminal(batch[j].1) {
              return cursor, delivered, SawTerminal;
            }
          }
      }
    }
    return cursor, delivered, Disconnected;
  }

  // ---------------------------------------------------------------- the whole system

  // Approximate trimming never leaves fewer than MAX_LEN events.
  function Trimmed(s: State, to: nat): Option<State>
    requires s.cuts != []
  {
    if Base(s) <= to && to + MAX_LEN <= |s.all| then Some(s.(cuts := s.cuts[|s.cuts| - 1 := to])) else None
  }

  function Next(cfg: seq<RunConfig>, s: State, step: Step): Option<State>
  {
    if |cfg| != |s.runs| || s.starts == [] || |s.starts| != |s.cuts| then None
    else match step
    case Trim(to) => Trimmed(s, to)
    case Wipe(_, _) => RunStep(cfg, s, step)
    case Arm(_, _) => RunStep(cfg, s, step)
    case Start(_, _, _) => RunStep(cfg, s, step)
    case Stream(_, _, _) => RunStep(cfg, s, step)
    case Settle(_) => RunStep(cfg, s, step)
    case Finish(_, _) => RunStep(cfg, s, step)
    case Clear(_, _) => RunStep(cfg, s, step)
    case _ =>
      if step.reader >= |s.readers| then None
      else
        match ReaderStep(s, s.readers[step.reader], step)
        case None => None
        case Some(rd) => Some(s.(readers := s.readers[step.reader := rd]))
  }

  ghost predicate Initial(cfg: seq<RunConfig>, s: State) {
    && s.all == [] && s.starts == [0] && s.cuts == [0]
    && s.flag == None && s.lastSetter == None
    && |s.runs| == |cfg|
    && (forall i | 0 <= i < |s.runs| :: s.runs[i] == RunState(Idle, false, false, false))
    && (forall i | 0 <= i < |s.readers| :: s.readers[i] == Reader(Asking, 0, [], []))
  }

  function Exec(cfg: seq<RunConfig>, s: State, steps: seq<Step>): Option<State> {
    if steps == [] then Some(s)
    else
      var n := |steps| - 1;
      match Exec(cfg, s, steps[..n])
      case None => None
      case Some(t) => Next(cfg, t, steps[n])
  }

  // ---------------------------------------------------------------- what every reachable state keeps

  // One past the last position of epoch e.
  function End(s: State, e: nat): nat
    requires e < |s.starts|
  {
    if e + 1 < |s.starts| then s.starts[e + 1] else |s.all|
  }

  ghost predicate Nondecreasing(a: seq<nat>) {
    forall e, f | 0 <= e <= f < |a| :: a[e] <= a[f]
  }

  // An epoch is trimmed from its start, and only while it leaves MAX_LEN events.
  ghost predicate EpochOk(s: State, e: nat)
    requires |s.starts| == |s.cuts| && e < |s.starts|
  {
    && s.starts[e] <= s.cuts[e] <= End(s, e) <= |s.all|
    && (s.starts[e] < s.cuts[e] ==> s.cuts[e] + MAX_LEN <= End(s, e))
  }

  ghost predicate EpochsOk(s: State) {
    && |s.starts| == |s.cuts| && s.starts != []
    && Nondecreasing(s.starts)
    && (forall e: nat | e < |s.starts| :: EpochOk(s, e))
  }

  ghost predicate EntriesOk(s: State)
    requires EpochsOk(s)
  {
    forall p | 0 <= p < |s.all| :: s.all[p].epoch < |s.starts| && s.starts[s.all[p].epoch] <= p < End(s, s.all[p].epoch)
  }

  predicate Started(p: RunPhase) {
    p.Live? || p.Aborted? || p.Settled? || p.Closed? || p.Over?
  }

  predicate InFlight(p: RunPhase) {
    !p.Idle? && !p.Over?
  }

  predicate Unsettled(p: RunPhase) {
    !p.Settled? && !p.Closed? && !p.Over?
  }

  ghost predicate RunsOk(cfg: seq<RunConfig>, s: State) {
    && |s.runs| == |cfg|
    && (forall p | 0 <= p < |s.all| :: s.all[p].run < |cfg| && Started(s.runs[s.all[p].run].phase))
    // a terminal event closes its run's log
    && (forall p | 0 <= p < |s.all| && Terminal(s.all[p].event) ::
          var r := s.runs[s.all[p].run];
          && (r.phase.Closed? || r.phase.Over?) && r.settled
          && s.all[p].event == TerminalEvent(cfg[s.all[p].run])
          && forall q | p < q < |s.all| :: s.all[q].run != s.all[p].run)
    && (forall i | 0 <= i < |s.runs| ::
          && (s.runs[i].phase.Settled? || s.runs[i].phase.Closed? ==> s.runs[i].settled)
          && (s.runs[i].phase.Over? && s.runs[i].started ==> s.runs[i].settled)
          && (s.runs[i].phase.Aborted? ==> !s.runs[i].started)
          && (Unsettled(s.runs[i].phase) ==> !s.runs[i].settled)
          && (s.runs[i].phase.Idle? || s.runs[i].phase.Wiped? ==> !s.runs[i].flagged))
  }

  // Redis trimmed the event at q while its stream lived.
  ghost predicate Dropped(s: State, q: nat)
    requires q < |s.all|
  {
    s.all[q].epoch < |s.cuts| && q < s.cuts[s.all[q].epoch]
  }

  // Having delivered p, a reader has delivered q too unless q belongs to another stream or was trimmed.
  ghost predicate SkipsNothing(s: State, delivered: seq<nat>, p: nat, q: nat)
    requires q < p < |s.all|
  {
    s.all[q].epoch == s.all[p].epoch && !Dropped(s, q) ==> q in delivered
  }

  ghost predicate InOrder(d: seq<nat>) {
    forall j, k | 0 <= j < k < |d| :: d[j] < d[k]
  }

  ghost predicate DeliveredOk(s: State, rd: Reader) {
    && rd.cursor == (if rd.delivered == [] then 0 else rd.delivered[|rd.delivered| - 1] + 1)
    && (forall k | 0 <= k < |rd.delivered| :: rd.delivered[k] < |s.all|)
    && InOrder(rd.delivered)
    && (forall k, q | 0 <= k < |rd.delivered| && 0 <= q < rd.delivered[k] ::
          SkipsNothing(s, rd.delivered, rd.delivered[k], q))
  }

  // A terminal event is delivered last and ends the stream.
  ghost predicate ClosesOnTerminal(s: State, rd: Reader) {
    && (forall k | 0 <= k < |rd.delivered| && rd.delivered[k] < |s.all| && Terminal(s.all[rd.delivered[k]].event) ::
          k == |rd.delivered| - 1 && rd.phase == Left(SawTerminal))
    && (rd.phase == Left(SawTerminal) ==>
          && rd.delivered != [] && rd.delivered[|rd.delivered| - 1] < |s.all|
          && Terminal(s.all[rd.delivered[|rd.delivered| - 1]].event))
  }

  ghost predicate GapOk(s: State, from: nat, p: nat)
    requires p < |s.all|
  {
    forall q | from <= q < p :: s.all[q].epoch != s.all[p].epoch || Dropped(s, q)
  }

  ghost predicate Consecutive(s: State, pending: seq<nat>) {
    forall i | 0 <= i < |pending| :: pending[i] == pending[0] + i < |s.all|
  }

  ghost predicate PendingOk(s: State, rd: Reader) {
    && Consecutive(s, rd.pending)
    && (rd.pending != [] ==> rd.phase.Open? && rd.cursor <= rd.pending[0] && GapOk(s, rd.cursor, rd.pending[0]))
  }

  ghost predicate ReaderOk(s: State, rd: Reader) {
    DeliveredOk(s, rd) && ClosesOnTerminal(s, rd) && PendingOk(s, rd)
  }

  ghost predicate Inv(cfg: seq<RunConfig>, s: State) {
    && EpochsOk(s) && EntriesOk(s) && RunsOk(cfg, s)
    && (forall i | 0 <= i < |s.readers| :: ReaderOk(s, s.readers[i]))
  }

  lemma {:induction false} InitialInv(cfg: seq<RunConfig>, s: State)
    requires Initial(cfg, s)
    ensures Inv(cfg, s)
  {}

  lemma {:induction false} RunsPart(cfg: seq<RunConfig>, s: State)
    requires Inv(cfg, s)
    ensures RunsOk(cfg, s)
  {}

  lemma {:induction false} ExecOne(cfg: seq<RunConfig>, s: State, steps: seq<Step>, step: Step)
    ensures Exec(cfg, s, steps + [step]) == match Exec(cfg, s, steps) case None => None case Some(t) => Next(cfg, t, step)
  {
    assert (steps + [step])[..|steps|] == steps;
  }

  lemma {:induction false} ExecNothing(cfg: seq<RunConfig>, s: State)
    ensures Exec(cfg, s, []) == Some(s)
  {}

  lemma {:induction false} ExecTo(cfg: seq<RunConfig>, s: State, steps: seq<Step>, k: nat, t: State, u: State)
    requires k < |steps| && Exec(cfg, s, steps[..k]) == Some(t)
    requires Next(cfg, t, steps[k]) == Some(u)
    ensures Exec(cfg, s, steps[..k + 1]) == Some(u)
  {
    assert steps[..k + 1] == steps[..k] + [steps[k]];
    ExecOne(cfg, s, steps[..k], steps[k]);
  }

  lemma {:induction false} ExecConcat(cfg: seq<RunConfig>, s: State, a: seq<Step>, b: seq<Step>)
    ensures Exec(cfg, s, a + b) == match Exec(cfg, s, a) case None => None case Some(t) => Exec(cfg, t, b)
    decreases |b|
  {
    hide Next;
    if b == [] {
      assert a + b == a;
    } else {
      var n := |b| - 1;
      ExecConcat(cfg, s, a, b[..n]);
      assert (a + b)[..|a + b| - 1] == a + b[..n];
    }
  }

  lemma {:induction false} ExecTwo(cfg: seq<RunConfig>, s: State, a: Step, b: Step)
    ensures Exec(cfg, s, [a]) == Next(cfg, s, a)
    ensures Exec(cfg, s, [a, b]) == match Next(cfg, s, a) case None => None case Some(t) => Next(cfg, t, b)
  {
    hide Next;
    assert [a][..0] == [] && [a, b][..1] == [a];
  }

  // ---------------------------------------------------------------- steps keep the invariant

  // The log only grows and trimming only advances.
  ghost predicate Extends(s: State, t: State) {
    && s.all <= t.all
    && |s.cuts| <= |t.cuts|
    && forall e | 0 <= e < |s.cuts| :: s.cuts[e] <= t.cuts[e]
  }

  lemma {:induction false} ReaderSurvives(s: State, t: State, rd: Reader)
    requires ReaderOk(s, rd) && Extends(s, t)
    ensures ReaderOk(t, rd)
  {
    forall q: nat | q < |s.all|
      ensures t.all[q] == s.all[q]
      ensures Dropped(s, q) ==> Dropped(t, q)
    {}
    forall k, q | 0 <= k < |rd.delivered| && 0 <= q < rd.delivered[k]
      ensures SkipsNothing(t, rd.delivered, rd.delivered[k], q)
    {
      assert SkipsNothing(s, rd.delivered, rd.delivered[k], q);
    }
  }

  lemma {:induction false} LogSame(s: State, t: State)
    requires EpochsOk(s) && EntriesOk(s)
    requires t.all == s.all && t.starts == s.starts && t.cuts == s.cuts
    ensures EpochsOk(t) && EntriesOk(t) && Extends(s, t)
  {
    forall e: nat | e < |s.starts|
      ensures EpochOk(t, e)
    {
      assert EpochOk(s, e);
    }
  }

  lemma {:induction false} LogAppend(s: State, t: State)
    requires EpochsOk(s) && EntriesOk(s)
    requires |t.all| == |s.all| + 1 && t.all[..|s.all|] == s.all && t.all[|s.all|].epoch == Epoch(s)
    requires t.starts == s.starts && t.cuts == s.cuts
    ensures EpochsOk(t) && EntriesOk(t) && Extends(s, t)
  {
    hide Nondecreasing;
    forall e: nat | e < |t.starts|
      ensures EpochOk(t, e) && End(s, e) <= End(t, e)
    {
      assert EpochOk(s, e);
    }
    forall p: nat | p < |s.all|
      ensures t.all[p] == s.all[p]
    {
      assert t.all[..|s.all|][p] == t.all[p];
    }
    assert EpochOk(s, Epoch(s));
  }

  lemma {:induction false} LogWipe(s: State, t: State)
    requires EpochsOk(s) && EntriesOk(s)
    requires t.all == s.all && t.starts == s.starts + [|s.all|] && t.cuts == s.cuts + [|s.all|]
    ensures EpochsOk(t) && EntriesOk(t) && Extends(s, t)
  {
    forall e: nat | e < |s.starts|
      ensures t.starts[e] == s.starts[e] && t.cuts[e] == s.cuts[e] && End(t, e) == End(s, e)
    {}
    forall e: nat | e < |t.starts|
      ensures EpochOk(t, e) && t.starts[e] <= |s.all|
    {
      if e < |s.starts| {
        assert EpochOk(s, e);
      }
    }
  }

  lemma {:induction false} LogTrim(s: State, to: nat)
    requires EpochsOk(s) && EntriesOk(s) && Trimmed(s, to).Some?
    ensures var t := Trimmed(s, to).value;
      EpochsOk(t) && EntriesOk(t) && Extends(s, t)
  {
    hide Nondecreasing;
    var t := Trimmed(s, to).value;
    forall e: nat | e < |s.starts|
      ensures EpochOk(t, e) && End(t, e) == End(s, e) && s.cuts[e] <= t.cuts[e]
    {
      assert EpochOk(s, e);
    }
  }

  // A run's step leaves the log alone, appends one event to it, or starts a new stream.
  lemma {:induction false} StepShape(cfg: seq<RunConfig>, s: State, step: Step)
    requires |cfg| == |s.runs| && s.starts != [] && |s.starts| == |s.cuts|
    requires IsRunStep(step) && RunStep(cfg, s, step).Some?
    ensures var t := RunStep(cfg, s, step).value;
      && t.readers == s.readers
      && (|| (t.all == s.all && t.starts == s.starts && t.cuts == s.cuts)
          || (t.all == s.all && t.starts == s.starts + [|s.all|] && t.cuts == s.cuts + [|s.all|])
          || (t.starts == s.starts && t.cuts == s.cuts && |t.all| == |s.all| + 1
              && t.all[..|s.all|] == s.all && t.all[|s.all|].epoch == Epoch(s)))
  {
    hide TerminalEvent, Written;
  }

  // The log part of a run's step.
  lemma {:induction false} RunStepKeepsLog(cfg: seq<RunConfig>, s: State, step: Step)
    requires |cfg| == |s.runs| && EpochsOk(s) && EntriesOk(s)
    requires IsRunStep(step) && RunStep(cfg, s, step).Some?
    ensures var t := RunStep(cfg, s, step).value;
      EpochsOk(t) && EntriesOk(t) && Extends(s, t) && t.readers == s.readers
  {
    var t := RunStep(cfg, s, step).value;
    StepShape(cfg, s, step);
    hide RunStep, EpochsOk, EntriesOk, Extends;
    if t.starts != s.starts {
      LogWipe(s, t);
    } else if t.all == s.all {
      LogSame(s, t);
    } else {
      LogAppend(s, t);
    }
  }

  lemma {:induction false} DeferredIsQuiet(agentId: string, call: WriterCall)
    ensures Written(false, true, agentId, call) == [] ||
      (|Written(false, true, agentId, call)| == 1 && !Lifecycle(Written(false, true, agentId, call)[0]))
  {}

  // Only run `i` moves on, and at most one event of that run is appended.
  lemma {:induction false} RunsKeep(cfg: seq<RunConfig>, s: State, t: State, i: nat, r: RunState, e: Event)
    requires RunsOk(cfg, s) && i < |s.runs|
    requires t.runs == s.runs[i := r]
    requires t.all == s.all || (|t.all| == |s.all| + 1 && t.all[..|s.all|] == s.all && t.all[|s.all|].run == i && t.all[|s.all|].event == e)
    requires Started(s.runs[i].phase) ==> Started(r.phase)
    requires t.all != s.all ==> Started(r.phase) && !s.runs[i].phase.Closed? && !s.runs[i].phase.Over?
    requires s.runs[i].phase.Closed? ==> r.phase.Over? && r.settled == s.runs[i].settled
    requires s.runs[i].phase.Over? ==> r == s.runs[i]
    requires t.all != s.all && Terminal(e) ==> r.phase.Closed? && e == TerminalEvent(cfg[i])
    requires r.phase.Settled? || r.phase.Closed? || (r.phase.Over? && r.started) ==> r.settled
    requires r.phase.Aborted? ==> !r.started
    requires Unsettled(r.phase) ==> !r.settled
    requires r.phase.Idle? || r.phase.Wiped? ==> !r.flagged
    ensures RunsOk(cfg, t)
  {
    hide TerminalEvent, Terminal;
    forall p | 0 <= p < |s.all|
      ensures t.all[p] == s.all[p]
    {
      if t.all != s.all {
        assert t.all[..|s.all|][p] == t.all[p];
      }
    }
  }

  lemma {:induction false} RunFacts(cfg: seq<RunConfig>, s: State, i: nat)
    requires RunsOk(cfg, s) && i < |s.runs|
    ensures |s.runs| == |cfg|
    ensures s.runs[i].phase.Settled? || s.runs[i].phase.Closed? ==> s.runs[i].settled
    ensures s.runs[i].phase.Over? && s.runs[i].started ==> s.runs[i].settled
    ensures s.runs[i].phase.Aborted? ==> !s.runs[i].started
    ensures Unsettled(s.runs[i].phase) ==> !s.runs[i].settled
    ensures s.runs[i].phase.Idle? || s.runs[i].phase.Wiped? ==> !s.runs[i].flagged
  {}

  lemma {:induction false} RunStepKeepsRuns(cfg: seq<RunConfig>, s: State, step: Step)
    requires EpochsOk(s) && RunsOk(cfg, s)
    requires |s.runs| == |cfg| && IsRunStep(step) && RunStep(cfg, s, step).Some?
    ensures RunsOk(cfg, RunStep(cfg, s, step).value)
  {
    hide TerminalEvent, Written, RunsOk;
    var t := RunStep(cfg, s, step).value;
    var i := step.run;
    RunFacts(cfg, s, i);
    if step.Stream? {
      DeferredIsQuiet(cfg[i].turn.agentId, step.call);
      var events := Written(false, true, cfg[i].turn.agentId, step.call);
      assert t.runs == s.runs[i := s.runs[i]];
      RunsKeep(cfg, s, t, i, s.runs[i], if events == [] then RunStarted else events[0]);
    } else if step.Finish? {
      RunsKeep(cfg, s, t, i, t.runs[i], TerminalEvent(cfg[i]));
    } else {
      RunsKeep(cfg, s, t, i, t.runs[i], RunStarted);
    }
  }

  // ---------------------------------------------------------------- reader steps keep the reader's invariant

  // Epochs never go back along the log.
  lemma {:induction false} EpochsGrow(s: State, p: nat, q: nat)
    requires EpochsOk(s) && EntriesOk(s) && p <= q < |s.all|
    ensures s.all[p].epoch <= s.all[q].epoch
  {
    var e, f := s.all[p].epoch, s.all[q].epoch;
    assert q < End(s, f) && s.starts[e] <= p;
  }

  // Everything Redis still holds belongs to the current stream.
  lemma {:induction false} HeldIsCurrent(s: State, p: nat)
    requires EpochsOk(s) && EntriesOk(s) && Base(s) <= p < |s.all|
    ensures s.all[p].epoch == Epoch(s)
  {
    var e, last := s.all[p].epoch, Epoch(s);
    assert p < End(s, e);
    assert EpochOk(s, last);
  }

  lemma {:induction false} BatchShape(all: seq<Entry>, base: nat, cursor: nat)
    ensures var b := NextBatch(all, base, cursor);
      && (forall i | 0 <= i < |b| :: b[i] == b[0] + i < |all|)
      && (b != [] ==> b[0] == if cursor < base then base else cursor)
      && |b| <= BATCH
  {}

  lemma {:induction false} ReadGap(s: State, cursor: nat, p: nat)
    requires EpochsOk(s) && EntriesOk(s)
    requires p == (if cursor < Base(s) then Base(s) else cursor) && p < |s.all|
    ensures GapOk(s, cursor, p)
  {
    hide Nondecreasing, EpochOk;
    HeldIsCurrent(s, p);
  }

  lemma {:induction false} LogNotEmpty(s: State)
    requires EpochsOk(s)
    ensures s.cuts != [] && s.starts != []
  {}

  lemma {:induction false} ReadKeepsReader(s: State, rd: Reader)
    requires EpochsOk(s) && EntriesOk(s) && ReaderOk(s, rd)
    requires rd.phase.Open? && NextBatch(s.all, Base(s), rd.cursor) != []
    ensures ReaderOk(s, rd.(pending := NextBatch(s.all, Base(s), rd.cursor)))
  {
    hide EpochsOk, EntriesOk, NextBatch, SkipsNothing, GapOk;
    assert s.cuts != [] by { LogNotEmpty(s); }
    var t := rd.(pending := NextBatch(s.all, Base(s), rd.cursor));
    BatchShape(s.all, Base(s), rd.cursor);
    ReadGap(s, rd.cursor, t.pending[0]);
  }

  lemma {:induction false} NothingSkipped(s: State, rd: Reader, q: nat)
    requires EpochsOk(s) && EntriesOk(s) && ReaderOk(s, rd) && rd.pending != []
    requires q < rd.pending[0]
    ensures SkipsNothing(s, rd.delivered, rd.pending[0], q)
  {
    hide EpochsOk, EntriesOk, Dropped;
    var p := rd.pending[0];
    if q < rd.cursor && s.all[q].epoch == s.all[p].epoch {
      var d := rd.delivered[|rd.delivered| - 1];
      if q < d {
        assert SkipsNothing(s, rd.delivered, rd.delivered[|rd.delivered| - 1], q);
        EpochsGrow(s, q, d);
        EpochsGrow(s, d, p);
      }
    }
  }

  lemma {:induction false} DeliveredInOrder(rd: Reader, p: nat)
    requires InOrder(rd.delivered)
    requires rd.delivered != [] ==> rd.delivered[|rd.delivered| - 1] < p
    ensures InOrder(rd.delivered + [p])
  {}

  lemma {:induction false} DeliveredGrows(s: State, rd: Reader)
    requires EpochsOk(s) && EntriesOk(s) && ReaderOk(s, rd) && rd.pending != []
    ensures var p := rd.pending[0];
      DeliveredOk(s, rd.(cursor := p + 1, delivered := rd.delivered + [p]))
  {
    hide EpochsOk, EntriesOk, ClosesOnTerminal, GapOk, InOrder;
    var p := rd.pending[0];
    var d := rd.delivered + [p];
    forall k, q | 0 <= k < |d| && 0 <= q < d[k]
      ensures SkipsNothing(s, d, d[k], q)
    {
      if k < |rd.delivered| {
        assert SkipsNothing(s, rd.delivered, rd.delivered[k], q);
      } else {
        NothingSkipped(s, rd, q);
      }
    }
    DeliveredInOrder(rd, p);
  }

  lemma {:induction false} RestPending(s: State, rd: Reader)
    requires ReaderOk(s, rd) && rd.pending != [] && rd.phase.Open?
    ensures var p := rd.pending[0];
      PendingOk(s, rd.(cursor := p + 1, delivered := rd.delivered + [p], pending := rd.pending[1..]))
  {
    hide DeliveredOk, ClosesOnTerminal;
    assert |rd.pending| > 1 ==> rd.pending[1] == rd.pending[0] + 1;
  }

  // Changing the phase without touching what was delivered.
  lemma {:induction false} SameDeliveries(s: State, rd: Reader, t: Reader)
    requires ReaderOk(s, rd)
    requires t.delivered == rd.delivered && t.cursor == rd.cursor && t.pending == []
    requires rd.phase != Left(SawTerminal) && t.phase != Left(SawTerminal)
    ensures ReaderOk(s, t)
  {
    hide SkipsNothing;
  }

  lemma {:induction false} DeliverKeepsReader(s: State, rd: Reader, written: bool)
    requires EpochsOk(s) && EntriesOk(s) && ReaderOk(s, rd)
    requires rd.phase.Open? && rd.pending != []
    ensures ReaderOk(s, Handed(rd, s.all[rd.pending[0]].event, written))
  {
    if written {
      DeliveredGrows(s, rd);
      RestPending(s, rd);
    } else {
      SameDeliveries(s, rd, Handed(rd, s.all[rd.pending[0]].event, written));
    }
  }

  lemma {:induction false} PendingOnlyWhileOpen(s: State, rd: Reader)
    requires ReaderOk(s, rd)
    ensures rd.pending != [] ==> rd.phase.Open?
  {}

  lemma {:induction false} ReaderStepKeeps(s: State, rd: Reader, step: Step)
    requires EpochsOk(s) && EntriesOk(s) && ReaderOk(s, rd)
    requires !step.Trim? && !IsRunStep(step)
    requires ReaderStep(s, rd, step).Some?
    ensures ReaderOk(s, ReaderStep(s, rd, step).value)
  {
    hide ReaderOk, Handed, NextBatch;
    var t := ReaderStep(s, rd, step).value;
    assert rd.pending != [] ==> rd.phase.Open? by { PendingOnlyWhileOpen(s, rd); }
    if step.Read? {
      ReadKeepsReader(s, rd);
    } else if step.Deliver? {
      DeliverKeepsReader(s, rd, step.written);
    } else {
      SameDeliveries(s, rd, t);
    }
  }

  lemma {:induction false} ReadersSurvive(s: State, t: State)
    requires Extends(s, t) && t.readers == s.readers
    requires forall i | 0 <= i < |s.readers| :: ReaderOk(s, s.readers[i])
    ensures forall i | 0 <= i < |t.readers| :: ReaderOk(t, t.readers[i])
  {
    hide ReaderOk, Extends;
    forall i | 0 <= i < |t.readers|
      ensures ReaderOk(t, t.readers[i])
    {
      ReaderSurvives(s, t, s.readers[i]);
    }
  }

  lemma {:induction false} TrimKeepsInv(cfg: seq<RunConfig>, s: State, to: nat)
    requires Inv(cfg, s) && s.cuts != [] && Trimmed(s, to).Some?
    ensures Inv(cfg, Trimmed(s, to).value)
  {
    hide ReaderOk;
    LogTrim(s, to);
    ReadersSurvive(s, Trimmed(s, to).value);
  }

  lemma {:induction false} OnlyReaders(cfg: seq<RunConfig>, s: State, t: State)
    requires EpochsOk(s) && EntriesOk(s) && RunsOk(cfg, s)
    requires t == s.(readers := t.readers)
    requires |t.readers| == |s.readers|
    ensures EpochsOk(t) && EntriesOk(t) && RunsOk(cfg, t)
    ensures forall rd: Reader :: ReaderOk(s, rd) ==> ReaderOk(t, rd)
  {
    LogSame(s, t);
    forall rd: Reader | ReaderOk(s, rd)
      ensures ReaderOk(t, rd)
    {
      ReaderSurvives(s, t, rd);
    }
  }

  lemma {:induction false} StepKeepsInv(cfg: seq<RunConfig>, s: State, step: Step)
    requires Inv(cfg, s) && Next(cfg, s, step).Some?
    ensures Inv(cfg, Next(cfg, s, step).value)
  {
    hide RunStep, ReaderStep, ReaderOk, RunsOk, EpochsOk, EntriesOk, Extends, Trimmed;
    var t := Next(cfg, s, step).value;
    if step.Trim? {
      TrimKeepsInv(cfg, s, step.to);
    } else if IsRunStep(step) {
      assert t == RunStep(cfg, s, step).value;
      RunStepKeepsLog(cfg, s, step);
      RunStepKeepsRuns(cfg, s, step);
      ReadersSurvive(s, t);
    } else {
      var rd := s.readers[step.reader];
      ReaderStepKeeps(s, rd, step);
      OnlyReaders(cfg, s, t);
    }
  }

  lemma {:induction false} Reachable(cfg: seq<RunConfig>, s: State, steps: seq<Step>)
    requires Initial(cfg, s) && Exec(cfg, s, steps).Some?
    ensures Inv(cfg, Exec(cfg, s, steps).value)
  {
    hide Next, Inv, Initial;
    if steps == [] {
      InitialInv(cfg, s);
    } else {
      var n := |steps| - 1;
      Reachable(cfg, s, steps[..n]);
      StepKeepsInv(cfg, Exec(cfg, s, steps[..n]).value, steps[n]);
    }
  }
}
