/** In every history of the reconnect protocol each reader does what its read loop does on the responses it got. */
module RunLogReaders {
  import opened Prelude
  import opened Turn
  import opened RunLog
  import opened RunLogSafety

  const START := Reader(Open, 0, [], [])

  // The read loop up to now, without the exit at its deadline.
  function Fold(rd: Reader, responses: seq<Response>, writes: nat -> bool): Reader
    decreases |responses|
  {
    if responses == [] || !rd.phase.Open? then rd
    else Fold(Answered(rd, responses[0], writes), responses[1..], writes)
  }

  // A reader as the loop leaves it when it is cut off now: what it has delivered stays.
  function CutOff(rd: Reader): Reader {
    if rd.phase.Left? then rd else Reader(Left(Disconnected), rd.cursor, [], rd.delivered)
  }

  function EventAt(s: State, p: nat): Event {
    if p < |s.all| then s.all[p].event else RunStarted
  }

  // The response a step gives to reader i: a batch, the verdict after an expired window, or a failure.
  function Hears(s: State, step: Step, i: nat): seq<Response>
    requires s.cuts != [] && i < |s.readers|
  {
    match step
    case Read(j) =>
      var batch := NextBatch(s.all, Base(s), s.readers[i].cursor);
      if j == i then [Events(seq(|batch|, k requires 0 <= k < |batch| => (batch[k], EventAt(s, batch[k]))))] else []
    case Recheck(j, answered) => if j == i then [Response.Expired(answered && s.flag.Some?)] else []
    case Leave(j) => if j == i then [ReadFailed] else []
    case _ => []
  }

  // All responses reader i got in a history.
  function Heard(cfg: seq<RunConfig>, s: State, steps: seq<Step>, i: nat): seq<Response> {
    if steps == [] then []
    else
      var n := |steps| - 1;
      var t := Exec(cfg, s, steps[..n]);
      Heard(cfg, s, steps[..n], i) +
      if t.Some? && t.value.cuts != [] && i < |t.value.readers| then Hears(t.value, steps[n], i) else []
  }

  function Rest(s: State, pending: seq<nat>): seq<(nat, Event)> {
    seq(|pending|, k requires 0 <= k < |pending| => (pending[k], EventAt(s, pending[k])))
  }

  // The writes that went to the client, as the loop sees them.
  ghost predicate Consistent(rd: Reader, writes: nat -> bool) {
    && (forall k: nat | k < |rd.delivered| :: writes(k))
    && (rd.phase == Left(Disconnected) ==> !writes(|rd.delivered|))
  }

  // The last batch is partly delivered.
  ghost predicate MidBatch(s: State, rd: Reader, responses: seq<Response>, writes: nat -> bool) {
    && responses != [] && responses[|responses| - 1].Events?
    && var before := Fold(START, responses[..|responses| - 1], writes);
    && before.phase.Open?
    && exists done :: responses[|responses| - 1].batch == done + Rest(s, rd.pending)
         && Served(before, done, writes) == Reader(Open, rd.cursor, [], rd.delivered)
  }

  // How a reader's state follows from the responses it got.
  ghost predicate Follows(s: State, rd: Reader, responses: seq<Response>, writes: nat -> bool) {
    match rd.phase
    case Asking => responses == [] && rd == Reader(Asking, 0, [], [])
    case Empty => responses == [] && rd == Reader(Empty, 0, [], [])
    case Open =>
      if rd.pending == [] then Fold(START, responses, writes) == rd else MidBatch(s, rd, responses, writes)
    case Doubting => rd.pending == [] && Fold(START, responses, writes) == rd.(phase := Open)
    case Left(why) => if why == NoContent then responses == [] && rd.delivered == [] else Fold(START, responses, writes) == rd
  }

  lemma {:induction false} FoldOne(rd: Reader, responses: seq<Response>, x: Response, writes: nat -> bool)
    ensures Fold(rd, responses + [x], writes) ==
      var r := Fold(rd, responses, writes); if r.phase.Open? then Answered(r, x, writes) else r
    decreases |responses|
  {
    hide Answered;
    if responses == [] || !rd.phase.Open? {
      assert responses == [] ==> (responses + [x])[1..] == [] && (responses + [x])[0] == x;
    } else {
      assert (responses + [x])[1..] == responses[1..] + [x];
      FoldOne(Answered(rd, responses[0], writes), responses[1..], x, writes);
    }
  }

  lemma {:induction false} ServedConcat(rd: Reader, a: seq<(nat, Event)>, b: seq<(nat, Event)>, writes: nat -> bool)
    ensures Served(rd, a + b, writes) == Served(Served(rd, a, writes), b, writes)
    decreases |a|
  {
    hide Handed;
    if a == [] {
      assert a + b == b;
    } else if rd.phase.Open? {
      assert (a + b)[1..] == a[1..] + b;
      ServedConcat(Handed(rd.(pending := [a[0].0]), a[0].1, writes(|rd.delivered|)), a[1..], b, writes);
    }
  }

  lemma {:induction false} ServedEnds(rd: Reader, batch: seq<(nat, Event)>, writes: nat -> bool)
    requires batch == [] || !rd.phase.Open?
    ensures Served(rd, batch, writes) == rd
  {}

  lemma {:induction false} ServedOne(rd: Reader, x: (nat, Event), writes: nat -> bool)
    requires rd.phase.Open?
    ensures Served(rd, [x], writes) == Handed(rd.(pending := [x.0]), x.1, writes(|rd.delivered|))
  {
    assert [x][1..] == [];
  }

  lemma {:induction false} ServedClears(rd: Reader, batch: seq<(nat, Event)>, writes: nat -> bool)
    requires rd.pending == []
    ensures Served(rd, batch, writes).pending == []
    decreases |batch|
  {
    if batch == [] || !rd.phase.Open? {
    } else {
      ServedClears(Handed(rd.(pending := [batch[0].0]), batch[0].1, writes(|rd.delivered|)), batch[1..], writes);
    }
  }

  lemma {:induction false} AnsweredClears(rd: Reader, response: Response, writes: nat -> bool)
    requires rd.pending == []
    ensures Answered(rd, response, writes).pending == []
  {
    if response.Events? {
      ServedClears(rd, response.batch, writes);
    }
  }

  /** The loop on some responses is the fold of them, cut off at the end. */
  lemma {:induction false} ReplayedIsFold(rd: Reader, responses: seq<Response>, writes: nat -> bool)
    requires rd.pending == []
    ensures Replayed(rd, responses, writes) ==
      var f := Fold(rd, responses, writes); if f.phase.Open? then f.(phase := Left(Disconnected)) else f
    decreases |responses|
  {
    if responses == [] || !rd.phase.Open? {
    } else {
      AnsweredClears(rd, responses[0], writes);
      ReplayedIsFold(Answered(rd, responses[0], writes), responses[1..], writes);
    }
  }

  // The last response extends the fold.
  lemma {:induction false} FoldLast(responses: seq<Response>, writes: nat -> bool)
    requires responses != [] && responses[|responses| - 1].Events?
    ensures var n := |responses| - 1;
      var before := Fold(START, responses[..n], writes);
      before.phase.Open? ==> Fold(START, responses, writes) == Served(before, responses[n].batch, writes)
  {
    var n := |responses| - 1;
    FoldOne(START, responses[..n], responses[n], writes);
    assert responses == responses[..n] + [responses[n]];
  }

  lemma {:induction false} ServedNext(rd: Reader, done: seq<(nat, Event)>, x: (nat, Event), rest: seq<(nat, Event)>, writes: nat -> bool)
    requires Served(rd, done, writes).phase.Open?
    ensures var at := Served(rd, done, writes);
      var next := Handed(at.(pending := [x.0]), x.1, writes(|at.delivered|));
      && Served(rd, done + [x], writes) == next
      && Served(rd, done + ([x] + rest), writes) == Served(next, rest, writes)
  {
    hide Handed;
    ServedOne(Served(rd, done, writes), x, writes);
    ServedConcat(rd, done, [x], writes);
    ServedConcat(rd, done + [x], rest, writes);
    assert done + ([x] + rest) == (done + [x]) + rest;
  }

  // Handing over the first of several pending events differs from handing over it alone by what stays pending.
  lemma {:induction false} HandedFirst(rd: Reader, e: Event, written: bool)
    requires rd.phase.Open? && rd.pending != []
    ensures var t := Handed(rd, e, written);
      && Handed(Reader(Open, rd.cursor, [rd.pending[0]], rd.delivered), e, written) == t.(pending := [])
      && (t.phase.Open? || t.phase == Left(SawTerminal) || t.phase == Left(Disconnected))
      && t.pending == (if t.phase.Open? then rd.pending[1..] else [])
      && (if written then |t.delivered| == |rd.delivered| + 1 else t.phase == Left(Disconnected) && t.delivered == rd.delivered)
  {}

  // Delivering the next pending event is serving it.
  lemma {:induction false} DeliverFollows(s: State, rd: Reader, responses: seq<Response>, written: bool, writes: nat -> bool)
    requires rd.phase.Open? && rd.pending != [] && rd.pending[0] < |s.all| && MidBatch(s, rd, responses, writes)
    requires var t := Handed(rd, s.all[rd.pending[0]].event, written); Consistent(t, writes)
    ensures Follows(s, Handed(rd, s.all[rd.pending[0]].event, written), responses, writes)
  {
    hide Handed, Served, Fold, Answered;
    var e := s.all[rd.pending[0]].event;
    var t := Handed(rd, e, written);
    var n := |responses| - 1;
    var before := Fold(START, responses[..n], writes);
    var done :| responses[n].batch == done + Rest(s, rd.pending)
      && Served(before, done, writes) == Reader(Open, rd.cursor, [], rd.delivered);
    var x, rest := (rd.pending[0], e), Rest(s, rd.pending[1..]);
    assert Rest(s, rd.pending) == [x] + rest;
    HandedFirst(rd, e, written);
    assert written == writes(|rd.delivered|);
    ServedNext(before, done, x, rest, writes);
    FoldLast(responses, writes);
    if t.phase.Open? && t.pending != [] {
      assert responses[n].batch == (done + [x]) + Rest(s, t.pending);
    } else {
      assert t.phase.Open? ==> rest == [];
      ServedEnds(t, rest, writes);
    }
  }

  lemma {:induction false} SameFollows(s: State, t: State, rd: Reader, responses: seq<Response>, writes: nat -> bool)
    requires Follows(s, rd, responses, writes) && s.all <= t.all
    requires forall k | 0 <= k < |rd.pending| :: rd.pending[k] < |s.all|
    ensures Follows(t, rd, responses, writes)
  {
    assert Rest(s, rd.pending) == Rest(t, rd.pending);
  }

  lemma {:induction false} ReadFollows(s: State, rd: Reader, responses: seq<Response>, batch: seq<nat>, writes: nat -> bool)
    requires rd.phase.Open? && rd.pending == [] && batch != [] && Follows(s, rd, responses, writes)
    ensures Follows(s, rd.(pending := batch), responses + [Events(Rest(s, batch))], writes)
  {
    var all := responses + [Events(Rest(s, batch))];
    assert all[..|all| - 1] == responses;
    assert all[|all| - 1].batch == [] + Rest(s, batch);
  }

  lemma {:induction false} FoldNothing(writes: nat -> bool)
    ensures Fold(START, [], writes) == START
  {}

  lemma {:induction false} LeaveFollows(s: State, rd: Reader, responses: seq<Response>, writes: nat -> bool)
    requires !rd.phase.Left? && rd.pending == [] && Follows(s, rd, responses, writes)
    ensures Fold(START, responses, writes) == Reader(Open, rd.cursor, [], rd.delivered)
  {
    FoldNothing(writes);
  }

  // A step of reader i.
  lemma {:induction false} OwnStepFollows(s: State, rd: Reader, step: Step, i: nat, responses: seq<Response>, writes: nat -> bool)
    requires s.cuts != [] && i < |s.readers| && s.readers[i] == rd && !step.Trim? && !IsRunStep(step) && step.reader == i
    requires PendingOk(s, rd) && ReaderStep(s, rd, step).Some? && Follows(s, rd, responses, writes)
    requires Consistent(ReaderStep(s, rd, step).value, writes)
    ensures Follows(s, ReaderStep(s, rd, step).value, responses + Hears(s, step, i), writes)
  {
    hide Handed, NextBatch, Served, PendingOk, Terminal;
    assert responses + [] == responses;
    match step {
      case Read(_) => ReadFollows(s, rd, responses, NextBatch(s.all, Base(s), rd.cursor), writes);
      case Deliver(_, written) => DeliverFollows(s, rd, responses, written, writes);
      case Recheck(_, answered) => FoldOne(START, responses, Response.Expired(answered && s.flag.Some?), writes);
      case Leave(_) =>
        FoldOne(START, responses, ReadFailed, writes);
        LeaveFollows(s, rd, responses, writes);
      case AskLength(_, _) => FoldNothing(writes);
      case AskFlag(_, _) => FoldNothing(writes);
      case Expire(_) =>
    }
  }

  lemma {:induction false} InitialFollows(cfg: seq<RunConfig>, s: State, i: nat, writes: nat -> bool)
    requires Initial(cfg, s) && i < |s.readers|
    ensures Follows(s, s.readers[i], [], writes)
  {}

  lemma {:induction false} OwnParts(cfg: seq<RunConfig>, s: State, i: nat)
    requires Inv(cfg, s) && i < |s.readers|
    ensures s.cuts != [] && PendingOk(s, s.readers[i])
    ensures forall k | 0 <= k < |s.readers[i].pending| :: s.readers[i].pending[k] < |s.all|
  {
    assert ReaderOk(s, s.readers[i]);
  }

  lemma {:induction false} OwnPending(cfg: seq<RunConfig>, s: State, step: Step, i: nat)
    requires Inv(cfg, s) && Next(cfg, s, step).Some? && i < |Next(cfg, s, step).value.readers|
    requires Next(cfg, s, step).value.all == s.all
    ensures forall k | 0 <= k < |Next(cfg, s, step).value.readers[i].pending| ::
      Next(cfg, s, step).value.readers[i].pending[k] < |s.all|
  {
    hide Next, Inv;
    StepKeepsInv(cfg, s, step);
    OwnParts(cfg, Next(cfg, s, step).value, i);
  }

  // The log only grows, and a reader moves only by its own steps.
  lemma {:induction false} ReadersStay(cfg: seq<RunConfig>, s: State, step: Step)
    requires Next(cfg, s, step).Some?
    ensures var t := Next(cfg, s, step).value;
      && |t.readers| == |s.readers| && s.all <= t.all
      && (if step.Trim? || IsRunStep(step) then t.readers == s.readers
          else
            && t.all == s.all && s.cuts != [] && step.reader < |s.readers|
            && ReaderStep(s, s.readers[step.reader], step).Some?
            && t.readers == s.readers[step.reader := ReaderStep(s, s.readers[step.reader], step).value])
  {
    hide ReaderStep, TerminalEvent, Written;
  }

  lemma {:induction false} ReadersKept(cfg: seq<RunConfig>, s: State, steps: seq<Step>)
    requires Exec(cfg, s, steps).Some?
    ensures |Exec(cfg, s, steps).value.readers| == |s.readers|
  {
    hide Next;
    if steps == [] {
    } else {
      var n := |steps| - 1;
      ReadersKept(cfg, s, steps[..n]);
      ReadersStay(cfg, Exec(cfg, s, steps[..n]).value, steps[n]);
    }
  }

  lemma {:induction false} OthersHearNothing(s: State, step: Step, i: nat)
    requires s.cuts != [] && i < |s.readers|
    requires step.Trim? || IsRunStep(step) || step.reader != i
    ensures Hears(s, step, i) == []
  {}

  lemma {:induction false} EarlierConsistent(s: State, rd: Reader, step: Step, writes: nat -> bool)
    requires s.cuts != [] && !step.Trim? && !IsRunStep(step)
    requires ReaderStep(s, rd, step).Some? && Consistent(ReaderStep(s, rd, step).value, writes)
    ensures Consistent(rd, writes)
  {
    var t := ReaderStep(s, rd, step).value;
    assert |rd.delivered| <= |t.delivered|;
  }

  lemma {:induction false} HistoryFollows(cfg: seq<RunConfig>, s: State, steps: seq<Step>, i: nat, writes: nat -> bool)
    requires Initial(cfg, s) && Exec(cfg, s, steps).Some? && i < |s.readers|
    requires |Exec(cfg, s, steps).value.readers| == |s.readers| ==> Consistent(Exec(cfg, s, steps).value.readers[i], writes)
    ensures var t := Exec(cfg, s, steps).value;
      && |t.readers| == |s.readers|
      && Follows(t, t.readers[i], Heard(cfg, s, steps, i), writes)
  {
    hide Follows, Inv, Consistent, RunStep, ReaderStep, Trimmed, Hears, Initial;
    if steps == [] {
      InitialFollows(cfg, s, i, writes);
    } else {
      var n := |steps| - 1;
      var t := Exec(cfg, s, steps[..n]).value;
      Reachable(cfg, s, steps[..n]);
      ReadersStay(cfg, t, steps[n]);
      ReadersKept(cfg, s, steps[..n]);
      var u := Exec(cfg, s, steps).value;
      OwnParts(cfg, t, i);
      var responses := Heard(cfg, s, steps[..n], i);
      if !steps[n].Trim? && !IsRunStep(steps[n]) && steps[n].reader == i {
        EarlierConsistent(t, t.readers[i], steps[n], writes);
        HistoryFollows(cfg, s, steps[..n], i, writes);
        OwnStepFollows(t, t.readers[i], steps[n], i, responses, writes);
        SameFollows(t, u, u.readers[i], responses + Hears(t, steps[n], i), writes) by { OwnPending(cfg, t, steps[n], i); }
      } else {
        HistoryFollows(cfg, s, steps[..n], i, writes);
        OthersHearNothing(t, steps[n], i);
        SameFollows(t, u, t.readers[i], responses, writes);
        assert responses + [] == responses;
      }
    }
  }

  lemma {:induction false} CutInBatch(s: State, rd: Reader, responses: seq<Response>, writes: nat -> bool)
    requires rd.phase.Open? && rd.pending != [] && MidBatch(s, rd, responses, writes) && !writes(|rd.delivered|)
    ensures Fold(START, responses, writes) == CutOff(rd)
  {
    var n := |responses| - 1;
    var before := Fold(START, responses[..n], writes);
    var done :| responses[n].batch == done + Rest(s, rd.pending)
      && Served(before, done, writes) == Reader(Open, rd.cursor, [], rd.delivered);
    FoldLast(responses, writes);
    ServedConcat(before, done, Rest(s, rd.pending), writes);
    hide Fold;
    var at := Reader(Open, rd.cursor, [], rd.delivered);
    var rest := Rest(s, rd.pending);
    var cut := Handed(at.(pending := [rest[0].0]), rest[0].1, false);
    ServedEnds(cut, rest[1..], writes);
  }

  lemma {:induction false} FollowedIsCutOff(s: State, rd: Reader, responses: seq<Response>, writes: nat -> bool)
    requires Follows(s, rd, responses, writes) && !writes(|rd.delivered|) && rd.phase != Left(NoContent)
    ensures Replayed(START, responses, writes) == CutOff(rd)
  {
    hide Answered, Served, Fold;
    ReplayedIsFold(START, responses, writes);
    FoldNothing(writes);
    if rd.phase.Open? && rd.pending != [] {
      CutInBatch(s, rd, responses, writes);
    }
  }

  /**
   * However histories interleave, what a reader has delivered is what the read
   * loop delivers on the responses the reader got, and a reader that left its
   * stream left it as the loop does.
   */
  lemma {:induction false} ReadersFollowTheLoop(cfg: seq<RunConfig>, s: State, steps: seq<Step>, i: nat)
    requires Initial(cfg, s) && Exec(cfg, s, steps).Some? && i < |s.readers|
    ensures var t := Exec(cfg, s, steps).value;
      && i < |t.readers|
      && (t.readers[i].phase != Left(NoContent) ==>
            exists writes :: Replayed(START, Heard(cfg, s, steps, i), writes) == CutOff(t.readers[i]))
  {
    hide Exec, Initial, Heard, Follows, Inv;
    Reachable(cfg, s, steps);
    ReadersKept(cfg, s, steps);
    var t := Exec(cfg, s, steps).value;
    var rd := t.readers[i];
    var writes := (k: nat) => k < |rd.delivered|;
    HistoryFollows(cfg, s, steps, i, writes);
    var responses := Heard(cfg, s, steps, i);
    if rd.phase != Left(NoContent) {
      OwnParts(cfg, t, i);
      FollowedIsCutOff(t, rd, responses, writes);
    }
  }
}
