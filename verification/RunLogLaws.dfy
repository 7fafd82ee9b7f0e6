/** The steps of runs and readers, one by one: when each can take place, what it changes, and the limits of the buffer. */
module RunLogLaws {
  import opened Prelude
  import opened TurnErrors
  import opened Turn
  import opened RunLog

  // Something the buffer holds has not been read yet.
  predicate Unread(s: State, cursor: nat)
    requires s.cuts != []
  {
    cursor < |s.all| && Base(s) < |s.all|
  }

  /**
   * A reader asks for the length first, then, when that is zero, for the flag, and
   * gives up unless it is known to be set. An open one reads while something is
   * unread, doubts when nothing is, and goes on only while the flag is known to
   * be set. It hands over what it has read before anything else.
   */
  lemma {:induction false} ReaderMoves(s: State, rd: Reader, step: Step)
    requires s.cuts != [] && !step.Trim? && !IsRunStep(step)
    ensures var next := ReaderStep(s, rd, step);
      match step
      case AskLength(_, answered) =>
        && (next.Some? <==> rd.phase == Asking)
        && (next.Some? ==> next.value == rd.(phase := if answered && |s.all| - Base(s) > 0 then Open else Empty))
      case AskFlag(_, answered) =>
        && (next.Some? <==> rd.phase == Empty)
        && (next.Some? ==> next.value == rd.(phase := if answered && s.flag != None then Open else Left(NoContent)))
      case Read(_) =>
        && (next.Some? <==> rd.phase == Open && rd.pending == [] && Unread(s, rd.cursor))
        && (next.Some? ==> next.value == rd.(pending := next.value.pending) && next.value.pending != [])
      case Deliver(_, _) => next.Some? <==> rd.phase == Open && rd.pending != [] && rd.pending[0] < |s.all|
      case Expire(_) =>
        && (next.Some? <==> rd.phase == Open && rd.pending == [] && !Unread(s, rd.cursor))
        && (next.Some? ==> next.value == rd.(phase := Doubting))
      case Recheck(_, answered) =>
        && (next.Some? <==> rd.phase == Doubting)
        && (next.Some? ==> next.value == rd.(phase := if answered && s.flag != None then Open else Left(Inactive)))
      case Leave(_) =>
        && (next.Some? <==> !rd.phase.Left? && rd.pending == [])
        && (next.Some? ==> next.value == rd.(phase := Left(Disconnected)))
  {}

  /** What a reader does with the event in hand: a failed write ends it, a terminal event too, after its delivery, and any other is delivered. */
  lemma {:induction false} DeliveryMeans(s: State, rd: Reader, written: bool, i: nat)
    requires s.cuts != [] && ReaderStep(s, rd, Deliver(i, written)).Some?
    ensures var next, e := ReaderStep(s, rd, Deliver(i, written)).value, s.all[rd.pending[0]].event;
      && (next.phase == Open <==> written && !e.RunFinished? && !e.RunError?)
      && (next.phase != Open ==> next.phase == Left(if written then SawTerminal else Disconnected) && next.pending == [])
      && (next.phase == Open ==> next.pending == rd.pending[1..])
      && next.delivered == (if written then rd.delivered + [rd.pending[0]] else rd.delivered)
      && next.cursor == (if written then rd.pending[0] + 1 else rd.cursor)
  {}

  // What comes of a run by a step that takes place in this order.
  predicate Follows(before: RunPhase, step: Step) {
    match step
    case Wipe(_, _) => before == Idle
    case Arm(_, _) => before == Wiped
    case Start(_, _, _) => before == Armed
    case Stream(_, _, _) => before == Live
    case Settle(_) => before == Live
    case Finish(_, _) => before == Settled
    case Clear(_, _) => before == Closed || before == Aborted
    case _ => false
  }

  /**
   * A run deletes the old stream, sets the flag, starts, streams, persists,
   * finishes and clears the flag, in this order; one whose start could not be
   * written only clears. The stream, the flag and the run's marks change as far
   * as the calls took effect, and a run clears no flag but its own.
   */
  lemma {:induction false} RunMoves(cfg: seq<RunConfig>, s: State, step: Step)
    requires |cfg| == |s.runs| && s.starts != [] && |s.starts| == |s.cuts| && IsRunStep(step)
    ensures RunStep(cfg, s, step).Some? <==> step.run < |s.runs| && Follows(s.runs[step.run].phase, step)
    ensures RunStep(cfg, s, step).Some? ==>
      var t, i, r := RunStep(cfg, s, step).value, step.run, s.runs[step.run];
      && |t.runs| == |s.runs| && (forall j | 0 <= j < |s.runs| && j != i :: t.runs[j] == s.runs[j])
      && t.runs[i] == (
           match step
           case Wipe(_, _) => r.(phase := Wiped)
           case Arm(_, took) => r.(phase := Armed, flagged := took)
           case Start(_, written, _) => r.(phase := if written then Live else Aborted, started := written)
           case Settle(_) => r.(phase := Settled, settled := true)
           case Finish(_, _) => r.(phase := Closed)
           case Clear(_, _) => r.(phase := Over)
           case _ => r)
      && t.flag == (
           if step.Arm? && step.took then Some(cfg[i].token)
           else if step.Clear? && step.took && s.flag == Some(cfg[i].token) then None
           else s.flag)
      && t.lastSetter == (if step.Arm? && step.took then Some(i) else s.lastSetter)
      && (step.Wipe? && step.took ==> t.starts == s.starts + [|s.all|] && t.cuts == s.cuts + [|s.all|])
      && (!(step.Wipe? && step.took) ==> t.starts == s.starts && t.cuts == s.cuts)
      && t.readers == s.readers
  {
    hide TerminalEvent, Written;
  }

  /** A buffered event is appended as the run's in the current stream: RUN_STARTED, what the agent says, and the one that ends the run. */
  lemma {:induction false} RunAppends(cfg: seq<RunConfig>, s: State, step: Step)
    requires |cfg| == |s.runs| && s.starts != [] && |s.starts| == |s.cuts| && IsRunStep(step) && RunStep(cfg, s, step).Some?
    ensures var t, i := RunStep(cfg, s, step).value, step.run;
      t.all == s.all + (
        match step
        case Start(_, _, buffered) => if buffered then [Entry(i, |s.starts| - 1, RunStarted)] else []
        case Stream(_, call, buffered) =>
          if buffered && call.SendOther? then [Entry(i, |s.starts| - 1, AgentEvent(cfg[i].turn.agentId, call.data))] else []
        case Finish(_, buffered) => if buffered then [Entry(i, |s.starts| - 1, TerminalEvent(cfg[i]))] else []
        case _ => [])
  {
    hide TerminalEvent;
    assert s.all + [] == s.all;
  }

  // ---------------------------------------------------------------- the limits of the buffer

  /** A read returns the next positions still held after the cursor, one after the other, a hundred at most and fewer only at the end. */
  lemma {:induction false} ReadMeans(all: seq<Entry>, base: nat, cursor: nat)
    ensures var b := NextBatch(all, base, cursor);
      && |b| <= 100
      && (forall i | 0 <= i < |b| :: b[i] >= base && b[i] >= cursor && b[i] < |all| && (i == 0 ==> b[i] == base || b[i] == cursor))
      && (forall i | 0 < i < |b| :: b[i] == b[i - 1] + 1)
      && (|b| < 100 && cursor < |all| && base < |all| ==> b != [] && b[|b| - 1] == |all| - 1)
  {}

  /** Trimming leaves at least the newest 5000 positions, touches the current stream only, and never gives anything back. */
  lemma {:induction false} TrimMeans(s: State, to: nat)
    requires s.cuts != []
    ensures Trimmed(s, to).Some? <==> Base(s) <= to && |s.all| - to >= 5000
    ensures Trimmed(s, to).Some? ==>
      var t := Trimmed(s, to).value;
      Base(t) == to && |t.cuts| == |s.cuts| && t == s.(cuts := t.cuts) && forall e | 0 <= e < |s.cuts| - 1 :: t.cuts[e] == s.cuts[e]
  {}
}
