/** The event stream of every tool-loop run: well nested, started once, ended once. */
module ToolLoopStream {
  import opened Prelude
  import opened ToolLoop

  // ---------------------------------------------------------------- the stream grammar

  /**
   * The AG-UI stream as an automaton. `open` holds the tool calls still
   * running, `used` every message or tool-call id seen so far.
   */
  datatype Phase =
    | NotStarted
    | Body(open: set<Id>, used: set<Id>)
    | InText(id: Id, filled: bool, open: set<Id>, used: set<Id>)
    | NeedsArgs(id: Id, open: set<Id>, used: set<Id>)
    | Done
    | Bad

  function Step(g: Phase, e: Event): Phase {
    match (g, e)
    case (NotStarted, RunStarted(_, _)) => Body({}, {})
    case (Body(open, used), TextStart(id)) => if id in used then Bad else InText(id, false, open, used + {id})
    case (InText(id, false, open, used), TextContent(i, _)) => if i == id then InText(id, true, open, used) else Bad
    case (InText(id, true, open, used), TextEnd(i)) => if i == id then Body(open, used) else Bad
    case (Body(open, used), ToolStart(id, _, _)) => if id in used then Bad else NeedsArgs(id, open, used + {id})
    case (NeedsArgs(id, open, used), ToolArgs(i, _)) => if i == id then Body(open + {id}, used) else Bad
    case (Body(open, used), ToolEnd(id, _)) => if id in open then Body(open - {id}, used) else Bad
    case (Body(open, used), RunFinished(_, _)) => if open == {} then Done else Bad
    case (Body(open, used), RunError(_)) => if open == {} then Done else Bad
    case (_, _) => Bad
  }

  function Scan(g: Phase, s: seq<Event>): Phase
    decreases s
  {
    if s == [] then g else Scan(Step(g, s[0]), s[1..])
  }

  lemma {:induction false} ScanConcat(g: Phase, s: seq<Event>, t: seq<Event>)
    ensures Scan(g, s + t) == Scan(Scan(g, s), t)
    decreases s
  {
    if s == [] {
      assert s + t == t;
    } else {
      assert (s + t)[1..] == s[1..] + t;
      ScanConcat(Step(g, s[0]), s[1..], t);
    }
  }

  // OnStart may write messages and tool calls of its own, but no lifecycle event, and leaves nothing open.
  ghost predicate QuietOnStart(p: Params) {
    var g := Scan(Body({}, {}), p.onStart);
    g.Body? && g.open == {} && forall id | id in g.used :: id <= p.firstId
  }

  /** The warning a multi-server chat writes at the start about disconnected servers is such a quiet start. */
  lemma {:induction false} DisconnectedWarningIsQuiet(p: Params, id: Id, text: string)
    requires p.onStart == [TextStart(id), TextContent(id, text), TextEnd(id)] && id < p.firstId
    ensures QuietOnStart(p)
  {
    var s := p.onStart;
    var end := [TextEnd(id)];
    var none: set<Id> := {};
    assert none + {id} == {id};
    assert Step(Body(none, none), s[0]) == InText(id, false, none, {id});
    assert s[1..] == [TextContent(id, text)] + end && s[1..][1..] == end && end[1..] == [];
    assert Scan(InText(id, true, {}, {id}), end) == Scan(Body({}, {id}), end[1..]);
    assert Scan(InText(id, false, {}, {id}), s[1..]) == Scan(InText(id, true, {}, {id}), end);
  }

  // Between two rounds: nothing is open and every id used so far is older than the next fresh one.
  ghost predicate Settled(st: State) {
    var g := Scan(NotStarted, st.events);
    g.Body? && g.open == {} && forall id | id in g.used :: id < st.nextId
  }

  function IdsFrom(rs: seq<Resolved>, i: nat): set<Id> {
    set k | i <= k < |rs| :: rs[k].id
  }

  lemma {:induction false} StartOpens(r: Resolved, open: set<Id>, used: set<Id>)
    requires r.id !in used
    ensures Scan(Body(open, used), Start(r)) == Body(open + {r.id}, used + {r.id})
  {
    var args := ToolArgs(r.id, r.tc.args);
    assert Start(r)[1..] == [args];
    assert Scan(NeedsArgs(r.id, open, used + {r.id}), [args]) == Body(open + {r.id}, used + {r.id});
  }

  lemma {:induction false} StartsOpenAll(rs: seq<Resolved>, i: nat, open: set<Id>, used: set<Id>)
    requires i <= |rs|
    requires forall j, k | 0 <= j < k < |rs| :: rs[j].id != rs[k].id
    requires forall k | i <= k < |rs| :: rs[k].id !in used
    ensures Scan(Body(open, used), Starts(rs, i)) == Body(open + IdsFrom(rs, i), used + IdsFrom(rs, i))
    decreases |rs| - i
  {
    if i < |rs| {
      var r := rs[i];
      StartsOpenAll(rs, i + 1, open + {r.id}, used + {r.id});
      ScanConcat(Body(open, used), Start(r), Starts(rs, i + 1));
      StartOpens(r, open, used);
      assert IdsFrom(rs, i) == {r.id} + IdsFrom(rs, i + 1);
      assert open + {r.id} + IdsFrom(rs, i + 1) == open + IdsFrom(rs, i);
      assert used + {r.id} + IdsFrom(rs, i + 1) == used + IdsFrom(rs, i);
    } else {
      assert IdsFrom(rs, i) == {};
      assert open + {} == open && used + {} == used;
    }
  }

  function Unfinished(rs: seq<Resolved>, order: seq<nat>, k: nat): set<Id>
    requires forall i | 0 <= i < |order| :: order[i] < |rs|
  {
    set j | k <= j < |order| :: rs[order[j]].id
  }

  lemma {:induction false} EndsCloseAll(rs: seq<Resolved>, out: seq<string>, order: seq<nat>, k: nat, used: set<Id>)
    requires |out| == |rs| && k <= |order| && IsPermutation(order, |rs|)
    requires forall i, j | 0 <= i < j < |rs| :: rs[i].id != rs[j].id
    ensures Scan(Body(Unfinished(rs, order, k), used), Ends(rs, out, order)[k..]) == Body({}, used)
    decreases |order| - k
  {
    if k < |order| {
      var id := rs[order[k]].id;
      EndsCloseAll(rs, out, order, k + 1, used);
      assert Ends(rs, out, order)[k..] == [ToolEnd(id, out[order[k]])] + Ends(rs, out, order)[k + 1..];
      forall j | k < j < |order| ensures rs[order[j]].id != id {
        assert order[k] != order[j];
      }
      assert Unfinished(rs, order, k) - {id} == Unfinished(rs, order, k + 1);
    } else {
      assert Unfinished(rs, order, k) == {};
    }
  }

  lemma {:induction false} OneByOneCloses(rs: seq<Resolved>, out: seq<string>, i: nat, used: set<Id>)
    requires |out| == |rs| && i <= |rs|
    requires forall j, k | 0 <= j < k < |rs| :: rs[j].id != rs[k].id
    requires forall k | i <= k < |rs| :: rs[k].id !in used
    ensures Scan(Body({}, used), OneByOne(rs, out, i)) == Body({}, used + IdsFrom(rs, i))
    decreases |rs| - i
  {
    if i < |rs| {
      var r := rs[i];
      var one := Start(r) + [ToolEnd(r.id, out[i])];
      OneByOneCloses(rs, out, i + 1, used + {r.id});
      ScanConcat(Body({}, used), Start(r), [ToolEnd(r.id, out[i])]);
      StartOpens(r, {}, used);
      assert {r.id} - {r.id} == {};
      ScanConcat(Body({}, used), one, OneByOne(rs, out, i + 1));
      assert used + {r.id} + IdsFrom(rs, i + 1) == used + IdsFrom(rs, i);
    } else {
      assert IdsFrom(rs, i) == {};
      assert used + {} == used;
    }
  }

  lemma {:induction false} ToolEventsSettle(w: World, p: Params, round: nat, rs: seq<Resolved>, id: Id, used: set<Id>)
    requires ValidWorld(w)
    requires forall k | 0 <= k < |rs| :: rs[k].id == id + k
    requires forall u | u in used :: u < id
    ensures var out := Execute(w, round, rs);
      var evs := if p.parallel then Starts(rs, 0) + Ends(rs, out, w.completion(round, |rs|)) else OneByOne(rs, out, 0);
      Scan(Body({}, used), evs) == Body({}, used + IdsFrom(rs, 0))
  {
    var out := Execute(w, round, rs);
    if p.parallel {
      var order := w.completion(round, |rs|);
      StartsOpenAll(rs, 0, {}, used);
      assert {} + IdsFrom(rs, 0) == IdsFrom(rs, 0);
      forall x | x in IdsFrom(rs, 0) ensures x in Unfinished(rs, order, 0) {
        var i :| 0 <= i < |rs| && rs[i].id == x;
        assert i in order;
      }
      assert IdsFrom(rs, 0) == Unfinished(rs, order, 0);
      EndsCloseAll(rs, out, order, 0, used + IdsFrom(rs, 0));
      assert Ends(rs, out, order)[0..] == Ends(rs, out, order);
      ScanConcat(Body({}, used), Starts(rs, 0), Ends(rs, out, order));
    } else {
      OneByOneCloses(rs, out, 0, used);
    }
  }

  lemma {:induction false} SaySettles(st: State, text: string)
    requires Settled(st)
    ensures Settled(Say(st, text))
  {
    var evs := [TextStart(st.nextId), TextContent(st.nextId, text), TextEnd(st.nextId)];
    ScanConcat(NotStarted, st.events, evs);
    var g := Scan(NotStarted, st.events);
    var id := st.nextId;
    assert Scan(InText(id, true, g.open, g.used + {id}), [TextEnd(id)]) == Body(g.open, g.used + {id});
    assert evs[1..] == [TextContent(id, text), TextEnd(id)] && evs[1..][1..] == [TextEnd(id)];
    assert Scan(g, evs) == Body(g.open, g.used + {id});
  }

  lemma {:induction false} AfterToolsSettles(w: World, p: Params, st: State, round: nat, calls: seq<ToolCall>)
    requires ValidWorld(w) && Settled(st)
    ensures Settled(AfterTools(w, p, st, round, calls))
  {
    var rs := ResolveCalls(w, round, calls, 0, st.nextId);
    var s := RunTools(w, p, st.(nextId := st.nextId + |rs|), round, rs);
    var g := Scan(NotStarted, st.events);
    ToolEventsSettle(w, p, round, rs, st.nextId, g.used);
    assert s.events == st.events + s.events[|st.events|..];
    ScanConcat(NotStarted, st.events, s.events[|st.events|..]);
    AbsorbKeepsEvents(w, s, rs, Execute(w, round, rs), 0);
  }

  lemma {:induction false} AfterRoundSettles(w: World, p: Params, st: State, round: nat)
    requires ValidWorld(w) && Settled(st) && w.chat(round, st.messages).ChatOk?
    ensures Settled(AfterRound(w, p, st, round))
  {
    var reply := w.chat(round, st.messages).reply;
    if reply.calls != [] {
      if reply.text != "" { SaySettles(Heard(st, reply), reply.text); }
      AfterToolsSettles(w, p, Spoken(st, reply), round, reply.calls);
    } else if reply.text != "" {
      SaySettles(Heard(st, reply).(finalText := reply.text), reply.text);
    }
  }

  lemma {:induction false} TerminalCloses(st: State, e: Event)
    requires Settled(st) && (e.RunFinished? || e.RunError?)
    ensures Scan(NotStarted, st.events + [e]) == Done
  {
    ScanConcat(NotStarted, st.events, [e]);
  }

  lemma {:induction false} RoundsAccepted(w: World, p: Params, st: State, round: nat)
    requires ValidWorld(w) && round < MaxRounds(p) && Settled(st)
    ensures Scan(NotStarted, Rounds(w, p, st, round).state.events) == Done
    decreases MaxRounds(p) - round
  {
    hide AfterRound;
    match w.chat(round, st.messages)
    case ChatError(m) =>
      FailedRound(w, p, st, round);
      TerminalCloses(st, RunError(m));
    case ChatOk(reply) =>
      var s := AfterRound(w, p, st, round);
      AfterRoundSettles(w, p, st, round);
      if reply.calls == [] || round + 1 == MaxRounds(p) {
        TerminalCloses(s, RunFinished(p.sessionId, p.firstId));
      } else {
        RoundsAccepted(w, p, s, round + 1);
      }
  }

  /** Every run's stream is accepted: started once, well nested, one terminal event with nothing left open. */
  lemma {:induction false} StreamIsWellFormed(w: World, p: Params)
    requires ValidWorld(w) && QuietOnStart(p)
    ensures Scan(NotStarted, Run(w, p).state.events) == Done
  {
    var st := Initial(p);
    assert st.events[1..] == p.onStart;
    RoundsAccepted(w, p, st, 0);
  }

  // ---------------------------------------------------------------- what acceptance means

  predicate Terminal(e: Event) { e.RunFinished? || e.RunError? }

  function At(s: seq<Event>, k: nat): Phase
    requires k <= |s|
  {
    Scan(NotStarted, s[..k])
  }

  lemma {:induction false} AtNext(s: seq<Event>, k: nat)
    requires k < |s|
    ensures At(s, k + 1) == Step(At(s, k), s[k])
  {
    assert s[..k + 1] == s[..k] + [s[k]];
    ScanConcat(NotStarted, s[..k], [s[k]]);
  }

  lemma {:induction false} DeadEndsStay(g: Phase, s: seq<Event>)
    requires g == Bad || (g == Done && s != [])
    ensures Scan(g, s) == Bad
    decreases s
  {
    if s == [] {
    } else {
      DeadEndsStay(Step(g, s[0]), s[1..]);
    }
  }

  lemma {:induction false} NeverBadBefore(s: seq<Event>, k: nat)
    requires Scan(NotStarted, s) == Done && k <= |s|
    ensures At(s, k) != Bad && (k < |s| ==> At(s, k) != Done)
  {
    assert s == s[..k] + s[k..];
    ScanConcat(NotStarted, s[..k], s[k..]);
    if At(s, k) == Bad || (At(s, k) == Done && k < |s|) {
      DeadEndsStay(At(s, k), s[k..]);
    }
  }

  lemma {:induction false} StartedAfterFirst(s: seq<Event>, k: nat)
    requires Scan(NotStarted, s) == Done && 1 <= k <= |s|
    ensures s[0].RunStarted? && At(s, k) != NotStarted
  {
    AtNext(s, k - 1);
    NeverBadBefore(s, k);
    if k > 1 {
      StartedAfterFirst(s, k - 1);
    } else {
      assert s[..0] == [];
    }
  }

  /** RUN_STARTED comes first and only there, a terminal event comes last and only there. */
  lemma {:induction false} AcceptedLifecycle(s: seq<Event>)
    requires Scan(NotStarted, s) == Done
    ensures |s| >= 2 && s[0].RunStarted? && Terminal(s[|s| - 1])
    ensures forall k | 0 <= k < |s| :: s[k].RunStarted? ==> k == 0
    ensures forall k | 0 <= k < |s| :: Terminal(s[k]) ==> k == |s| - 1
  {
    assert s != [];
    assert s[..|s|] == s;
    StartedAfterFirst(s, 1);
    AtNext(s, |s| - 1);
    assert s[..0] == [];
    forall k | 0 <= k < |s|
      ensures s[k].RunStarted? ==> k == 0
      ensures Terminal(s[k]) ==> k == |s| - 1
    {
      AtNext(s, k);
      NeverBadBefore(s, k + 1);
      if k > 0 { StartedAfterFirst(s, k); }
    }
  }

  /** A text message is an uninterrupted START, CONTENT, END under one id. */
  lemma {:induction false} AcceptedTexts(s: seq<Event>, k: nat)
    requires Scan(NotStarted, s) == Done && k < |s|
    ensures s[k].TextStart? ==> k + 2 < |s| && s[k + 1].TextContent? && s[k + 1].id == s[k].id && s[k + 2] == TextEnd(s[k].id)
    ensures s[k].TextContent? ==> k > 0 && s[k - 1] == TextStart(s[k].id)
    ensures s[k].TextEnd? ==> k > 0 && s[k - 1].TextContent? && s[k - 1].id == s[k].id
  {
    assert s[..|s|] == s && s[..0] == [];
    NeverBadBefore(s, k);
    NeverBadBefore(s, k + 1);
    AtNext(s, k);
    if k > 0 {
      NeverBadBefore(s, k - 1);
      AtNext(s, k - 1);
    }
    if k + 1 < |s| {
      AtNext(s, k + 1);
      NeverBadBefore(s, k + 2);
    }
    if k + 2 < |s| {
      AtNext(s, k + 2);
      NeverBadBefore(s, k + 3);
    }
  }

  function Open(g: Phase): set<Id> {
    if g.Body? || g.InText? || g.NeedsArgs? then g.open else {}
  }

  function Used(g: Phase): set<Id> {
    if g.Body? || g.InText? || g.NeedsArgs? then g.used else {}
  }

  lemma {:induction false} StaysClosed(s: seq<Event>, k: nat, i: nat, id: Id)
    requires Scan(NotStarted, s) == Done && k <= i < |s|
    requires id !in Open(At(s, k)) && id in Used(At(s, k)) && At(s, k).Body?
    ensures id !in Open(At(s, i)) && id in Used(At(s, i)) && !(At(s, i).NeedsArgs? && At(s, i).id == id)
    ensures !(s[i].ToolEnd? && s[i].id == id)
    decreases i
  {
    AtNext(s, i);
    NeverBadBefore(s, i + 1);
    NeverBadBefore(s, i);
    if i > k {
      StaysClosed(s, k, i - 1, id);
      AtNext(s, i - 1);
      NeverBadBefore(s, i);
    }
  }

  // From a point where `id` is open the stream closes it exactly once.
  lemma {:induction false} ClosedOnce(s: seq<Event>, k: nat, id: Id) returns (j: nat)
    requires Scan(NotStarted, s) == Done && k < |s|
    requires id in Open(At(s, k)) && id in Used(At(s, k))
    ensures k <= j < |s| && s[j].ToolEnd? && s[j].id == id
    ensures forall i | k <= i < |s| && s[i].ToolEnd? && s[i].id == id :: i == j
    decreases |s| - k
  {
    AtNext(s, k);
    NeverBadBefore(s, k + 1);
    assert s[..|s|] == s;
    if s[k].ToolEnd? && s[k].id == id {
      j := k;
      forall i | k < i < |s| ensures !(s[i].ToolEnd? && s[i].id == id) {
        StaysClosed(s, k + 1, i, id);
      }
    } else {
      j := ClosedOnce(s, k + 1, id);
    }
  }

  lemma {:induction false} UsedIsOlder(s: seq<Event>, k: nat)
    requires Scan(NotStarted, s) == Done && k <= |s|
    ensures Open(At(s, k)) <= Used(At(s, k))
    ensures At(s, k).NeedsArgs? ==> At(s, k).id in Used(At(s, k)) - Open(At(s, k))
    decreases k
  {
    if k > 0 {
      UsedIsOlder(s, k - 1);
      AtNext(s, k - 1);
      NeverBadBefore(s, k);
    } else {
      assert s[..0] == [];
    }
  }

  /** Every TOOL_CALL_START is followed at once by its ARGS and later by exactly one END. */
  lemma {:induction false} AcceptedToolCalls(s: seq<Event>, k: nat) returns (j: nat)
    requires Scan(NotStarted, s) == Done && k < |s| && s[k].ToolStart?
    ensures k + 1 < j < |s| && s[k + 1].ToolArgs? && s[k + 1].id == s[k].id
    ensures s[j].ToolEnd? && s[j].id == s[k].id
    ensures forall i | k <= i < |s| && s[i].ToolEnd? && s[i].id == s[k].id :: i == j
  {
    assert s[..|s|] == s;
    NeverBadBefore(s, k + 1);
    AtNext(s, k);
    AtNext(s, k + 1);
    NeverBadBefore(s, k + 2);
    UsedIsOlder(s, k + 2);
    j := ClosedOnce(s, k + 2, s[k].id);
  }
}
