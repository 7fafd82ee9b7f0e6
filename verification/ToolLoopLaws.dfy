/** What a tool-loop run hands to the store and shows of its tools, told from the replies and the tools alone. */
module ToolLoopLaws {
  import opened Prelude
  import opened ToolLoop
  import opened ToolLoopMessage
  import opened ToolLoopParallel

  /**
   * The message handed to the store: its text is that of the last reply if that
   * asked for no tool, its calls and results are the resolving calls of all
   * replies in order, its tool parts count them, and rendering it gives what
   * the run streamed after its start.
   */
  lemma {:induction false} SavedMessageMeans(w: World, p: Params)
    requires ValidWorld(w)
    ensures var o := Run(w, p);
      var m, done := Saved(o.state), AllCalls(w, o.state.asked);
      && o.state.asked != []
      && m.content == (
           match w.chat(|o.state.asked| - 1, o.state.asked[|o.state.asked| - 1])
           case ChatOk(reply) => if reply.calls == [] then reply.text else ""
           case ChatError(_) => "")
      && |m.calls| == |m.results| == |done|
      && (forall i | 0 <= i < |done| ::
            && m.calls[i].name == m.results[i].name == done[i].displayName
            && m.calls[i].id == m.results[i].id && m.calls[i].args == done[i].tc.args
            && m.results[i].response == (if w.isJson(done[i].output) then Parsed(done[i].output) else Text(done[i].output)))
      && ToolIndices(m.parts) == Indices(0, |m.calls|)
      && Items(o.state.events) == Items(p.onStart) + Rendered(m.parts, m.calls)
  {
    var st := Run(w, p).state;
    SavedMessageIsExact(w, p);
    SavedMessageReplaysStream(w, p);
    hide Run, AllCalls, Spent, ToolIndices, Items, Rendered;
    var done := AllCalls(w, st.asked);
    forall i | 0 <= i < |done|
      ensures st.calls[i].name == st.results[i].name == done[i].displayName
      ensures st.calls[i].id == st.results[i].id && st.calls[i].args == done[i].tc.args
      ensures st.results[i].response == (if w.isJson(done[i].output) then Parsed(done[i].output) else Text(done[i].output))
    {
      assert Matches(w, st, |p.messages|, done[i], i);
    }
  }

  // ---------------------------------------------------------------- how long a run goes on

  /**
   * A run asks the LLM at most ten times, or as often as it is told to. Every
   * reply but the last asked for tools, and the last one failed, asked for
   * none, or was the last allowed.
   */
  lemma {:induction false} RoundsMean(w: World, p: Params, st: State, round: nat)
    requires ValidWorld(w) && round < MaxRounds(p) && |st.asked| == round
    ensures var o := Rounds(w, p, st, round);
      var limit := if p.maxToolCallRounds <= 0 then 10 else p.maxToolCallRounds;
      && round < o.rounds <= limit && |o.state.asked| == o.rounds && o.state.asked[..round] == st.asked
      && (forall r | round <= r < o.rounds - 1 ::
            w.chat(r, o.state.asked[r]).ChatOk? && w.chat(r, o.state.asked[r]).reply.calls != [])
      && var last := w.chat(o.rounds - 1, o.state.asked[o.rounds - 1]);
        o.rounds == limit || last.ChatError? || last.reply.calls == []
    decreases MaxRounds(p) - round
  {
    hide AfterRound;
    AskedGrows(w, p, st, round);
    var s := AfterRound(w, p, st, round);
    match w.chat(round, st.messages)
    case ChatError(_) => FailedRound(w, p, st, round);
    case ChatOk(reply) =>
      if reply.calls != [] && round + 1 < MaxRounds(p) {
        RoundsMean(w, p, s, round + 1);
        var o := Rounds(w, p, s, round + 1);
        assert o.state.asked[round] == s.asked[round] == st.messages by {
          assert o.state.asked[..round + 1][round] == o.state.asked[round];
        }
        assert o.state.asked[..round] == o.state.asked[..round + 1][..round];
      }
  }

  // ---------------------------------------------------------------- what is shown and measured of a tool call

  // A call was shown with its name, server, arguments and output, under this id.
  ghost predicate Shown(events: seq<Event>, id: nat, d: Finished) {
    ToolStart(id, d.displayName, d.serverId) in events && ToolArgs(id, d.tc.args) in events && ToolEnd(id, d.output) in events
  }

  // Each call done was shown, under the id it is stored with.
  ghost predicate Shows(st: State, done: seq<Finished>) {
    |st.calls| == |done| && forall i | 0 <= i < |done| :: Shown(st.events, st.calls[i].id, done[i])
  }

  lemma {:induction false} ShownLater(before: seq<Event>, after: seq<Event>, id: nat, d: Finished)
    requires before <= after && Shown(before, id, d)
    ensures Shown(after, id, d)
  {}

  lemma {:induction false} StartsShow(rs: seq<Resolved>, i: nat, k: nat)
    requires i <= k < |rs|
    ensures ToolStart(rs[k].id, rs[k].displayName, rs[k].serverId) in Starts(rs, i)
    ensures ToolArgs(rs[k].id, rs[k].tc.args) in Starts(rs, i)
    decreases |rs| - i
  {
    if i == k {
      assert Starts(rs, i)[0] == Start(rs[i])[0] && Starts(rs, i)[1] == Start(rs[i])[1];
    } else {
      StartsShow(rs, i + 1, k);
    }
  }

  lemma {:induction false} OneByOneShows(rs: seq<Resolved>, out: seq<string>, i: nat, k: nat)
    requires |out| == |rs| && i <= k < |rs|
    ensures ToolStart(rs[k].id, rs[k].displayName, rs[k].serverId) in OneByOne(rs, out, i)
    ensures ToolArgs(rs[k].id, rs[k].tc.args) in OneByOne(rs, out, i)
    ensures ToolEnd(rs[k].id, out[k]) in OneByOne(rs, out, i)
    decreases |rs| - i
  {
    if i == k {
      var one := OneByOne(rs, out, i);
      assert one[0] == Start(rs[i])[0] && one[1] == Start(rs[i])[1] && one[2] == ToolEnd(rs[i].id, out[i]);
    } else {
      OneByOneShows(rs, out, i + 1, k);
    }
  }

  lemma {:induction false} EndsShow(rs: seq<Resolved>, out: seq<string>, order: seq<nat>, k: nat)
    requires |out| == |rs| && IsPermutation(order, |rs|) && k < |rs|
    ensures ToolEnd(rs[k].id, out[k]) in Ends(rs, out, order)
  {
    assert k in order;
    var j :| 0 <= j < |order| && order[j] == k;
    assert Ends(rs, out, order)[j] == ToolEnd(rs[k].id, out[k]);
  }

  lemma {:induction false} RunToolsShow(w: World, p: Params, st: State, round: nat, rs: seq<Resolved>, k: nat)
    requires ValidWorld(w) && k < |rs|
    ensures var s := RunTools(w, p, st, round, rs);
      && ToolStart(rs[k].id, rs[k].displayName, rs[k].serverId) in s.events
      && ToolArgs(rs[k].id, rs[k].tc.args) in s.events
      && ToolEnd(rs[k].id, w.execute(round, k, rs[k].tc)) in s.events
  {
    var out := Execute(w, round, rs);
    if p.parallel {
      StartsShow(rs, 0, k);
      EndsShow(rs, out, w.completion(round, |rs|), k);
    } else {
      OneByOneShows(rs, out, 0, k);
    }
  }

  lemma {:induction false} RunToolsKeeps(w: World, p: Params, st: State, round: nat, rs: seq<Resolved>)
    requires ValidWorld(w)
    ensures var s := RunTools(w, p, st, round, rs); st.events <= s.events && s.calls == st.calls
  {}

  lemma {:induction false} AbsorbCalls(w: World, st: State, rs: seq<Resolved>, out: seq<string>, i: nat)
    requires |out| == |rs| && i <= |rs|
    ensures var calls := Absorb(w, st, rs, out, i).calls;
      && |calls| == |st.calls| + |rs| - i && calls[..|st.calls|] == st.calls
      && forall j | i <= j < |rs| :: calls[|st.calls| + j - i].id == rs[j].id
    decreases |rs| - i
  {
    if i == |rs| {
    } else {
      var s := AbsorbOne(w, st, rs[i], out[i]);
      AbsorbCalls(w, s, rs, out, i + 1);
      var calls := Absorb(w, s, rs, out, i + 1).calls;
      assert calls[..|s.calls|][|st.calls|] == calls[|st.calls|];
      assert calls[..|st.calls|] == calls[..|s.calls|][..|st.calls|];
    }
  }

  lemma {:induction false} ToolsShow(w: World, p: Params, st: State, round: nat, calls: seq<ToolCall>, k: nat)
    requires ValidWorld(w) && k < |ResolveCalls(w, round, calls, 0, st.nextId)|
    ensures var r := ResolveCalls(w, round, calls, 0, st.nextId)[k];
      var s := AfterTools(w, p, st, round, calls);
      && |s.calls| > |st.calls| + k && s.calls[|st.calls| + k].id == r.id
      && ToolStart(r.id, r.displayName, r.serverId) in s.events
      && ToolArgs(r.id, r.tc.args) in s.events
      && ToolEnd(r.id, w.execute(round, k, r.tc)) in s.events
  {
    hide RunTools, Absorb, ResolveCalls, Execute;
    var rs := ResolveCalls(w, round, calls, 0, st.nextId);
    var s0 := st.(nextId := st.nextId + |rs|);
    var s1 := RunTools(w, p, s0, round, rs);
    AbsorbCalls(w, s1, rs, Execute(w, round, rs), 0);
    AbsorbKeepsEvents(w, s1, rs, Execute(w, round, rs), 0);
    RunToolsKeeps(w, p, s0, round, rs);
    RunToolsShow(w, p, s0, round, rs, k);
    assert AfterTools(w, p, st, round, calls).calls[|st.calls| + k - 0].id == rs[k].id;
  }

  lemma {:induction false} ToolsKeep(w: World, p: Params, st: State, round: nat, calls: seq<ToolCall>)
    requires ValidWorld(w)
    ensures var s := AfterTools(w, p, st, round, calls);
      && st.events <= s.events && st.calls <= s.calls
      && |s.calls| == |st.calls| + |ResolveCalls(w, round, calls, 0, st.nextId)|
  {
    var rs := ResolveCalls(w, round, calls, 0, st.nextId);
    var s0 := st.(nextId := st.nextId + |rs|);
    var s1 := RunTools(w, p, s0, round, rs);
    AbsorbCalls(w, s1, rs, Execute(w, round, rs), 0);
    AbsorbKeepsEvents(w, s1, rs, Execute(w, round, rs), 0);
    RunToolsKeeps(w, p, s0, round, rs);
    hide RunTools, Absorb, ResolveCalls;
  }

  lemma {:induction false} ToolShown(w: World, p: Params, st: State, round: nat, calls: seq<ToolCall>, k: nat)
    requires ValidWorld(w) && k < |RoundCalls(w, round, calls, 0, 0)|
    ensures var s := AfterTools(w, p, st, round, calls);
      |s.calls| > |st.calls| + k && Shown(s.events, s.calls[|st.calls| + k].id, RoundCalls(w, round, calls, 0, 0)[k])
  {
    hide ResolveCalls, RoundCalls, AfterTools;
    ResolvedAreRoundCalls(w, round, calls, 0, st.nextId, 0);
    ToolsShow(w, p, st, round, calls, k);
  }

  lemma {:induction false} ShowsMore(st: State, s: State, done: seq<Finished>, ds: seq<Finished>)
    requires Shows(st, done) && st.events <= s.events && st.calls <= s.calls && |s.calls| == |st.calls| + |ds|
    requires forall k | 0 <= k < |ds| :: Shown(s.events, s.calls[|st.calls| + k].id, ds[k])
    ensures Shows(s, done + ds)
  {
    hide Shown;
    var all, n := done + ds, |done|;
    forall i | 0 <= i < |all|
      ensures Shown(s.events, s.calls[i].id, all[i])
    {
      if i < n {
        assert s.calls[i] == st.calls[i];
        ShownLater(st.events, s.events, st.calls[i].id, done[i]);
      } else {
        assert Shown(s.events, s.calls[n + (i - n)].id, ds[i - n]);
      }
    }
  }

  lemma {:induction false} AfterToolsShows(w: World, p: Params, st: State, round: nat, calls: seq<ToolCall>, done: seq<Finished>)
    requires ValidWorld(w) && Shows(st, done)
    ensures Shows(AfterTools(w, p, st, round, calls), done + RoundCalls(w, round, calls, 0, 0))
  {
    hide ResolveCalls, RoundCalls, AfterTools, Shown, Shows;
    var ds, s := RoundCalls(w, round, calls, 0, 0), AfterTools(w, p, st, round, calls);
    ResolvedAreRoundCalls(w, round, calls, 0, st.nextId, 0);
    ToolsKeep(w, p, st, round, calls);
    forall k | 0 <= k < |ds|
      ensures Shown(s.events, s.calls[|st.calls| + k].id, ds[k])
    {
      ToolShown(w, p, st, round, calls, k);
    }
    ShowsMore(st, s, done, ds);
  }

  lemma {:induction false} ShowsFrame(st: State, s: State, done: seq<Finished>)
    requires Shows(st, done) && s.calls == st.calls && st.events <= s.events
    ensures Shows(s, done)
  {
    hide Shown;
    forall i | 0 <= i < |done|
      ensures Shown(s.events, s.calls[i].id, done[i])
    {
      ShownLater(st.events, s.events, st.calls[i].id, done[i]);
    }
  }

  lemma {:induction false} AfterRoundShows(w: World, p: Params, st: State, round: nat)
    requires ValidWorld(w) && Shows(st, AllCalls(w, st.asked)) && |st.asked| == round
    ensures var s := AfterRound(w, p, st, round); Shows(s, AllCalls(w, s.asked))
  {
    hide Shows, AfterTools, RoundCalls;
    AskedGrows(w, p, st, round);
    AskedOnce(w, st.asked, st.messages);
    RoundCallsOfNone(w, round);
    var s, done := AfterRound(w, p, st, round), AllCalls(w, st.asked);
    assert done + [] == done;
    match w.chat(round, st.messages)
    case ChatError(_) => ShowsFrame(st, s, done);
    case ChatOk(reply) =>
      if reply.calls == [] {
        ShowsFrame(st, s, done);
      } else {
        ShowsFrame(st, Spoken(st, reply), done);
        AfterToolsShows(w, p, Spoken(st, reply), round, reply.calls, done);
      }
  }

  lemma {:induction false} RoundsShow(w: World, p: Params, st: State, round: nat)
    requires ValidWorld(w) && round < MaxRounds(p) && |st.asked| == round && Shows(st, AllCalls(w, st.asked))
    ensures var s := Rounds(w, p, st, round).state; Shows(s, AllCalls(w, s.asked))
    decreases MaxRounds(p) - round
  {
    hide AfterRound, Shows;
    AskedGrows(w, p, st, round);
    AfterRoundShows(w, p, st, round);
    var s := AfterRound(w, p, st, round);
    match w.chat(round, st.messages)
    case ChatError(_) => FailedRound(w, p, st, round);
    case ChatOk(reply) =>
      if reply.calls != [] && round + 1 < MaxRounds(p) {
        RoundsShow(w, p, s, round + 1);
      } else {
        ShowsFrame(s, Finish(p, s, round + 1).state, AllCalls(w, s.asked));
      }
  }

  /** The stream shows of every stored call, under its id, the server and name it resolved to, what it was given and what came back. */
  lemma {:induction false} StreamShowsCalls(w: World, p: Params)
    requires ValidWorld(w)
    ensures var st := Run(w, p).state; Shows(st, AllCalls(w, st.asked))
  {
    RoundsShow(w, p, Initial(p), 0);
  }

  function NamesOf(done: seq<Finished>): seq<string> {
    seq(|done|, i requires 0 <= i < |done| => done[i].displayName)
  }

  // Each call done was measured once, under the name shown, in sequential mode in order.
  ghost predicate Measured(p: Params, st: State, done: seq<Finished>) {
    && multiset(Names(st.metrics)) == multiset(NamesOf(done))
    && (!p.parallel ==> Names(st.metrics) == NamesOf(done))
  }

  lemma {:induction false} ToolsMeasured(w: World, p: Params, round: nat, rs: seq<Resolved>, ds: seq<Finished>)
    requires ValidWorld(w) && |ds| == |rs| && forall j | 0 <= j < |rs| :: ds[j].displayName == rs[j].displayName
    ensures var names := Names(Metrics(w, round, rs, CompletionOrder(w, p, round, |rs|)));
      multiset(names) == multiset(NamesOf(ds)) && (!p.parallel ==> names == NamesOf(ds))
  {
    var order, plain := CompletionOrder(w, p, round, |rs|), Indices(0, |rs|);
    assert NamesOf(ds) == Map(NameOf(rs), plain);
    NamesAsMap(w, round, rs, order);
    if p.parallel {
      PermutationMultiset(order, |rs|);
      MapPermutation(NameOf(rs), order, plain);
    }
  }

  lemma {:induction false} ToolsMetrics(w: World, p: Params, st: State, round: nat, calls: seq<ToolCall>)
    requires ValidWorld(w)
    ensures var rs := ResolveCalls(w, round, calls, 0, st.nextId);
      AfterTools(w, p, st, round, calls).metrics == st.metrics + Metrics(w, round, rs, CompletionOrder(w, p, round, |rs|))
  {
    var rs := ResolveCalls(w, round, calls, 0, st.nextId);
    AbsorbKeepsEvents(w, RunTools(w, p, st.(nextId := st.nextId + |rs|), round, rs), rs, Execute(w, round, rs), 0);
  }

  lemma {:induction false} MeasuredMore(p: Params, st: State, s: State, more: seq<Metric>, done: seq<Finished>, ds: seq<Finished>)
    requires Measured(p, st, done) && s.metrics == st.metrics + more
    requires multiset(Names(more)) == multiset(NamesOf(ds)) && (!p.parallel ==> Names(more) == NamesOf(ds))
    ensures Measured(p, s, done + ds)
  {
    NamesConcat(st.metrics, more);
    assert NamesOf(done + ds) == NamesOf(done) + NamesOf(ds);
    hide NamesOf, Names;
  }

  lemma {:induction false} RoundMeasured(w: World, p: Params, st: State, round: nat, calls: seq<ToolCall>, done: seq<Finished>)
    requires ValidWorld(w) && Measured(p, st, done)
    ensures Measured(p, AfterTools(w, p, st, round, calls), done + RoundCalls(w, round, calls, 0, 0))
  {
    hide RoundCalls, AfterTools, Metrics, Measured, NamesOf, Names;
    var rs := ResolveCalls(w, round, calls, 0, st.nextId);
    var ds := RoundCalls(w, round, calls, 0, 0);
    ResolvedAreRoundCalls(w, round, calls, 0, st.nextId, 0);
    ToolsMeasured(w, p, round, rs, ds);
    ToolsMetrics(w, p, st, round, calls);
    MeasuredMore(p, st, AfterTools(w, p, st, round, calls), Metrics(w, round, rs, CompletionOrder(w, p, round, |rs|)), done, ds);
  }

  lemma {:induction false} MeasuredFrame(p: Params, st: State, s: State, done: seq<Finished>)
    requires Measured(p, st, done) && s.metrics == st.metrics
    ensures Measured(p, s, done)
  {}

  lemma {:induction false} RoundsMeasure(w: World, p: Params, st: State, round: nat)
    requires ValidWorld(w) && round < MaxRounds(p) && |st.asked| == round && Measured(p, st, AllCalls(w, st.asked))
    ensures var s := Rounds(w, p, st, round).state; Measured(p, s, AllCalls(w, s.asked))
    decreases MaxRounds(p) - round
  {
    hide AfterTools, Measured, RoundCalls;
    AskedGrows(w, p, st, round);
    AskedOnce(w, st.asked, st.messages);
    RoundCallsOfNone(w, round);
    var done := AllCalls(w, st.asked);
    assert done + [] == done;
    var s := AfterRound(w, p, st, round);
    match w.chat(round, st.messages)
    case ChatError(m) =>
      FailedRound(w, p, st, round);
      MeasuredFrame(p, st, Rounds(w, p, st, round).state, done);
    case ChatOk(reply) =>
      if reply.calls == [] {
        MeasuredFrame(p, st, Finish(p, s, round + 1).state, done);
      } else {
        MeasuredFrame(p, st, Spoken(st, reply), done);
        RoundMeasured(w, p, Spoken(st, reply), round, reply.calls, done);
        if round + 1 < MaxRounds(p) {
          RoundsMeasure(w, p, s, round + 1);
        } else {
          MeasuredFrame(p, s, Finish(p, s, round + 1).state, AllCalls(w, s.asked));
        }
      }
  }

  /** Every stored call is measured once, under the name shown, and in order unless calls run in parallel. */
  lemma {:induction false} MetricsMean(w: World, p: Params)
    requires ValidWorld(w)
    ensures var st := Run(w, p).state; Measured(p, st, AllCalls(w, st.asked))
  {
    RoundsMeasure(w, p, Initial(p), 0);
  }
}
