/** The message a tool-loop run saves: internally exact, and a replay of what was streamed. */
module ToolLoopMessage {
  import opened Prelude
  import opened ToolLoop

  // ---------------------------------------------------------------- the saved message

  function ToolIndices(parts: seq<Part>): seq<nat> {
    if parts == [] then []
    else
      var n := |parts| - 1;
      ToolIndices(parts[..n]) + if parts[n].ToolPart? then [parts[n].index] else []
  }

  // A tool call carried out: what the LLM asked for, the name and server shown, the text that came back.
  datatype Finished = Finished(tc: ToolCall, displayName: string, serverId: string, output: string)

  // The calls of one reply that resolve, in the order the LLM listed them.
  function RoundCalls(w: World, round: nat, calls: seq<ToolCall>, i: nat, position: nat): seq<Finished>
    requires i <= |calls|
    decreases |calls| - i
  {
    if i == |calls| then []
    else match w.resolve(round, i, calls[i])
      case Skip => RoundCalls(w, round, calls, i + 1, position)
      case Use(name, server) =>
        [Finished(calls[i], name, server, w.execute(round, position, calls[i]))] + RoundCalls(w, round, calls, i + 1, position + 1)
  }

  // All calls carried out in the rounds whose conversations are `asked`.
  function AllCalls(w: World, asked: seq<seq<LlmMessage>>): seq<Finished> {
    if asked == [] then []
    else
      var n := |asked| - 1;
      AllCalls(w, asked[..n]) + match w.chat(n, asked[n])
        case ChatError(_) => []
        case ChatOk(reply) => RoundCalls(w, n, reply.calls, 0, 0)
  }

  // Token usage reported by those rounds; a reply reporting nothing positive is not counted.
  function Spent(w: World, asked: seq<seq<LlmMessage>>): Tokens {
    if asked == [] then Tokens(0, 0, 0)
    else
      var n := |asked| - 1;
      var t := Spent(w, asked[..n]);
      match w.chat(n, asked[n])
      case ChatError(_) => t
      case ChatOk(r) =>
        if r.inputTokens > 0 || r.outputTokens > 0 then
          Tokens(t.input + r.inputTokens, t.output + r.outputTokens, t.total + r.inputTokens + r.outputTokens)
        else t
  }

  ghost predicate Matches(w: World, st: State, b: nat, d: Finished, i: nat)
    requires i < |st.calls| == |st.results| && |st.messages| == b + 2 * |st.calls|
  {
    && st.calls[i].id == st.results[i].id
    && st.calls[i].name == st.results[i].name == d.displayName
    && st.calls[i].args == d.tc.args
    && st.results[i].response == (if w.isJson(d.output) then Parsed(d.output) else Text(d.output))
    && st.messages[b + 2 * i] == ToolUse(d.tc.id, d.tc.name, d.tc.args)
    && st.messages[b + 2 * i + 1] == ToolResult(d.tc.id, d.tc.name, d.output)
  }

  /** Stored calls, results, parts and the conversation all describe the calls `done`, in order. */
  ghost predicate Describes(w: World, p: Params, st: State, done: seq<Finished>) {
    var b := |p.messages|;
    && |st.calls| == |st.results| == |done|
    && ToolIndices(st.parts) == Indices(0, |done|)
    && |st.messages| == b + 2 * |done|
    && st.messages[..b] == p.messages
    && (forall i | 0 <= i < |done| :: Matches(w, st, b, done[i], i))
  }

  ghost predicate Exact(w: World, p: Params, st: State) {
    && Describes(w, p, st, AllCalls(w, st.asked))
    && st.tokens == Spent(w, st.asked)
    && st.finalText == (
         if st.asked == [] then ""
         else match w.chat(|st.asked| - 1, st.asked[|st.asked| - 1])
           case ChatOk(reply) => if reply.calls == [] then reply.text else ""
           case ChatError(_) => "")
  }

  lemma {:induction false} IndicesGrow(k: nat, n: nat)
    requires k <= n
    ensures Indices(k, n + 1) == Indices(k, n) + [n]
    decreases n - k
  {
    if k < n {
      IndicesGrow(k + 1, n);
    } else {
      assert Indices(n + 1, n + 1) == [];
    }
  }

  lemma {:induction false} AbsorbOneDescribes(w: World, p: Params, st: State, r: Resolved, text: string, done: seq<Finished>)
    requires Describes(w, p, st, done)
    ensures Describes(w, p, AbsorbOne(w, st, r, text), done + [Finished(r.tc, r.displayName, r.serverId, text)])
  {
    var s := AbsorbOne(w, st, r, text);
    var n, b := |st.calls|, |p.messages|;
    var done' := done + [Finished(r.tc, r.displayName, r.serverId, text)];
    assert s.parts[..|s.parts| - 1] == st.parts;
    IndicesGrow(0, n);
    forall i | 0 <= i < n + 1 ensures Matches(w, s, b, done'[i], i) {
      if i < n { assert Matches(w, st, b, done[i], i); }
    }
  }

  function DoneOf(rs: seq<Resolved>, out: seq<string>, i: nat): seq<Finished>
    requires |out| == |rs| && i <= |rs|
  {
    seq(|rs| - i, j requires 0 <= j < |rs| - i => Finished(rs[i + j].tc, rs[i + j].displayName, rs[i + j].serverId, out[i + j]))
  }

  lemma {:induction false} AbsorbDescribes(w: World, p: Params, st: State, rs: seq<Resolved>, out: seq<string>, i: nat, done: seq<Finished>)
    requires |out| == |rs| && i <= |rs| && Describes(w, p, st, done)
    ensures Describes(w, p, Absorb(w, st, rs, out, i), done + DoneOf(rs, out, i))
    decreases |rs| - i
  {
    if i < |rs| {
      var d := Finished(rs[i].tc, rs[i].displayName, rs[i].serverId, out[i]);
      AbsorbOneDescribes(w, p, st, rs[i], out[i], done);
      AbsorbDescribes(w, p, AbsorbOne(w, st, rs[i], out[i]), rs, out, i + 1, done + [d]);
      assert done + DoneOf(rs, out, i) == (done + [d]) + DoneOf(rs, out, i + 1);
    } else {
      assert done + DoneOf(rs, out, i) == done;
    }
  }

  lemma {:induction false} ResolvedAreRoundCalls(w: World, round: nat, calls: seq<ToolCall>, i: nat, id: Id, position: nat)
    requires i <= |calls|
    ensures var rs, ds := ResolveCalls(w, round, calls, i, id), RoundCalls(w, round, calls, i, position);
      && |rs| == |ds|
      && forall j | 0 <= j < |rs| :: ds[j] == Finished(rs[j].tc, rs[j].displayName, rs[j].serverId, w.execute(round, position + j, rs[j].tc))
    decreases |calls| - i
  {
    if i == |calls| {
    } else {
      match w.resolve(round, i, calls[i])
      case Skip => ResolvedAreRoundCalls(w, round, calls, i + 1, id, position);
      case Use(name, server) =>
        ResolvedAreRoundCalls(w, round, calls, i + 1, id + 1, position + 1);
        var rs, ds := ResolveCalls(w, round, calls, i, id), RoundCalls(w, round, calls, i, position);
        var rs', ds' := ResolveCalls(w, round, calls, i + 1, id + 1), RoundCalls(w, round, calls, i + 1, position + 1);
        assert rs == [Resolved(calls[i], name, server, id)] + rs';
        assert ds == [Finished(calls[i], name, server, w.execute(round, position, calls[i]))] + ds';
        hide ResolveCalls, RoundCalls;
        forall j | 0 <= j < |rs|
          ensures ds[j] == Finished(rs[j].tc, rs[j].displayName, rs[j].serverId, w.execute(round, position + j, rs[j].tc))
        {
          if j > 0 {
            assert rs[j] == rs'[j - 1] && ds[j] == ds'[j - 1];
          }
        }
    }
  }

  lemma {:induction false} DescribesFrame(w: World, p: Params, st: State, s: State, done: seq<Finished>)
    requires Describes(w, p, st, done)
    requires s.calls == st.calls && s.results == st.results && s.messages == st.messages && ToolIndices(s.parts) == ToolIndices(st.parts)
    ensures Describes(w, p, s, done)
  {
    forall i | 0 <= i < |done| ensures Matches(w, s, |p.messages|, done[i], i) {
      assert Matches(w, st, |p.messages|, done[i], i);
    }
  }

  lemma {:induction false} SayDescribes(w: World, p: Params, st: State, text: string, done: seq<Finished>)
    requires Describes(w, p, st, done)
    ensures Describes(w, p, Say(st, text), done)
  {
    assert Say(st, text).parts[..|st.parts|] == st.parts;
    DescribesFrame(w, p, st, Say(st, text), done);
  }

  lemma {:induction false} AfterToolsDescribes(w: World, p: Params, st: State, round: nat, calls: seq<ToolCall>, done: seq<Finished>)
    requires ValidWorld(w) && Describes(w, p, st, done)
    ensures var s := AfterTools(w, p, st, round, calls);
      && Describes(w, p, s, done + RoundCalls(w, round, calls, 0, 0))
      && s.asked == st.asked && s.tokens == st.tokens && s.finalText == st.finalText
  {
    var rs := ResolveCalls(w, round, calls, 0, st.nextId);
    var out := Execute(w, round, rs);
    var s := RunTools(w, p, st.(nextId := st.nextId + |rs|), round, rs);
    DescribesFrame(w, p, st, s, done);
    AbsorbDescribes(w, p, s, rs, out, 0, done);
    AbsorbKeepsEvents(w, s, rs, out, 0);
    ResolvedAreRoundCalls(w, round, calls, 0, st.nextId, 0);
    assert DoneOf(rs, out, 0) == RoundCalls(w, round, calls, 0, 0);
  }

  lemma {:induction false} AskedOnce(w: World, asked: seq<seq<LlmMessage>>, ms: seq<LlmMessage>)
    ensures var a := asked + [ms];
      && a[..|a| - 1] == asked && a[|a| - 1] == ms
      && AllCalls(w, a) == AllCalls(w, asked) + (match w.chat(|asked|, ms)
           case ChatError(_) => []
           case ChatOk(reply) => RoundCalls(w, |asked|, reply.calls, 0, 0))
  {
    var a := asked + [ms];
    assert a[..|a| - 1] == asked;
  }

  lemma {:induction false} LastRoundDescribes(w: World, p: Params, st: State, reply: Reply, done: seq<Finished>)
    requires Describes(w, p, st, done)
    ensures Describes(w, p, LastRound(st, reply), done)
  {
    var s := Heard(st, reply);
    DescribesFrame(w, p, st, s, done);
    if reply.text != "" {
      DescribesFrame(w, p, s, s.(finalText := reply.text), done);
      SayDescribes(w, p, s.(finalText := reply.text), reply.text, done);
    }
  }

  lemma {:induction false} SpokenDescribes(w: World, p: Params, st: State, reply: Reply, done: seq<Finished>)
    requires Describes(w, p, st, done)
    ensures Describes(w, p, Spoken(st, reply), done)
  {
    DescribesFrame(w, p, st, Heard(st, reply), done);
    if reply.text != "" {
      SayDescribes(w, p, Heard(st, reply), reply.text, done);
    }
  }

  lemma {:induction false} RoundCallsOfNone(w: World, round: nat)
    ensures RoundCalls(w, round, [], 0, 0) == []
  {
  }

  lemma {:induction false} LastRoundExact(w: World, p: Params, st: State, reply: Reply)
    requires Exact(w, p, st) && st.finalText == ""
    requires w.chat(|st.asked|, st.messages) == ChatOk(reply) && reply.calls == []
    ensures Exact(w, p, LastRound(st, reply))
    ensures LastRound(st, reply).asked == st.asked + [st.messages]
  {
    hide Describes, RoundCalls, AllCalls;
    var done := AllCalls(w, st.asked);
    AskedOnce(w, st.asked, st.messages);
    RoundCallsOfNone(w, |st.asked|);
    assert done + [] == done;
    LastRoundDescribes(w, p, st, reply, done);
  }

  lemma {:induction false} ToolRoundExact(w: World, p: Params, st: State, reply: Reply)
    requires ValidWorld(w) && Exact(w, p, st) && st.finalText == ""
    requires w.chat(|st.asked|, st.messages) == ChatOk(reply) && reply.calls != []
    ensures var s := AfterTools(w, p, Spoken(st, reply), |st.asked|, reply.calls);
      Exact(w, p, s) && s.asked == st.asked + [st.messages] && s.finalText == ""
  {
    hide Describes, RoundCalls, AllCalls, AfterTools;
    var done := AllCalls(w, st.asked);
    AskedOnce(w, st.asked, st.messages);
    SpokenDescribes(w, p, st, reply, done);
    AfterToolsDescribes(w, p, Spoken(st, reply), |st.asked|, reply.calls, done);
  }

  lemma {:induction false} FailedRoundExact(w: World, p: Params, st: State, e: Event)
    requires Exact(w, p, st) && st.finalText == "" && w.chat(|st.asked|, st.messages).ChatError?
    ensures Exact(w, p, st.(asked := st.asked + [st.messages], events := st.events + [e]))
  {
    hide Describes, RoundCalls, AllCalls;
    var done := AllCalls(w, st.asked);
    AskedOnce(w, st.asked, st.messages);
    assert done + [] == done;
    DescribesFrame(w, p, st, st.(asked := st.asked + [st.messages], events := st.events + [e]), done);
  }

  lemma {:induction false} AfterRoundExact(w: World, p: Params, st: State, round: nat)
    requires ValidWorld(w) && Exact(w, p, st) && |st.asked| == round && st.finalText == ""
    ensures var s := AfterRound(w, p, st, round);
      Exact(w, p, s) && s.asked == st.asked + [st.messages]
    ensures var o := w.chat(round, st.messages);
      o.ChatOk? && o.reply.calls != [] ==> AfterRound(w, p, st, round).finalText == ""
  {
    hide Exact, AfterTools;
    match w.chat(round, st.messages)
    case ChatError(m) =>
      FailedRoundExact(w, p, st, RunError(m));
    case ChatOk(reply) =>
      if reply.calls == [] {
        LastRoundExact(w, p, st, reply);
      } else {
        ToolRoundExact(w, p, st, reply);
      }
  }

  lemma {:induction false} FinishExact(w: World, p: Params, st: State, rounds: nat)
    requires Exact(w, p, st)
    ensures Exact(w, p, Finish(p, st, rounds).state)
  {
    DescribesFrame(w, p, st, Finish(p, st, rounds).state, AllCalls(w, st.asked));
  }

  lemma {:induction false} RoundsExact(w: World, p: Params, st: State, round: nat)
    requires ValidWorld(w) && round < MaxRounds(p) && Exact(w, p, st) && |st.asked| == round && st.finalText == ""
    ensures var o := Rounds(w, p, st, round);
      && Exact(w, p, o.state) && |o.state.asked| == o.rounds && round < o.rounds <= MaxRounds(p)
    decreases MaxRounds(p) - round
  {
    hide AfterRound, Exact;
    AfterRoundExact(w, p, st, round);
    var s := AfterRound(w, p, st, round);
    match w.chat(round, st.messages)
    case ChatError(_) =>
    case ChatOk(reply) =>
      if reply.calls != [] && round + 1 < MaxRounds(p) {
        RoundsExact(w, p, s, round + 1);
      } else {
        FinishExact(w, p, s, round + 1);
      }
  }

  /**
   * After any run, failed or not: exactly the resolving calls of every LLM
   * reply are stored and fed back, in order and with matching results; tokens
   * and final text are those of the replies; Rounds counts the LLM calls.
   */
  lemma {:induction false} SavedMessageIsExact(w: World, p: Params)
    requires ValidWorld(w)
    ensures var o := Run(w, p);
      Exact(w, p, o.state) && |o.state.asked| == o.rounds && 1 <= o.rounds <= MaxRounds(p)
  {
    RoundsExact(w, p, Initial(p), 0);
  }

  lemma {:induction false} AskedGrows(w: World, p: Params, st: State, round: nat)
    requires ValidWorld(w)
    ensures AfterRound(w, p, st, round).asked == st.asked + [st.messages]
  {
    var o := w.chat(round, st.messages);
    if o.ChatOk? && o.reply.calls != [] {
      var s := Spoken(st, o.reply);
      var rs := ResolveCalls(w, round, o.reply.calls, 0, s.nextId);
      AbsorbKeepsEvents(w, RunTools(w, p, s.(nextId := s.nextId + |rs|), round, rs), rs, Execute(w, round, rs), 0);
    }
  }

  /** The stream ends in RUN_ERROR exactly when the last LLM call failed, with that call's message. */
  lemma {:induction false} ErrorIsReported(w: World, p: Params, st: State, round: nat)
    requires ValidWorld(w) && round < MaxRounds(p)
    ensures var o := Rounds(w, p, st, round);
      && o.state.events != [] && o.state.asked != [] && o.rounds > 0
    ensures var o := Rounds(w, p, st, round);
      o.state.events[|o.state.events| - 1] == if o.error.Some? then RunError(o.error.value) else RunFinished(p.sessionId, p.firstId)
    ensures var o := Rounds(w, p, st, round);
      var last := w.chat(o.rounds - 1, o.state.asked[|o.state.asked| - 1]);
      o.error == if last.ChatError? then Some(last.message) else None
    decreases MaxRounds(p) - round
  {
    hide AfterRound;
    AskedGrows(w, p, st, round);
    var s := AfterRound(w, p, st, round);
    match w.chat(round, st.messages)
    case ChatError(_) =>
      FailedRound(w, p, st, round);
    case ChatOk(reply) =>
      if reply.calls != [] && round + 1 < MaxRounds(p) {
        ErrorIsReported(w, p, s, round + 1);
      } else {
        assert s.asked[|s.asked| - 1] == st.messages;
      }
  }

  // ---------------------------------------------------------------- the saved message replays the stream

  datatype Item = Said(text: string) | Started(id: Id, name: string) | Given(id: Id, args: string)

  // What a client shows: texts and tool calls, in stream order.
  function Items(s: seq<Event>): seq<Item> {
    if s == [] then []
    else
      var n := |s| - 1;
      Items(s[..n]) + match s[n]
        case TextContent(_, t) => [Said(t)]
        case ToolStart(id, name, _) => [Started(id, name)]
        case ToolArgs(id, delta) => [Given(id, delta)]
        case _ => []
  }

  function Call(c: StoredCall): seq<Item> {
    [Started(c.id, c.name), Given(c.id, c.args)]
  }

  // What the saved content parts show.
  function Rendered(parts: seq<Part>, calls: seq<StoredCall>): seq<Item> {
    if parts == [] then []
    else
      var n := |parts| - 1;
      Rendered(parts[..n], calls) + match parts[n]
        case TextPart(t) => [Said(t)]
        case ToolPart(i) => if i < |calls| then Call(calls[i]) else []
  }

  function Requested(rs: seq<Resolved>, i: nat): seq<Item>
    requires i <= |rs|
    decreases |rs| - i
  {
    if i == |rs| then [] else [Started(rs[i].id, rs[i].displayName), Given(rs[i].id, rs[i].tc.args)] + Requested(rs, i + 1)
  }

  lemma {:induction false} ItemsConcat(s: seq<Event>, t: seq<Event>)
    ensures Items(s + t) == Items(s) + Items(t)
  {
    if t == [] {
      assert s + t == s;
    } else {
      var n := |t| - 1;
      assert (s + t)[..|s + t| - 1] == s + t[..n];
      ItemsConcat(s, t[..n]);
    }
  }

  lemma {:induction false} ItemsOfStart(r: Resolved)
    ensures Items(Start(r)) == [Started(r.id, r.displayName), Given(r.id, r.tc.args)]
  {
    var one := [ToolStart(r.id, r.displayName, r.serverId)];
    assert Start(r)[..1] == one && one[..0] == [];
    assert Items(one) == [Started(r.id, r.displayName)];
  }

  lemma {:induction false} ItemsOfEnd(id: Id, text: string)
    ensures Items([ToolEnd(id, text)]) == []
  {
    assert [ToolEnd(id, text)][..0] == [];
  }

  lemma {:induction false} ItemsOfStarts(rs: seq<Resolved>, i: nat)
    requires i <= |rs|
    ensures Items(Starts(rs, i)) == Requested(rs, i)
    decreases |rs| - i
  {
    if i == |rs| {
    } else {
      ItemsOfStart(rs[i]);
      ItemsOfStarts(rs, i + 1);
      ItemsConcat(Start(rs[i]), Starts(rs, i + 1));
    }
  }

  lemma {:induction false} ItemsOfEnds(ends: seq<Event>)
    requires forall e | e in ends :: e.ToolEnd?
    ensures Items(ends) == []
  {
    if ends == [] {
    } else {
      assert ends[|ends| - 1] in ends;
      ItemsOfEnds(ends[..|ends| - 1]);
    }
  }

  lemma {:induction false} ItemsOfOneByOne(rs: seq<Resolved>, out: seq<string>, i: nat)
    requires |out| == |rs| && i <= |rs|
    ensures Items(OneByOne(rs, out, i)) == Requested(rs, i)
    decreases |rs| - i
  {
    if i == |rs| {
    } else {
      ItemsOfStart(rs[i]);
      ItemsOfEnd(rs[i].id, out[i]);
      ItemsOfOneByOne(rs, out, i + 1);
      ItemsConcat(Start(rs[i]), [ToolEnd(rs[i].id, out[i])]);
      ItemsConcat(Start(rs[i]) + [ToolEnd(rs[i].id, out[i])], OneByOne(rs, out, i + 1));
    }
  }

  ghost predicate InRange(parts: seq<Part>, n: nat) {
    forall i | 0 <= i < |parts| && parts[i].ToolPart? :: parts[i].index < n
  }

  lemma {:induction false} RenderedGrows(parts: seq<Part>, calls: seq<StoredCall>, more: seq<StoredCall>)
    requires InRange(parts, |calls|)
    ensures Rendered(parts, calls + more) == Rendered(parts, calls)
    decreases parts
  {
    if parts == [] {
    } else {
      RenderedGrows(parts[..|parts| - 1], calls, more);
    }
  }

  // Storing one call renders as that call.
  lemma {:induction false} AbsorbOneRendered(w: World, st: State, r: Resolved, out: string)
    requires InRange(st.parts, |st.calls|)
    ensures var s := AbsorbOne(w, st, r, out);
      && InRange(s.parts, |s.calls|)
      && Rendered(s.parts, s.calls) == Rendered(st.parts, st.calls) + Call(StoredCall(r.id, r.displayName, r.tc.args))
  {
    var s := AbsorbOne(w, st, r, out);
    var c := StoredCall(r.id, r.displayName, r.tc.args);
    assert s.parts[..|s.parts| - 1] == st.parts;
    RenderedGrows(st.parts, st.calls, [c]);
  }

  lemma {:induction false} AbsorbRendered(w: World, st: State, rs: seq<Resolved>, out: seq<string>, i: nat)
    requires |out| == |rs| && i <= |rs| && InRange(st.parts, |st.calls|)
    ensures var s := Absorb(w, st, rs, out, i);
      && InRange(s.parts, |s.calls|)
      && Rendered(s.parts, s.calls) == Rendered(st.parts, st.calls) + Requested(rs, i)
    decreases |rs| - i
  {
    hide AbsorbOne, InRange, Rendered;
    if i == |rs| {
    } else {
      AbsorbOneRendered(w, st, rs[i], out[i]);
      AbsorbRendered(w, AbsorbOne(w, st, rs[i], out[i]), rs, out, i + 1);
    }
  }

  ghost predicate Replays(p: Params, st: State) {
    InRange(st.parts, |st.calls|) && Items(st.events) == Items(p.onStart) + Rendered(st.parts, st.calls)
  }

  lemma {:induction false} ItemsOfText(id: Id, text: string)
    ensures Items([TextStart(id), TextContent(id, text), TextEnd(id)]) == [Said(text)]
  {
    var evs := [TextStart(id), TextContent(id, text), TextEnd(id)];
    assert evs[..2] == [TextStart(id), TextContent(id, text)] && evs[..2][..1] == [TextStart(id)] && [TextStart(id)][..0] == [];
    assert Items([TextStart(id)]) == [];
    assert Items(evs[..2]) == [Said(text)];
  }

  lemma {:induction false} SayReplays(p: Params, st: State, text: string)
    requires Replays(p, st)
    ensures Replays(p, Say(st, text))
  {
    var s := Say(st, text);
    ItemsOfText(st.nextId, text);
    ItemsConcat(st.events, [TextStart(st.nextId), TextContent(st.nextId, text), TextEnd(st.nextId)]);
    assert s.parts[..|st.parts|] == st.parts;
    assert Rendered(s.parts, s.calls) == Rendered(st.parts, st.calls) + [Said(text)];
  }

  lemma {:induction false} ItemsOfToolEvents(w: World, p: Params, st: State, round: nat, rs: seq<Resolved>)
    requires ValidWorld(w)
    ensures Items(RunTools(w, p, st, round, rs).events) == Items(st.events) + Requested(rs, 0)
  {
    var out := Execute(w, round, rs);
    if p.parallel {
      var ends := Ends(rs, out, w.completion(round, |rs|));
      ItemsOfStarts(rs, 0);
      ItemsOfEnds(ends);
      ItemsConcat(Starts(rs, 0), ends);
      ItemsConcat(st.events, Starts(rs, 0) + ends);
    } else {
      ItemsOfOneByOne(rs, out, 0);
      ItemsConcat(st.events, OneByOne(rs, out, 0));
    }
  }

  lemma {:induction false} AbsorbReplays(w: World, p: Params, s: State, rs: seq<Resolved>, out: seq<string>, st: State)
    requires |out| == |rs| && Replays(p, st)
    requires s.parts == st.parts && s.calls == st.calls && Items(s.events) == Items(st.events) + Requested(rs, 0)
    ensures Replays(p, Absorb(w, s, rs, out, 0))
  {
    hide Items, Rendered, Requested, Absorb, InRange;
    AbsorbRendered(w, s, rs, out, 0);
    AbsorbKeepsEvents(w, s, rs, out, 0);
    assert Items(p.onStart) + Rendered(st.parts, st.calls) + Requested(rs, 0)
      == Items(p.onStart) + (Rendered(st.parts, st.calls) + Requested(rs, 0));
  }

  lemma {:induction false} SameReplays(p: Params, st: State, s: State)
    requires Replays(p, st) && s.parts == st.parts && s.calls == st.calls && s.events == st.events
    ensures Replays(p, s)
  {}

  lemma {:induction false} RunToolsStoresNothing(w: World, p: Params, st: State, round: nat, rs: seq<Resolved>)
    requires ValidWorld(w)
    ensures RunTools(w, p, st, round, rs).parts == st.parts && RunTools(w, p, st, round, rs).calls == st.calls
  {}

  lemma {:induction false} ToolsReplay(w: World, p: Params, st: State, round: nat, rs: seq<Resolved>)
    requires ValidWorld(w) && Replays(p, st)
    ensures Replays(p, Absorb(w, RunTools(w, p, st, round, rs), rs, Execute(w, round, rs), 0))
  {
    hide RunTools, Absorb, Items, Rendered, Requested, Replays, Execute;
    RunToolsStoresNothing(w, p, st, round, rs);
    ItemsOfToolEvents(w, p, st, round, rs);
    AbsorbReplays(w, p, RunTools(w, p, st, round, rs), rs, Execute(w, round, rs), st);
  }

  lemma {:induction false} AfterToolsReplays(w: World, p: Params, st: State, round: nat, calls: seq<ToolCall>)
    requires ValidWorld(w) && Replays(p, st)
    ensures Replays(p, AfterTools(w, p, st, round, calls))
  {
    hide RunTools, Absorb, Items, Rendered, Requested, Replays, Execute, ResolveCalls;
    var rs := ResolveCalls(w, round, calls, 0, st.nextId);
    var s0 := st.(nextId := st.nextId + |rs|);
    SameReplays(p, st, s0);
    ToolsReplay(w, p, s0, round, rs);
  }

  lemma {:induction false} AfterRoundReplays(w: World, p: Params, st: State, round: nat)
    requires ValidWorld(w) && Replays(p, st) && w.chat(round, st.messages).ChatOk?
    ensures Replays(p, AfterRound(w, p, st, round))
  {
    var reply := w.chat(round, st.messages).reply;
    if reply.calls != [] {
      if reply.text != "" { SayReplays(p, Heard(st, reply), reply.text); }
      AfterToolsReplays(w, p, Spoken(st, reply), round, reply.calls);
    } else if reply.text != "" {
      SayReplays(p, Heard(st, reply).(finalText := reply.text), reply.text);
    }
  }

  lemma {:induction false} TerminalReplays(p: Params, st: State, e: Event)
    requires Replays(p, st) && (e.RunFinished? || e.RunError?)
    ensures Items(st.events + [e]) == Items(st.events)
  {
    ItemsConcat(st.events, [e]);
    assert [e][..0] == [];
  }

  lemma {:induction false} RoundsReplay(w: World, p: Params, st: State, round: nat)
    requires ValidWorld(w) && round < MaxRounds(p) && Replays(p, st)
    ensures Replays(p, Rounds(w, p, st, round).state)
    decreases MaxRounds(p) - round
  {
    hide AfterRound;
    var s := AfterRound(w, p, st, round);
    match w.chat(round, st.messages)
    case ChatError(m) =>
      FailedRound(w, p, st, round);
      TerminalReplays(p, st, RunError(m));
    case ChatOk(reply) =>
      AfterRoundReplays(w, p, st, round);
      if reply.calls == [] || round + 1 == MaxRounds(p) {
        TerminalReplays(p, s, RunFinished(p.sessionId, p.firstId));
      } else {
        RoundsReplay(w, p, s, round + 1);
      }
  }

  /** Rendering the message that would be saved gives back the stream, texts and tool calls in the order shown. */
  lemma {:induction false} SavedMessageReplaysStream(w: World, p: Params)
    requires ValidWorld(w)
    ensures Replays(p, Run(w, p).state)
  {
    var st := Initial(p);
    ItemsConcat([RunStarted(p.sessionId, p.firstId)], p.onStart);
    assert [RunStarted(p.sessionId, p.firstId)][..0] == [];
    RoundsReplay(w, p, st, 0);
  }

  // ---------------------------------------------------------------- when shown content is lost

  predicate AllSkipped(w: World, round: nat, calls: seq<ToolCall>) {
    forall i | 0 <= i < |calls| :: w.resolve(round, i, calls[i]).Skip?
  }

  /**
   * Told from the replies and resolutions alone: from this round on every
   * requested call is skipped and no reply ends the loop with a text, though
   * something was shown. Skipped calls are not fed back, so every LLM call sees
   * the conversation the run started with.
   */
  predicate LostFrom(w: World, p: Params, round: nat, shown: bool)
    requires round < MaxRounds(p)
    decreases MaxRounds(p) - round
  {
    match w.chat(round, p.messages)
    case ChatError(_) => shown
    case ChatOk(reply) =>
      if reply.calls == [] then shown && reply.text == ""
      else
        && AllSkipped(w, round, reply.calls)
        && if round + 1 == MaxRounds(p) then shown || reply.text != ""
           else LostFrom(w, p, round + 1, shown || reply.text != "")
  }

  lemma {:induction false} NoneResolve(w: World, round: nat, calls: seq<ToolCall>, i: nat, id: Id)
    requires i <= |calls|
    ensures ResolveCalls(w, round, calls, i, id) == [] <==> forall k | i <= k < |calls| :: w.resolve(round, k, calls[k]).Skip?
    decreases |calls| - i
  {
    if i == |calls| {
    } else if w.resolve(round, i, calls[i]).Skip? {
      NoneResolve(w, round, calls, i + 1, id);
    }
  }

  lemma {:induction false} AbsorbStores(w: World, st: State, rs: seq<Resolved>, out: seq<string>, i: nat)
    requires |out| == |rs| && i <= |rs|
    ensures |Absorb(w, st, rs, out, i).calls| == |st.calls| + |rs| - i
    ensures i == |rs| ==> Absorb(w, st, rs, out, i) == st
    decreases |rs| - i
  {
    if i == |rs| {
    } else {
      AbsorbStores(w, AbsorbOne(w, st, rs[i], out[i]), rs, out, i + 1);
    }
  }

  // A round of tool calls stores the resolving ones; without any it changes only what was shown.
  lemma {:induction false} ToolRoundStores(w: World, p: Params, st: State, round: nat, reply: Reply)
    requires ValidWorld(w) && reply.calls != []
    ensures var s := AfterTools(w, p, Spoken(st, reply), round, reply.calls);
      && |s.calls| >= |st.calls|
      && (if AllSkipped(w, round, reply.calls) then
            && s.calls == st.calls && s.messages == st.messages && s.finalText == st.finalText
            && (s.parts != [] <==> st.parts != [] || reply.text != "")
          else |s.calls| > |st.calls|)
  {
    var s0 := Spoken(st, reply);
    var rs := ResolveCalls(w, round, reply.calls, 0, s0.nextId);
    NoneResolve(w, round, reply.calls, 0, s0.nextId);
    RunToolsStoresNothing(w, p, s0.(nextId := s0.nextId + |rs|), round, rs);
    AbsorbStores(w, RunTools(w, p, s0.(nextId := s0.nextId + |rs|), round, rs), rs, Execute(w, round, rs), 0);
  }

  lemma {:induction false} StoredStays(w: World, p: Params, st: State, round: nat)
    requires ValidWorld(w) && round < MaxRounds(p)
    ensures |Rounds(w, p, st, round).state.calls| >= |st.calls|
    decreases MaxRounds(p) - round
  {
    hide AfterTools;
    match w.chat(round, st.messages)
    case ChatError(_) => FailedRound(w, p, st, round);
    case ChatOk(reply) =>
      if reply.calls == [] {
      } else {
        ToolRoundStores(w, p, st, round, reply);
        if round + 1 < MaxRounds(p) {
          StoredStays(w, p, AfterRound(w, p, st, round), round + 1);
        }
      }
  }

  lemma {:induction false} LostRounds(w: World, p: Params, st: State, round: nat)
    requires ValidWorld(w) && round < MaxRounds(p)
    requires st.calls == [] && st.finalText == "" && st.messages == p.messages
    ensures var f := Rounds(w, p, st, round).state;
      !Saves(f) && f.parts != [] <==> LostFrom(w, p, round, st.parts != [])
    decreases MaxRounds(p) - round
  {
    hide AfterTools;
    var s := AfterRound(w, p, st, round);
    match w.chat(round, st.messages)
    case ChatError(_) => FailedRound(w, p, st, round);
    case ChatOk(reply) =>
      if reply.calls == [] {
      } else {
        ToolRoundStores(w, p, st, round, reply);
        if round + 1 < MaxRounds(p) {
          if AllSkipped(w, round, reply.calls) {
            LostRounds(w, p, s, round + 1);
          } else {
            StoredStays(w, p, s, round + 1);
          }
        }
      }
  }

  lemma {:induction false} LostRun(w: World, p: Params)
    requires ValidWorld(w)
    ensures var f := Run(w, p).state;
      !Saves(f) && f.parts != [] <==> LostFrom(w, p, 0, false)
  {
    hide Rounds, LostFrom;
    LostRounds(w, p, Initial(p), 0);
  }

  // Something was streamed after the start exactly when a part was kept for it.
  lemma {:induction false} ShownIsStored(p: Params, st: State)
    requires Replays(p, st)
    ensures Items(st.events) != Items(p.onStart) <==> st.parts != []
  {
    hide Items;
    var shown := Rendered(st.parts, st.calls);
    if st.parts == [] {
      assert Items(p.onStart) + shown == Items(p.onStart);
    } else {
      var last := st.parts[|st.parts| - 1];
      assert |shown| > 0;
      assert |Items(p.onStart) + shown| > |Items(p.onStart)|;
    }
  }

  lemma {:induction false} UnsavedIsText(p: Params, st: State)
    requires Replays(p, st)
    ensures !Saves(st) ==> forall i | 0 <= i < |st.parts| :: st.parts[i].TextPart?
  {
    hide Items, Rendered;
  }

  /**
   * The deferred save drops content the run streamed exactly when every
   * requested call was skipped, round after round, and no final text came,
   * although some reply had shown a text beside its calls.
   */
  lemma {:induction false} WhenStreamedContentIsLost(w: World, p: Params)
    requires ValidWorld(w)
    ensures var st := Run(w, p).state;
      Items(st.events) != Items(p.onStart) && !Saves(st) <==> LostFrom(w, p, 0, false)
    ensures var st := Run(w, p).state;
      !Saves(st) ==> forall i | 0 <= i < |st.parts| :: st.parts[i].TextPart?
  {
    hide Run, LostFrom, Replays, Items, Saves;
    SavedMessageReplaysStream(w, p);
    LostRun(w, p);
    ShownIsStored(p, Run(w, p).state);
    UnsavedIsText(p, Run(w, p).state);
  }

  // A run that shows "x" beside an unknown tool, then falls silent, leaves nothing in the session.
  lemma {:induction false} StreamedTextCanBeLost() returns (w: World, p: Params)
    ensures ValidWorld(w)
    ensures Said("x") in Items(Run(w, p).state.events) && !Saves(Run(w, p).state)
  {
    w := World(
      (round: nat, ms: seq<LlmMessage>) => ChatOk(if round == 0 then Reply("x", [ToolCall("1", "t", "")], 0, 0) else Reply("", [], 0, 0)),
      (round: nat, i: nat, tc: ToolCall) => Skip,
      (round: nat, i: nat, tc: ToolCall) => "",
      (round: nat, n: nat) => Indices(0, n),
      (round: nat, i: nat) => 0,
      (text: string) => false);
    p := Params("s", [], false, 0, [], 0);
    forall n: nat ensures IsPermutation(Indices(0, n), n) {
      forall x | 0 <= x < n ensures x in Indices(0, n) {
        assert Indices(0, n)[x] == x;
      }
    }
    var st0 := Initial(p);
    var reply := w.chat(0, []).reply;
    var s1 := Spoken(st0, reply);
    assert ResolveCalls(w, 0, reply.calls, 1, s1.nextId) == [];
    assert ResolveCalls(w, 0, reply.calls, 0, s1.nextId) == [];
    var s := AfterRound(w, p, st0, 0);
    assert s.parts == [TextPart("x")] && s.calls == [] && s.finalText == "";
    var last := AfterRound(w, p, s, 1);
    assert Rounds(w, p, s, 1) == Finish(p, last, 2);
    assert Run(w, p) == Rounds(w, p, st0, 0) == Rounds(w, p, s, 1);
    var st := Run(w, p).state;
    assert st.parts == [TextPart("x")] && st.parts[..0] == [];
    assert Rendered(st.parts, st.calls) == [Said("x")];
    SavedMessageReplaysStream(w, p);
  }
}
