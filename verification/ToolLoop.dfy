/**
 * The LLM and tool-calling loop: rounds of one LLM call followed by the tool
 * calls it asked for, streamed as AG-UI events, fed back into the conversation
 * and persisted as one assistant message.
 */
module ToolLoop {
  import opened Prelude

  const DEFAULT_MAX_TOOL_CALL_ROUNDS: nat := 10

  // A fresh UUID is the next value of a counter, so ids never repeat.
  type Id = nat

  datatype ToolCall = ToolCall(id: string, name: string, args: string)

  datatype Reply = Reply(text: string, calls: seq<ToolCall>, inputTokens: int, outputTokens: int)

  datatype ChatOutcome = ChatError(message: string) | ChatOk(reply: Reply)

  datatype Resolution = Skip | Use(displayName: string, serverId: string)

  datatype Resolved = Resolved(tc: ToolCall, displayName: string, serverId: string, id: Id)

  datatype LlmMessage =
    | History(role: string, content: string)
    | ToolUse(useId: string, name: string, input: string)
    | ToolResult(useId: string, name: string, output: string)

  datatype Event =
    | RunStarted(sessionId: string, runId: Id)
    | RunFinished(sessionId: string, runId: Id)
    | RunError(message: string)
    | TextStart(id: Id)
    | TextContent(id: Id, text: string)
    | TextEnd(id: Id)
    | ToolStart(id: Id, name: string, serverId: string)
    | ToolArgs(id: Id, delta: string)
    | ToolEnd(id: Id, result: string)

  datatype Part = TextPart(text: string) | ToolPart(index: nat)

  datatype Response = Parsed(json: string) | Text(text: string)

  datatype StoredCall = StoredCall(id: Id, name: string, args: string)

  datatype StoredResult = StoredResult(id: Id, name: string, response: Response)

  datatype Metric = Metric(name: string, durationMs: nat)

  datatype Tokens = Tokens(input: int, output: int, total: int)

  datatype SavedMessage = SavedMessage(content: string, calls: seq<StoredCall>, results: seq<StoredResult>, parts: seq<Part>)

  /** Everything the loop does not control. A call's position is its index among the round's calls. */
  datatype World = World(
    chat: (nat, seq<LlmMessage>) -> ChatOutcome,     // round, conversation
    resolve: (nat, nat, ToolCall) -> Resolution,     // round, position among the requested calls
    execute: (nat, nat, ToolCall) -> string,         // round, position among the resolved calls
    completion: (nat, nat) -> seq<nat>,              // round, number of calls: the order goroutines finish in
    duration: (nat, nat) -> nat,                     // round, position
    isJson: string -> bool                           // whether a result text unmarshals into an object

  )

  datatype Params = Params(
    sessionId: string,
    messages: seq<LlmMessage>,
    parallel: bool,
    maxToolCallRounds: int,
    onStart: seq<Event>,        // what the OnStart callback writes
    firstId: Id                 // the UUID source when the loop starts

  )

  datatype State = State(
    nextId: Id,
    messages: seq<LlmMessage>,
    finalText: string,
    calls: seq<StoredCall>,
    results: seq<StoredResult>,
    parts: seq<Part>,
    metrics: seq<Metric>,
    tokens: Tokens,
    asked: seq<seq<LlmMessage>>,   // the conversation of every LLM call made so far
    events: seq<Event>

  )

  datatype Outcome = Outcome(state: State, rounds: nat, error: Option<string>)

  datatype RunResult = RunResult(assistantText: string, toolCalls: seq<Metric>, tokens: Tokens, rounds: nat, error: Option<string>)

  ghost predicate ValidWorld(w: World) {
    forall round: nat, n: nat :: IsPermutation(w.completion(round, n), n)
  }

  // ---------------------------------------------------------------- specification

  function MaxRounds(p: Params): (m: nat)
    ensures m >= 1
  {
    if p.maxToolCallRounds <= 0 then DEFAULT_MAX_TOOL_CALL_ROUNDS else p.maxToolCallRounds
  }

  function ResolveCalls(w: World, round: nat, calls: seq<ToolCall>, i: nat, id: Id): (rs: seq<Resolved>)
    requires i <= |calls|
    ensures |rs| <= |calls| - i
    ensures forall k | 0 <= k < |rs| :: rs[k].id == id + k
    decreases |calls| - i
  {
    if i == |calls| then []
    else match w.resolve(round, i, calls[i])
      case Skip => ResolveCalls(w, round, calls, i + 1, id)
      case Use(name, server) =>
        [Resolved(calls[i], name, server, id)] + ResolveCalls(w, round, calls, i + 1, id + 1)
  }

  function Execute(w: World, round: nat, rs: seq<Resolved>): (out: seq<string>)
    ensures |out| == |rs|
  {
    seq(|rs|, i requires 0 <= i < |rs| => w.execute(round, i, rs[i].tc))
  }

  function Start(r: Resolved): seq<Event> {
    [ToolStart(r.id, r.displayName, r.serverId), ToolArgs(r.id, r.tc.args)]
  }

  function Starts(rs: seq<Resolved>, i: nat): seq<Event>
    requires i <= |rs|
    decreases |rs| - i
  {
    if i == |rs| then [] else Start(rs[i]) + Starts(rs, i + 1)
  }

  // TOOL_CALL_END events in completion order.
  function Ends(rs: seq<Resolved>, out: seq<string>, order: seq<nat>): (es: seq<Event>)
    requires |out| == |rs| && forall i | 0 <= i < |order| :: order[i] < |rs|
    ensures |es| == |order|
  {
    seq(|order|, k requires 0 <= k < |order| => ToolEnd(rs[order[k]].id, out[order[k]]))
  }

  function OneByOne(rs: seq<Resolved>, out: seq<string>, i: nat): seq<Event>
    requires |out| == |rs| && i <= |rs|
    decreases |rs| - i
  {
    if i == |rs| then [] else Start(rs[i]) + [ToolEnd(rs[i].id, out[i])] + OneByOne(rs, out, i + 1)
  }

  function Metrics(w: World, round: nat, rs: seq<Resolved>, order: seq<nat>): (ms: seq<Metric>)
    requires forall i | 0 <= i < |order| :: order[i] < |rs|
    ensures |ms| == |order|
  {
    seq(|order|, k requires 0 <= k < |order| => Metric(rs[order[k]].displayName, w.duration(round, order[k])))
  }

  function ParseResult(w: World, text: string): Response {
    if w.isJson(text) then Parsed(text) else Text(text)
  }

  // One resolved call enters the stored message and the conversation.
  function AbsorbOne(w: World, st: State, r: Resolved, text: string): State {
    st.(parts := st.parts + [ToolPart(|st.calls|)],
        calls := st.calls + [StoredCall(r.id, r.displayName, r.tc.args)],
        results := st.results + [StoredResult(r.id, r.displayName, ParseResult(w, text))],
        messages := st.messages + [ToolUse(r.tc.id, r.tc.name, r.tc.args), ToolResult(r.tc.id, r.tc.name, text)])
  }

  function Absorb(w: World, st: State, rs: seq<Resolved>, out: seq<string>, i: nat): State
    requires |out| == |rs| && i <= |rs|
    decreases |rs| - i
  {
    if i == |rs| then st else Absorb(w, AbsorbOne(w, st, rs[i], out[i]), rs, out, i + 1)
  }

  function Say(st: State, text: string): State {
    st.(parts := st.parts + [TextPart(text)],
        nextId := st.nextId + 1,
        events := st.events + [TextStart(st.nextId), TextContent(st.nextId, text), TextEnd(st.nextId)])
  }

  // The LLM was asked and replied: record the conversation it saw and its tokens.
  function Heard(st: State, reply: Reply): State {
    var s := st.(asked := st.asked + [st.messages]);
    if reply.inputTokens > 0 || reply.outputTokens > 0 then
      s.(tokens := Tokens(s.tokens.input + reply.inputTokens, s.tokens.output + reply.outputTokens,
                          s.tokens.total + (reply.inputTokens + reply.outputTokens)))
    else s
  }

  function CompletionOrder(w: World, p: Params, round: nat, n: nat): seq<nat> {
    if p.parallel then w.completion(round, n) else Indices(0, n)
  }

  ghost function RunTools(w: World, p: Params, st: State, round: nat, rs: seq<Resolved>): State
    requires ValidWorld(w)
  {
    var out := Execute(w, round, rs);
    var order := CompletionOrder(w, p, round, |rs|);
    st.(events := st.events + (if p.parallel then Starts(rs, 0) + Ends(rs, out, order) else OneByOne(rs, out, 0)),
        metrics := st.metrics + Metrics(w, round, rs, order))
  }

  // The reply's text, if any, is streamed before its tool calls run.
  function Spoken(st: State, reply: Reply): State {
    if reply.text != "" then Say(Heard(st, reply), reply.text) else Heard(st, reply)
  }

  // Resolve, run and absorb the tool calls one reply asks for.
  ghost function AfterTools(w: World, p: Params, st: State, round: nat, calls: seq<ToolCall>): State
    requires ValidWorld(w)
  {
    var rs := ResolveCalls(w, round, calls, 0, st.nextId);
    Absorb(w, RunTools(w, p, st.(nextId := st.nextId + |rs|), round, rs), rs, Execute(w, round, rs), 0)
  }

  // The round whose reply asks for no tool call.
  function LastRound(st: State, reply: Reply): State {
    var s := Heard(st, reply);
    if reply.text != "" then Say(s.(finalText := reply.text), reply.text) else s
  }

  ghost function AfterRound(w: World, p: Params, st: State, round: nat): State
    requires ValidWorld(w)
  {
    match w.chat(round, st.messages)
    case ChatError(m) => st.(asked := st.asked + [st.messages], events := st.events + [RunError(m)])
    case ChatOk(reply) => if reply.calls == [] then LastRound(st, reply) else AfterTools(w, p, Spoken(st, reply), round, reply.calls)
  }

  function Finish(p: Params, st: State, rounds: nat): Outcome {
    Outcome(st.(events := st.events + [RunFinished(p.sessionId, p.firstId)]), rounds, None)
  }

  // All rounds from `round` on, up to and including the terminal event.
  ghost function Rounds(w: World, p: Params, st: State, round: nat): (o: Outcome)
    requires ValidWorld(w) && round < MaxRounds(p)
    decreases MaxRounds(p) - round
  {
    var s := AfterRound(w, p, st, round);
    match w.chat(round, st.messages)
    case ChatError(m) => Outcome(s, round + 1, Some(m))
    case ChatOk(reply) =>
      if reply.calls == [] || round + 1 == MaxRounds(p) then Finish(p, s, round + 1) else Rounds(w, p, s, round + 1)
  }

  lemma {:induction false} FailedRound(w: World, p: Params, st: State, round: nat)
    requires ValidWorld(w) && round < MaxRounds(p) && w.chat(round, st.messages).ChatError?
    ensures var m := w.chat(round, st.messages).message;
      Rounds(w, p, st, round) ==
        Outcome(st.(asked := st.asked + [st.messages], events := st.events + [RunError(m)]), round + 1, Some(m))
  {
  }

  function Initial(p: Params): State {
    State(p.firstId + 1, p.messages, "", [], [], [], [], Tokens(0, 0, 0), [],
          [RunStarted(p.sessionId, p.firstId)] + p.onStart)
  }

  ghost function Run(w: World, p: Params): Outcome
    requires ValidWorld(w)
  {
    Rounds(w, p, Initial(p), 0)
  }

  predicate Saves(st: State) {
    !(st.finalText == "" && |st.calls| == 0)
  }

  function Saved(st: State): SavedMessage {
    SavedMessage(st.finalText, st.calls, st.results, st.parts)
  }

  // ---------------------------------------------------------------- the loop itself

  class ResponseWriter {
    const canFlush: bool
    var events: seq<Event>

    constructor (canFlush: bool)
      ensures this.canFlush == canFlush && events == []
    {
      this.canFlush := canFlush;
      events := [];
    }

    method Write(e: Event)
      modifies this
      ensures events == old(events) + [e]
    {
      events := events + [e];
    }
  }

  class SessionStore {
    var messages: seq<(string, SavedMessage)>

    constructor ()
      ensures messages == []
    {
      messages := [];
    }

    // A failing store is logged and otherwise ignored by the loop.
    method AddMessage(sessionId: string, m: SavedMessage, accepted: bool)
      modifies this
      ensures messages == old(messages) + if accepted then [(sessionId, m)] else []
    {
      if accepted {
        messages := messages + [(sessionId, m)];
      }
    }
  }

  method EmitTextMessage(rw: ResponseWriter, id: Id, text: string)
    modifies rw
    ensures rw.events == old(rw.events) + [TextStart(id), TextContent(id, text), TextEnd(id)]
  {
    rw.Write(TextStart(id));
    rw.Write(TextContent(id, text));
    rw.Write(TextEnd(id));
  }

  method EmitToolCallStart(rw: ResponseWriter, r: Resolved)
    modifies rw
    ensures rw.events == old(rw.events) + Start(r)
  {
    rw.Write(ToolStart(r.id, r.displayName, r.serverId));
    rw.Write(ToolArgs(r.id, r.tc.args));
  }

  method Resolve(w: World, round: nat, calls: seq<ToolCall>, firstId: Id) returns (rs: seq<Resolved>, nextId: Id)
    ensures rs == ResolveCalls(w, round, calls, 0, firstId)
    ensures nextId == firstId + |rs|
  {
    rs, nextId := [], firstId;
    for i := 0 to |calls|
      invariant rs + ResolveCalls(w, round, calls, i, nextId) == ResolveCalls(w, round, calls, 0, firstId)
      invariant nextId == firstId + |rs|
    {
      match w.resolve(round, i, calls[i])
      case Skip =>
      case Use(name, server) =>
        var rest := ResolveCalls(w, round, calls, i + 1, nextId + 1);
        var r := Resolved(calls[i], name, server, nextId);
        assert rs + ([r] + rest) == (rs + [r]) + rest;
        rs, nextId := rs + [r], nextId + 1;
    }
  }

  method ExecuteSequential(w: World, rw: ResponseWriter, round: nat, rs: seq<Resolved>) returns (results: array<string>, metrics: seq<Metric>)
    modifies rw
    ensures fresh(results) && results[..] == Execute(w, round, rs)
    ensures rw.events == old(rw.events) + OneByOne(rs, Execute(w, round, rs), 0)
    ensures metrics == Metrics(w, round, rs, Indices(0, |rs|))
  {
    results := new string[|rs|];
    metrics := [];
    ghost var out := Execute(w, round, rs);
    ghost var order := Indices(0, |rs|);
    for i := 0 to |rs|
      modifies rw, results
      invariant forall k | 0 <= k < i :: results[k] == out[k]
      invariant rw.events + OneByOne(rs, out, i) == old(rw.events) + OneByOne(rs, out, 0)
      invariant metrics == Metrics(w, round, rs, order)[..i]
    {
      var r := rs[i];
      var text := w.execute(round, i, r.tc);
      var m := Metric(r.displayName, w.duration(round, i));
      assert rw.events + OneByOne(rs, out, i) == ((rw.events + Start(r)) + [ToolEnd(r.id, text)]) + OneByOne(rs, out, i + 1);
      EmitToolCallStart(rw, r);
      results[i] := text;
      metrics := metrics + [m];
      rw.Write(ToolEnd(r.id, text));
    }
    assert results[..] == out;
  }

  // The receiving end of the buffered channel: one finished call at a time.
  method CollectCompletions(w: World, rw: ResponseWriter, round: nat, rs: seq<Resolved>, order: seq<nat>, results: array<string>)
    returns (metrics: seq<Metric>)
    requires results.Length == |rs| && IsPermutation(order, |rs|)
    modifies rw, results
    ensures results[..] == Execute(w, round, rs)
    ensures rw.events == old(rw.events) + Ends(rs, Execute(w, round, rs), order)
    ensures metrics == Metrics(w, round, rs, order)
  {
    metrics := [];
    ghost var out := Execute(w, round, rs);
    ghost var ends := Ends(rs, out, order);
    for k := 0 to |rs|
      invariant forall j | 0 <= j < k :: results[order[j]] == out[order[j]]
      invariant rw.events == old(rw.events) + ends[..k]
      invariant metrics == Metrics(w, round, rs, order)[..k]
    {
      var i := order[k];
      results[i] := w.execute(round, i, rs[i].tc);
      metrics := metrics + [Metric(rs[i].displayName, w.duration(round, i))];
      rw.Write(ToolEnd(rs[i].id, results[i]));
      assert ends[..k + 1] == ends[..k] + [ends[k]];
    }
    forall i | 0 <= i < |rs| ensures results[i] == out[i] {
      assert i in order;
      var j :| 0 <= j < |order| && order[j] == i;
      assert results[order[j]] == out[order[j]];
    }
    assert results[..] == out;
  }

  method ExecuteParallel(w: World, rw: ResponseWriter, round: nat, rs: seq<Resolved>) returns (results: array<string>, metrics: seq<Metric>)
    requires IsPermutation(w.completion(round, |rs|), |rs|)
    modifies rw
    ensures fresh(results) && results[..] == Execute(w, round, rs)
    ensures rw.events == old(rw.events) + (Starts(rs, 0) + Ends(rs, Execute(w, round, rs), w.completion(round, |rs|)))
    ensures metrics == Metrics(w, round, rs, w.completion(round, |rs|))
  {
    results := new string[|rs|];
    for i := 0 to |rs|
      modifies rw
      invariant rw.events + Starts(rs, i) == old(rw.events) + Starts(rs, 0)
    {
      assert rw.events + Starts(rs, i) == (rw.events + Start(rs[i])) + Starts(rs, i + 1);
      EmitToolCallStart(rw, rs[i]);
    }
    assert rw.events == old(rw.events) + Starts(rs, 0);
    metrics := CollectCompletions(w, rw, round, rs, w.completion(round, |rs|), results);
    ghost var ends := Ends(rs, Execute(w, round, rs), w.completion(round, |rs|));
    assert old(rw.events) + (Starts(rs, 0) + ends) == (old(rw.events) + Starts(rs, 0)) + ends;
  }

  // Streams one text message and records it; `base` is what the writer held before this run.
  method Speak(rw: ResponseWriter, before: State, text: string, ghost base: seq<Event>) returns (st: State)
    requires rw.events == base + before.events
    modifies rw
    ensures st == Say(before, text)
    ensures rw.events == base + st.events
  {
    st := before.(parts := before.parts + [TextPart(text)], nextId := before.nextId + 1,
                  events := before.events + [TextStart(before.nextId), TextContent(before.nextId, text), TextEnd(before.nextId)]);
    EmitTextMessage(rw, before.nextId, text);
  }

  // Persists the resolved calls of one round and feeds them back into the conversation.
  method StoreToolCalls(w: World, before: State, rs: seq<Resolved>, out: seq<string>) returns (st: State)
    requires |out| == |rs|
    ensures st == Absorb(w, before, rs, out, 0)
  {
    var parts, calls, results, messages := before.parts, before.calls, before.results, before.messages;
    for i := 0 to |rs|
      invariant Absorb(w, before.(parts := parts, calls := calls, results := results, messages := messages), rs, out, i)
             == Absorb(w, before, rs, out, 0)
    {
      var r := rs[i];
      parts := parts + [ToolPart(|calls|)];
      calls := calls + [StoredCall(r.id, r.displayName, r.tc.args)];
      results := results + [StoredResult(r.id, r.displayName, if w.isJson(out[i]) then Parsed(out[i]) else Text(out[i]))];
      messages := messages + [ToolUse(r.tc.id, r.tc.name, r.tc.args), ToolResult(r.tc.id, r.tc.name, out[i])];
    }
    st := before.(parts := parts, calls := calls, results := results, messages := messages);
  }

  lemma {:induction false} AbsorbKeepsEvents(w: World, st: State, rs: seq<Resolved>, out: seq<string>, i: nat)
    requires |out| == |rs| && i <= |rs|
    ensures var s := Absorb(w, st, rs, out, i);
      s.events == st.events && s.nextId == st.nextId && s.metrics == st.metrics &&
      s.finalText == st.finalText && s.tokens == st.tokens && s.asked == st.asked
    decreases |rs| - i
  {
    if i == |rs| {
    } else {
      AbsorbKeepsEvents(w, AbsorbOne(w, st, rs[i], out[i]), rs, out, i + 1);
    }
  }

  method PlayToolCalls(w: World, p: Params, rw: ResponseWriter, before: State, round: nat, requested: seq<ToolCall>, ghost base: seq<Event>)
    returns (st: State)
    requires ValidWorld(w)
    requires rw.events == base + before.events
    modifies rw
    ensures st == AfterTools(w, p, before, round, requested)
    ensures rw.events == base + st.events
  {
    var rs, nextId := Resolve(w, round, requested, before.nextId);
    var out: array<string>;
    var metrics: seq<Metric>;
    if p.parallel {
      out, metrics := ExecuteParallel(w, rw, round, rs);
      st := before.(nextId := nextId, metrics := before.metrics + metrics,
                    events := before.events + (Starts(rs, 0) + Ends(rs, out[..], w.completion(round, |rs|))));
    } else {
      out, metrics := ExecuteSequential(w, rw, round, rs);
      st := before.(nextId := nextId, metrics := before.metrics + metrics,
                    events := before.events + OneByOne(rs, out[..], 0));
    }
    assert st == RunTools(w, p, before.(nextId := before.nextId + |rs|), round, rs);
    AbsorbKeepsEvents(w, st, rs, out[..], 0);
    st := StoreToolCalls(w, st, rs, out[..]);
  }

  // One round: a failed call and a reply without tool calls both end the loop.
  method PlayRound(w: World, p: Params, rw: ResponseWriter, before: State, round: nat, ghost base: seq<Event>)
    returns (st: State, error: Option<string>, done: bool)
    requires ValidWorld(w)
    requires rw.events == base + before.events
    modifies rw
    ensures rw.events == base + st.events
    ensures st == AfterRound(w, p, before, round)
    ensures var o := w.chat(round, before.messages);
      && error == (if o.ChatError? then Some(o.message) else None)
      && (done <==> o.ChatError? || o.reply.calls == [])
  {
    st := before.(asked := before.asked + [before.messages]);
    error, done := None, false;
    match w.chat(round, before.messages) {
      case ChatError(m) =>
        rw.Write(RunError(m));
        st := st.(events := st.events + [RunError(m)]);
        error, done := Some(m), true;
      case ChatOk(reply) =>
        if reply.inputTokens > 0 || reply.outputTokens > 0 {
          st := st.(tokens := Tokens(st.tokens.input + reply.inputTokens, st.tokens.output + reply.outputTokens,
                                     st.tokens.total + (reply.inputTokens + reply.outputTokens)));
        }
        assert st == Heard(before, reply);
        if |reply.calls| == 0 {
          if reply.text != "" {
            st := Speak(rw, st.(finalText := reply.text), reply.text, base);
          }
          done := true;
        } else {
          if reply.text != "" {
            st := Speak(rw, st, reply.text, base);
          }
          assert st == Spoken(before, reply);
          st := PlayToolCalls(w, p, rw, st, round, reply.calls, base);
        }
    }
  }

  // The round loop, up to and including the terminal event.
  method PlayRounds(w: World, p: Params, rw: ResponseWriter, before: State, ghost base: seq<Event>)
    returns (st: State, rounds: nat, error: Option<string>)
    requires ValidWorld(w)
    requires rw.events == base + before.events
    modifies rw
    ensures Outcome(st, rounds, error) == Rounds(w, p, before, 0)
    ensures rw.events == base + st.events
  {
    st, error := before, None;
    var lastRound, round := 0, 0;
    var maxRounds := MaxRounds(p);
    var done := false;
    while round < maxRounds && !done
      invariant 0 <= round <= maxRounds
      invariant round > 0 ==> lastRound == round - 1
      invariant rw.events == base + st.events
      invariant error.Some? ==> done
      invariant !done && round < maxRounds ==> Rounds(w, p, st, round) == Rounds(w, p, before, 0)
      invariant done || round == maxRounds ==> round > 0
      invariant done || round == maxRounds ==>
        Rounds(w, p, before, 0) == if error.Some? then Outcome(st, round, error) else Finish(p, st, round)
      decreases maxRounds - round
    {
      lastRound := round;
      st, error, done := PlayRound(w, p, rw, st, round, base);
      round := round + 1;
    }
    if error.None? {
      rw.Write(RunFinished(p.sessionId, p.firstId));
      st := st.(events := st.events + [RunFinished(p.sessionId, p.firstId)]);
    }
    rounds := lastRound + 1;
  }

  /** RunLoop. `saveAccepted` is whether the deferred AddMessage takes effect. */
  method RunLoop(w: World, p: Params, rw: ResponseWriter, store: SessionStore?, saveAccepted: bool) returns (res: Option<RunResult>)
    requires ValidWorld(w)
    modifies rw, store
    ensures res.None? <==> !rw.canFlush
    ensures res.None? ==> rw.events == old(rw.events) && (store != null ==> store.messages == old(store.messages))
    ensures res.Some? ==>
      var o := Run(w, p);
      && rw.events == old(rw.events) + o.state.events
      && res.value == RunResult(o.state.finalText, o.state.metrics, o.state.tokens, o.rounds, o.error)
      && (store != null ==>
            store.messages == old(store.messages) +
              (if Saves(o.state) && saveAccepted then [(p.sessionId, Saved(o.state))] else []))
  {
    if !rw.canFlush {
      return None;
    }
    ghost var base := rw.events;
    rw.Write(RunStarted(p.sessionId, p.firstId));
    for k := 0 to |p.onStart|
      modifies rw
      invariant rw.events == base + ([RunStarted(p.sessionId, p.firstId)] + p.onStart[..k])
    {
      rw.Write(p.onStart[k]);
    }
    assert p.onStart[..|p.onStart|] == p.onStart;
    var st := State(p.firstId + 1, p.messages, "", [], [], [], [], Tokens(0, 0, 0), [],
                    [RunStarted(p.sessionId, p.firstId)] + p.onStart);

    var rounds: nat;
    var error: Option<string>;
    st, rounds, error := PlayRounds(w, p, rw, st, base);
    res := Some(RunResult(st.finalText, st.metrics, st.tokens, rounds, error));
    // The deferred save runs on every way out of the loop.
    if store != null && !(st.finalText == "" && |st.calls| == 0) {
      store.AddMessage(p.sessionId, SavedMessage(st.finalText, st.calls, st.results, st.parts), saveAccepted);
    }
  }
}
