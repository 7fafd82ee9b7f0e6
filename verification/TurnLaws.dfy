/** What one turn saves, maps, shows and reports, told from the agent's result and the store's answers alone. */
module TurnLaws {
  import opened Prelude
  import opened TurnErrors
  import opened Turn

  // ---------------------------------------------------------------- what is saved and mapped

  // Which replies are worth saving: any text, content part, tool call or error.
  predicate Substantial(t: TurnInput) {
    t.result.Some? && var r := t.result.value; r.text != "" || r.contentParts != 0 || r.toolCalls != 0 || r.error != ""
  }

  // Neither the call nor the result reports an error, and the reply was saved.
  predicate CleanAndSaved(t: TurnInput) {
    t.result.Some? && t.err.None? && t.result.value.error == "" && t.replyFault == Works
  }

  // The agent reported a session other than the one known.
  predicate NewSession(t: TurnInput, known: string) {
    t.result.Some? && t.result.value.agentSessionId !in {"", known}
  }

  // One of the store calls of a turn with content was not acknowledged.
  predicate StoreFailed(t: TurnInput, mapped: bool) {
    || (t.result.Some? && t.result.value.rotated && t.rotationFault != Works)
    || t.replyFault != Works
    || (mapped && t.mappingFault != Works)
  }

  /**
   * A web turn is persisted by one save of its reply, if and only if that has
   * any content, preceded by a notice exactly when the agent's session was
   * renewed. A mapping follows exactly after an error-free, saved reply that
   * reports a new session or is the first contact, and a reported session goes
   * before our own. An error tells that one of these calls was not acknowledged.
   */
  lemma {:induction false} PersistMeans(sessionId: string, t: TurnInput, known: string)
    ensures var p := WebPersist(sessionId, t, known);
      && (p.acts != [] <==> Substantial(t))
      && (p.msg.Some? <==> Substantial(t) && t.replyFault == Works)
      && (p.target.Some? <==> Substantial(t) && CleanAndSaved(t) && (NewSession(t, known) || known == ""))
      && (p.target.Some? ==> p.target.value == if NewSession(t, known) then t.result.value.agentSessionId else sessionId)
      && (p.err.Some? <==> Substantial(t) && StoreFailed(t, p.target.Some?))
    ensures Substantial(t) ==>
      var r, p := t.result.value, WebPersist(sessionId, t, known);
      var k, m := if r.rotated then 1 else 0, ReplyMsg(t.agentId, r, t.err.Some? || r.error != "");
      && |p.acts| == k + 1 + (if p.target.Some? then 1 else 0)
      && p.acts[k] == Saved(m, t.replyFault) && (p.msg.Some? ==> p.msg.value == m)
      && (r.rotated ==> p.acts[0] == Saved(RotationNotice(t.agentId), t.rotationFault))
      && (p.target.Some? ==> p.acts[k + 1] == Mapped(t.agentId, p.target.value, t.mappingFault))
  {}

  // The turn gets as far as its agent.
  predicate Called(t: TurnInput) {
    t.timeLeft && t.mappingLoad.None?
  }

  /**
   * A collected turn saves every reply it gets, empty or not, remembers it once
   * saved, and maps under the same condition; it sends nothing.
   */
  lemma {:induction false} CollectMeans(sessionId: string, t: TurnInput, known: string)
    requires sessionId != ""
    ensures var o := McpTurn(sessionId, t, known);
      && (o.acts != [] <==> Called(t) && t.result.Some?)
      && (o.target.Some? <==> Called(t) && CleanAndSaved(t) && (NewSession(t, known) || known == ""))
      && (o.target.Some? ==> o.target.value == if NewSession(t, known) then t.result.value.agentSessionId else sessionId)
    ensures Called(t) && t.result.Some? ==>
      var r, o := t.result.value, McpTurn(sessionId, t, known);
      var m := ReplyMsg(t.agentId, r, t.err.Some? || r.error != "");
      var k := if t.replyFault == Works then 1 else 0;
      && |o.acts| == 1 + k + (if o.target.Some? then 1 else 0)
      && o.acts[0] == Saved(m, t.replyFault)
      && (k == 1 ==> o.acts[1] == Remembered(m))
      && (o.target.Some? ==> o.acts[1 + k] == Mapped(t.agentId, o.target.value, t.mappingFault))
  {
    hide TranscriptText;
  }

  // ---------------------------------------------------------------- what is shown

  // The events of one writer call: its lifecycle goes out only from an owner, an error inside a debate is scoped.
  lemma {:induction false} WriterModes(agentId: string, c: WriterCall, suppress: bool)
    ensures c.SendRunStarted? ==> Written(false, false, agentId, c) == [RunStarted]
    ensures c.SendRunFinished? ==> Written(false, false, agentId, c) == [RunFinished]
    ensures c.SendRunError? ==> Written(false, false, agentId, c) == [RunError(c.message)]
    ensures c.SendRunStarted? || c.SendRunFinished? ==> Written(true, false, agentId, c) == []
    ensures c.SendRunError? ==> Written(true, false, agentId, c) == [Custom("turn.error", agentId)]
    ensures !c.SendOther? ==> Written(suppress, true, agentId, c) == []
    ensures c.SendOther? ==> forall deferred :: Written(suppress, deferred, agentId, c) == [AgentEvent(agentId, c.data)]
  {}

  /** Inside a debate each call of an agent shows at most one event: its lifecycle none, its error a scoped one, the rest as it is. */
  lemma {:induction false} AgentShows(agentId: string, calls: seq<WriterCall>, c: WriterCall)
    ensures AgentActs(agentId, []) == []
    ensures AgentActs(agentId, calls + [c]) == AgentActs(agentId, calls) +
      match c
      case SendRunStarted => []
      case SendRunFinished => []
      case SendRunError(_) => [Sent(Custom("turn.error", agentId))]
      case SendOther(data) => [Sent(AgentEvent(agentId, data))]
  {
    assert (calls + [c])[..|calls|] == calls;
    var sent := Sends(Written(true, false, agentId, c));
    match c {
      case SendRunError(_) => assert sent == [Sent(Custom("turn.error", agentId))];
      case SendOther(data) => assert sent == [Sent(AgentEvent(agentId, data))];
      case _ => assert sent == [];
    }
  }

  /** What a turn contributes to the transcript: the reply's text, a placeholder for one that has parts or tool calls only. */
  lemma {:induction false} TranscriptMeans(r: ProxyResult)
    ensures r.text != "" ==> TranscriptText(r) == r.text
    ensures r.text == "" ==> (TranscriptText(r) == "[structured agent response]" <==> r.contentParts != 0 || r.toolCalls != 0)
    ensures r.text == "" && r.contentParts == 0 && r.toolCalls == 0 ==> TranscriptText(r) == ""
  {}

  /**
   * A web turn announces its speaker first. Past the deadline, or without its
   * mapping, that is all, and the error says so; else the agent's events, the
   * saves and what memory keeps follow, in that order.
   */
  lemma {:induction false} WebTurnMeans(sessionId: string, t: TurnInput, known: string)
    ensures var o := WebTurn(sessionId, t, known);
      && o.acts != [] && o.acts[0] == Sent(Custom("moderator.select", t.agentId))
      && (!Called(t) ==> o.acts == [Sent(Custom("moderator.select", t.agentId))] && o.text == "" && o.target.None?)
      && (!t.timeLeft ==> o.err == Some(Leaf(DeadlineExceeded)))
      && (t.timeLeft && t.mappingLoad.Some? ==> o.err == Some(Tagged(Mapping, Wrapped(t.mappingLoad.value))))
    ensures Called(t) ==>
      var o, p := WebTurn(sessionId, t, known), WebPersist(sessionId, t, known);
      && o.acts[1..] == AgentActs(t.agentId, t.calls) + p.acts + (if p.msg.Some? then [Remembered(p.msg.value)] else [])
      && o.target == p.target
      && o.text == if t.result.Some? then TranscriptText(t.result.value) else ""
  {
    hide AgentActs, WebPersist, TranscriptText;
    if Called(t) {
      var p := WebPersist(sessionId, t, known);
      assert WebTurn(sessionId, t, known).acts == [Sent(Custom("moderator.select", t.agentId))] + WebCall(t, p);
    }
  }

  /** A collected turn that does not reach its agent reports the same errors. */
  lemma {:induction false} McpTurnMeans(sessionId: string, t: TurnInput, known: string)
    ensures var o := McpTurn(sessionId, t, known);
      && (!Called(t) ==> o.acts == [] && o.text == "" && o.target.None?)
      && (!t.timeLeft ==> o.err == Some(Leaf(DeadlineExceeded)))
      && (t.timeLeft && t.mappingLoad.Some? ==> o.err == Some(Tagged(Mapping, Wrapped(t.mappingLoad.value))))
      && (Called(t) ==> o.text == if t.result.Some? then TranscriptText(t.result.value) else "")
  {
    hide MappingTarget, TranscriptText;
  }

  /** A mapping changes exactly the turn's agent, and only when asked for and taking effect. */
  lemma {:induction false} RemapMeans(mapping: map<string, string>, t: TurnInput, target: Option<string>, agentId: string)
    ensures var after := Remap(mapping, t, target);
      && (agentId in after <==> agentId in mapping || (target.Some? && t.mappingFault != Fails && agentId == t.agentId))
      && (agentId in after ==>
            after[agentId] == if target.Some? && t.mappingFault != Fails && agentId == t.agentId then target.value else mapping[agentId])
    ensures Known(mapping, agentId) == if agentId in mapping then mapping[agentId] else ""
  {}
}
