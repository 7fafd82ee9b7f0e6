/**
 * One agent turn of a moderated debate, on the web surface (streamed) and on
 * the MCP surface (collected): running the agent, saving its reply, mapping
 * its session and reporting what failed.
 */
module Turn {
  import opened Prelude
  import opened TurnErrors

  datatype ProxyResult = ProxyResult(
    text: string, contentParts: nat, toolCalls: nat, error: string, agentSessionId: string, rotated: bool)

  datatype Msg =
    | UserMsg(content: string, broadcast: seq<string>)
    | ReplyMsg(agentId: string, result: ProxyResult, isError: bool)
    | RotationNotice(agentId: string)
    | ModeratorMsg(content: string)

  datatype Event =
    | RunStarted
    | RunFinished
    | RunError(message: string)
    | Custom(subType: string, data: string)
    | AgentEvent(agentId: string, data: string)
    | ModeratorStart
    | ModeratorText(text: string)
    | ModeratorEnd

  // What a store call does: take effect and say so, fail without effect, or fail although it took effect.
  datatype Fault = Works | Fails | FailsLate

  predicate Took(f: Fault) { !f.Fails? }

  predicate Acked(f: Fault) { f.Works? }

  // One observable step of a run, in the order it happens.
  datatype Act =
    | Saved(msg: Msg, fault: Fault)                       // AddMessage on the session store
    | Remembered(rem: Msg)                                // appended to the in-memory session
    | Mapped(agentId: string, target: string, mapFault: Fault)  // SetAgentSessionID
    | Sent(event: Event)                                  // an AG-UI event

  // ---------------------------------------------------------------- the SSE writer of an agent call

  // What an agent's protocol handler asks its writer to send.
  datatype WriterCall = SendRunStarted | SendRunFinished | SendRunError(message: string) | SendOther(data: string)

  // A suppressed writer turns RUN_ERROR into an agent-scoped event; a deferred one leaves the lifecycle to its owner.
  function Written(suppress: bool, deferred: bool, agentId: string, c: WriterCall): seq<Event> {
    match c
    case SendRunStarted => if suppress || deferred then [] else [RunStarted]
    case SendRunFinished => if suppress || deferred then [] else [RunFinished]
    case SendRunError(m) =>
      if deferred then [] else if suppress then [Custom("turn.error", agentId)] else [RunError(m)]
    case SendOther(data) => [AgentEvent(agentId, data)]
  }

  predicate Lifecycle(e: Event) {
    e.RunStarted? || e.RunFinished? || e.RunError?
  }

  function Sends(es: seq<Event>): seq<Act> {
    seq(|es|, i requires 0 <= i < |es| => Sent(es[i]))
  }

  function AgentActs(agentId: string, calls: seq<WriterCall>): seq<Act> {
    if calls == [] then []
    else
      var n := |calls| - 1;
      AgentActs(agentId, calls[..n]) + Sends(Written(true, false, agentId, calls[n]))
  }

  // ---------------------------------------------------------------- one turn

  datatype TurnInput = TurnInput(
    agentId: string,
    timeLeft: bool,                       // the shared deadline has not passed yet
    mappingLoad: Option<Err>,             // GetAgentSessionID failing
    calls: seq<WriterCall>,               // what the agent streams
    result: Option<ProxyResult>,
    err: Option<Err>,                     // the proxy call's own error
    rotationFault: Fault, replyFault: Fault, mappingFault: Fault)

  predicate HasPersistableContent(r: Option<ProxyResult>) {
    r.Some? && (r.value.text != "" || r.value.contentParts > 0 || r.value.toolCalls > 0 || r.value.error != "")
  }

  function TranscriptText(r: ProxyResult): string {
    if r.text != "" then r.text
    else if r.contentParts > 0 || r.toolCalls > 0 then "[structured agent response]"
    else ""
  }

  function StoreFailure(kind: Kind, f: Fault): Option<Err> {
    if Acked(f) then None else NewTurnError(kind, Some(Wrapped(Leaf(Other("store")))))
  }

  // The agent session to map: a new one the agent reported, else our own session id on first contact.
  function MappingTarget(sessionId: string, r: ProxyResult, known: string): Option<string> {
    if r.agentSessionId != "" && r.agentSessionId != known then Some(r.agentSessionId)
    else if known == "" then Some(sessionId)
    else None
  }

  datatype Persisted = Persisted(acts: seq<Act>, msg: Option<Msg>, target: Option<string>, err: Option<Err>)

  // persistTurnResult of the web surface.
  function WebPersist(sessionId: string, t: TurnInput, known: string): Persisted {
    if !HasPersistableContent(t.result) then Persisted([], None, None, None)
    else
      var r := t.result.value;
      var e1 := if r.rotated && !Acked(t.rotationFault) then Join(None, StoreFailure(Persistence, t.rotationFault)) else None;
      var raw := if r.error != "" then Join(t.err, Some(Leaf(Other(r.error)))) else t.err;
      var m := ReplyMsg(t.agentId, r, raw.Some?);
      var e2 := if Acked(t.replyFault) then e1 else Join(e1, StoreFailure(Persistence, t.replyFault));
      var target := if raw.None? && Acked(t.replyFault) then MappingTarget(sessionId, r, known) else None;
      var e3 := if target.Some? && !Acked(t.mappingFault) then Join(e2, StoreFailure(Mapping, t.mappingFault)) else e2;
      Persisted(
        (if r.rotated then [Saved(RotationNotice(t.agentId), t.rotationFault)] else [])
          + [Saved(m, t.replyFault)]
          + (if target.Some? then [Mapped(t.agentId, target.value, t.mappingFault)] else []),
        if Acked(t.replyFault) then Some(m) else None, target, e3)
  }

  datatype TurnOut = TurnOut(acts: seq<Act>, text: string, target: Option<string>, err: Option<Err>)

  // The agent streams, its reply is saved, and what was saved joins the in-memory session.
  function WebCall(t: TurnInput, p: Persisted): seq<Act> {
    AgentActs(t.agentId, t.calls) + p.acts + (if p.msg.Some? then [Remembered(p.msg.value)] else [])
  }

  function WebTurn(sessionId: string, t: TurnInput, known: string): TurnOut {
    var select := [Sent(Custom("moderator.select", t.agentId))];
    if !t.timeLeft then TurnOut(select, "", None, Some(Leaf(DeadlineExceeded)))
    else if t.mappingLoad.Some? then TurnOut(select, "", None, NewTurnError(Mapping, Some(Wrapped(t.mappingLoad.value))))
    else
      var p := WebPersist(sessionId, t, known);
      var acts := select + WebCall(t, p);
      var agentErr := NewTurnError(Agent, t.err);
      var e := if p.err.Some? then Join(agentErr, p.err) else agentErr;
      match t.result
      case None => TurnOut(acts, "", p.target, e)
      case Some(r) =>
        TurnOut(acts, TranscriptText(r), p.target,
          if r.error != "" && e.None? then NewTurnError(Agent, Some(Leaf(Other(r.error)))) else e)
  }

  function McpTurn(sessionId: string, t: TurnInput, known: string): TurnOut {
    if !t.timeLeft then TurnOut([], "", None, Some(Leaf(DeadlineExceeded)))
    else if t.mappingLoad.Some? then TurnOut([], "", None, NewTurnError(Mapping, Some(Wrapped(t.mappingLoad.value))))
    else
      var e0 := NewTurnError(Agent, t.err);
      match t.result
      case None => TurnOut([], "", None, e0)
      case Some(r) =>
        var e1 := if r.error != "" && e0.None? then NewTurnError(Agent, Some(Leaf(Other(r.error)))) else e0;
        var m := ReplyMsg(t.agentId, r, e1.Some?);
        var e2 := if Acked(t.replyFault) then e1 else Join(e1, StoreFailure(Persistence, t.replyFault));
        var wanted := if e2.None? then MappingTarget(sessionId, r, known) else None;
        var target := if wanted == Some("") then None else wanted;
        var e3 := if target.Some? && !Acked(t.mappingFault) then StoreFailure(Mapping, t.mappingFault) else e2;
        TurnOut(
          [Saved(m, t.replyFault)]
            + (if Acked(t.replyFault) then [Remembered(m)] else [])
            + (if target.Some? then [Mapped(t.agentId, target.value, t.mappingFault)] else []),
          TranscriptText(r), target, e3)
  }

  function Remap(mapping: map<string, string>, t: TurnInput, target: Option<string>): map<string, string> {
    if target.Some? && Took(t.mappingFault) then mapping[t.agentId := target.value] else mapping
  }

  function Known(mapping: map<string, string>, agentId: string): string {
    if agentId in mapping then mapping[agentId] else ""
  }

  // ---------------------------------------------------------------- the two runners

  class Session {
    const sessionId: string
    var acts: seq<Act>
    var mapping: map<string, string>

    constructor (sessionId: string, mapping: map<string, string>)
      ensures this.sessionId == sessionId && this.mapping == mapping && acts == []
    {
      this.sessionId := sessionId;
      this.mapping := mapping;
      acts := [];
    }

    method AddMessage(m: Msg, f: Fault) returns (ok: bool)
      modifies `acts
      ensures acts == old(acts) + [Saved(m, f)] && ok == Acked(f)
    {
      acts := acts + [Saved(m, f)];
      ok := f == Works;
    }

    method SetAgentSessionID(agentId: string, target: string, f: Fault) returns (ok: bool)
      modifies this
      ensures acts == old(acts) + [Mapped(agentId, target, f)] && ok == Acked(f)
      ensures mapping == if Took(f) then old(mapping)[agentId := target] else old(mapping)
    {
      acts := acts + [Mapped(agentId, target, f)];
      if f != Fails {
        mapping := mapping[agentId := target];
      }
      ok := f == Works;
    }

    method Remember(m: Msg)
      modifies `acts
      ensures acts == old(acts) + [Remembered(m)]
    {
      acts := acts + [Remembered(m)];
    }

    method Send(e: Event)
      modifies `acts
      ensures acts == old(acts) + [Sent(e)]
    {
      acts := acts + [Sent(e)];
    }

    // The agent call: everything it streams goes through a writer with its lifecycle suppressed.
    method HandleAgent(agentId: string, calls: seq<WriterCall>)
      modifies `acts
      ensures acts == old(acts) + AgentActs(agentId, calls)
    {
      for i := 0 to |calls|
        invariant acts == old(acts) + AgentActs(agentId, calls[..i])
      {
        ghost var before := acts;
        match calls[i] {
          case SendRunStarted =>
          case SendRunFinished =>
          case SendRunError(_) => Send(Custom("turn.error", agentId));
          case SendOther(data) => Send(AgentEvent(agentId, data));
        }
        assert acts == before + Sends(Written(true, false, agentId, calls[i]));
        assert calls[..i + 1][..i] == calls[..i];
      }
      assert calls[..|calls|] == calls;
    }

    method PersistTurnResult(t: TurnInput, known: string) returns (msg: Option<Msg>, err: Option<Err>)
      modifies this
      ensures var p := WebPersist(sessionId, t, known);
        && acts == old(acts) + p.acts && msg == p.msg && err == p.err
        && mapping == Remap(old(mapping), t, p.target)
    {
      msg, err := None, None;
      if !HasPersistableContent(t.result) {
        return;
      }
      var r := t.result.value;
      if r.rotated {
        var ok := AddMessage(RotationNotice(t.agentId), t.rotationFault);
        if !ok {
          err := Join(err, StoreFailure(Persistence, t.rotationFault));
        }
      }
      var raw := t.err;
      if r.error != "" {
        raw := Join(raw, Some(Leaf(Other(r.error))));
      }
      var m := ReplyMsg(t.agentId, r, raw.Some?);
      var persisted := AddMessage(m, t.replyFault);
      if !persisted {
        err := Join(err, StoreFailure(Persistence, t.replyFault));
      }
      if raw.None? && persisted {
        var ok := true;
        if r.agentSessionId != "" && r.agentSessionId != known {
          ok := SetAgentSessionID(t.agentId, r.agentSessionId, t.mappingFault);
        } else if known == "" {
          ok := SetAgentSessionID(t.agentId, sessionId, t.mappingFault);
        }
        if !ok {
          err := Join(err, StoreFailure(Mapping, t.mappingFault));
        }
      }
      if persisted {
        msg := Some(m);
      }
    }

    method CallAgent(t: TurnInput, known: string) returns (persistErr: Option<Err>)
      modifies this
      ensures var p := WebPersist(sessionId, t, known);
        && acts == old(acts) + WebCall(t, p) && persistErr == p.err
        && mapping == Remap(old(mapping), t, p.target)
    {
      hide AgentActs, WebPersist;
      HandleAgent(t.agentId, t.calls);
      var msg: Option<Msg>;
      msg, persistErr := PersistTurnResult(t, known);
      if msg.Some? {
        Remember(msg.value);
      }
    }

    method RunWebTurn(t: TurnInput) returns (text: string, err: Option<Err>)
      modifies this
      ensures var o := WebTurn(sessionId, t, Known(old(mapping), t.agentId));
        && acts == old(acts) + o.acts && text == o.text && err == o.err
        && mapping == Remap(old(mapping), t, o.target)
    {
      Send(Custom("moderator.select", t.agentId));
      if !t.timeLeft {
        return "", Some(Leaf(DeadlineExceeded));
      }
      if t.mappingLoad.Some? {
        return "", NewTurnError(Mapping, Some(Wrapped(t.mappingLoad.value)));
      }
      var known := Known(mapping, t.agentId);
      var persistErr := CallAgent(t, known);
      err := NewTurnError(Agent, t.err);
      if persistErr.Some? {
        err := Join(err, persistErr);
      }
      if t.result.None? {
        return "", err;
      }
      if t.result.value.error != "" && err.None? {
        err := NewTurnError(Agent, Some(Leaf(Other(t.result.value.error))));
      }
      text := TranscriptText(t.result.value);
    }

    method RunMcpTurn(t: TurnInput) returns (text: string, err: Option<Err>)
      modifies this
      ensures var o := McpTurn(sessionId, t, Known(old(mapping), t.agentId));
        && acts == old(acts) + o.acts && text == o.text && err == o.err
        && mapping == Remap(old(mapping), t, o.target)
    {
      if !t.timeLeft {
        return "", Some(Leaf(DeadlineExceeded));
      }
      if t.mappingLoad.Some? {
        return "", NewTurnError(Mapping, Some(Wrapped(t.mappingLoad.value)));
      }
      var known := Known(mapping, t.agentId);
      err := NewTurnError(Agent, t.err);
      if t.result.None? {
        return "", err;
      }
      var r := t.result.value;
      if r.error != "" && err.None? {
        err := NewTurnError(Agent, Some(Leaf(Other(r.error))));
      }
      var m := ReplyMsg(t.agentId, r, err.Some?);
      var persisted := AddMessage(m, t.replyFault);
      if !persisted {
        err := Join(err, StoreFailure(Persistence, t.replyFault));
      } else {
        Remember(m);
      }
      if err.None? && persisted {
        var mappingId := "";
        if r.agentSessionId != "" && r.agentSessionId != known {
          mappingId := r.agentSessionId;
        } else if known == "" {
          mappingId := sessionId;
        }
        if mappingId != "" {
          var ok := SetAgentSessionID(t.agentId, mappingId, t.mappingFault);
          if !ok {
            err := StoreFailure(Mapping, t.mappingFault);
          }
        }
      }
      text := TranscriptText(r);
    }
  }
}
