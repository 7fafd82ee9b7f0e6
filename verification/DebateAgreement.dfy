/** The web and the MCP surface of a debate, run on the same turns, tell the same story. */
module DebateAgreement {
  import opened Prelude
  import opened TurnErrors
  import opened Turn
  import opened Transcript
  import opened Debate

  // ---------------------------------------------------------------- one turn

  // The turn gets as far as calling the agent.
  predicate Reaches(t: TurnInput) {
    t.timeLeft && t.mappingLoad.None?
  }

  // Which failure kinds of a turn come from its own steps, on each surface.
  predicate WebFails(sessionId: string, t: TurnInput, known: string, k: Kind) {
    HasTurnFailure(WebTurn(sessionId, t, known).err, k)
  }

  predicate McpFails(sessionId: string, t: TurnInput, known: string, k: Kind) {
    HasTurnFailure(McpTurn(sessionId, t, known).err, k)
  }

  // When each surface loses the reply of a turn that reached its agent.
  predicate WebLosesReply(t: TurnInput) {
    HasPersistableContent(t.result) &&
    ((t.result.value.rotated && !Acked(t.rotationFault)) || !Acked(t.replyFault))
  }

  predicate McpLosesReply(t: TurnInput) {
    t.result.Some? && !Acked(t.replyFault)
  }

  // The mapping a surface wants after an error-free turn whose reply was saved.
  predicate CleanSave(t: TurnInput) {
    t.result.Some? && t.err.None? && t.result.value.error == "" && Acked(t.replyFault)
  }

  lemma {:induction false} WebTarget(sessionId: string, t: TurnInput, known: string)
    requires Reaches(t)
    ensures WebTurn(sessionId, t, known).target ==
      if HasPersistableContent(t.result) && CleanSave(t) then MappingTarget(sessionId, t.result.value, known) else None
  {
    hide AgentActs, TranscriptText, MappingTarget, StoreFailure;
    assert WebTurn(sessionId, t, known).target == WebPersist(sessionId, t, known).target;
  }

  lemma {:induction false} McpTarget(sessionId: string, t: TurnInput, known: string)
    requires Reaches(t) && sessionId != ""
    ensures McpTurn(sessionId, t, known).target ==
      if CleanSave(t) then MappingTarget(sessionId, t.result.value, known) else None
  {
    hide TranscriptText;
  }

  /**
   * A turn with persistable content writes the same agent-session mapping on
   * both surfaces, only after an error-free turn whose reply was saved; and
   * both return the same transcript text.
   */
  lemma {:induction false} SameMapping(sessionId: string, t: TurnInput, known: string)
    requires sessionId != "" && (t.result.None? || HasPersistableContent(t.result))
    ensures WebTurn(sessionId, t, known).target == McpTurn(sessionId, t, known).target
    ensures WebTurn(sessionId, t, known).target.Some? ==> Reaches(t) && CleanSave(t)
    ensures WebTurn(sessionId, t, known).text == McpTurn(sessionId, t, known).text
  {
    hide AgentActs, WebPersist, MappingTarget, StoreFailure, TranscriptText, Join;
    if Reaches(t) {
      WebTarget(sessionId, t, known);
      McpTarget(sessionId, t, known);
    }
  }

  // The one turn on which the mappings part: MCP saves an empty, error-free reply and maps its session.
  predicate PartsMapping(sessionId: string, t: TurnInput, known: string) {
    && Reaches(t) && CleanSave(t) && !HasPersistableContent(t.result)
    && MappingTarget(sessionId, t.result.value, known).Some?
  }

  /** Both surfaces want the same mapping exactly except on such a turn, and always return the same text. */
  lemma {:induction false} SameTargetWhen(sessionId: string, t: TurnInput, known: string)
    requires sessionId != ""
    ensures WebTurn(sessionId, t, known).target == McpTurn(sessionId, t, known).target <==> !PartsMapping(sessionId, t, known)
    ensures WebTurn(sessionId, t, known).text == McpTurn(sessionId, t, known).text
  {
    hide AgentActs, WebPersist, MappingTarget, StoreFailure, TranscriptText, Join;
    if Reaches(t) {
      WebTarget(sessionId, t, known);
      McpTarget(sessionId, t, known);
    }
  }

  /** A turn leaves both surfaces with the same mapping exactly unless it parts them and the mapping takes effect. */
  lemma {:induction false} SameMappingAfterWhen(sessionId: string, t: TurnInput, mapping: map<string, string>)
    requires sessionId != ""
    ensures var known := Known(mapping, t.agentId);
      Remap(mapping, t, WebTurn(sessionId, t, known).target) == Remap(mapping, t, McpTurn(sessionId, t, known).target) <==>
        !(PartsMapping(sessionId, t, known) && Took(t.mappingFault))
  {
    hide WebTurn, McpTurn;
    var known := Known(mapping, t.agentId);
    SameTargetWhen(sessionId, t, known);
    if PartsMapping(sessionId, t, known) {
      WebTarget(sessionId, t, known);
      McpTarget(sessionId, t, known);
      var target := MappingTarget(sessionId, t.result.value, known).value;
      assert target != known;
      assert t.agentId !in mapping || mapping[t.agentId] != target;
      if Took(t.mappingFault) {
        assert t.agentId in Remap(mapping, t, Some(target)) && Remap(mapping, t, Some(target))[t.agentId] == target;
      }
    }
  }

  lemma {:induction false} StoreFailureKinds(kind: Kind, f: Fault, k: Kind)
    ensures HasTurnFailure(StoreFailure(kind, f), k) <==> k == kind && !Acked(f)
    ensures StoreFailure(kind, f).Some? <==> !Acked(f)
  {}

  // What the store steps of a web turn contribute to its error.
  lemma {:induction false} PersistKinds(sessionId: string, t: TurnInput, known: string, k: Kind)
    ensures var p := WebPersist(sessionId, t, known);
      HasTurnFailure(p.err, k) <==>
        (k == Persistence && WebLosesReply(t)) || (k == Mapping && p.target.Some? && !Acked(t.mappingFault))
    ensures var p := WebPersist(sessionId, t, known);
      p.err.Some? <==> WebLosesReply(t) || (p.target.Some? && !Acked(t.mappingFault))
  {
    hide Has, Join, TranscriptText, MappingTarget;
    if HasPersistableContent(t.result) {
      var r := t.result.value;
      var s1 := StoreFailure(Persistence, t.rotationFault);
      var e1 := if r.rotated && !Acked(t.rotationFault) then Join(None, s1) else None;
      var s2 := StoreFailure(Persistence, t.replyFault);
      var e2 := if Acked(t.replyFault) then e1 else Join(e1, s2);
      var s3 := StoreFailure(Mapping, t.mappingFault);
      JoinKeepsKinds(None, s1, k);
      JoinKeepsKinds(e1, s2, k);
      JoinKeepsKinds(e2, s3, k);
      StoreFailureKinds(Persistence, t.rotationFault, k);
      StoreFailureKinds(Persistence, t.replyFault, k);
      StoreFailureKinds(Mapping, t.mappingFault, k);
    }
  }

  lemma {:induction false} NothingToSave(t: TurnInput)
    ensures t.result.None? ==> !HasPersistableContent(t.result)
  {}

  lemma {:induction false} PlainKinds(message: string, k: Kind)
    ensures !HasTurnFailure(Some(Leaf(Other(message))), k)
  {}

  lemma {:induction false} AgentKinds(err: Option<Err>, k: Kind)
    ensures HasTurnFailure(NewTurnError(Agent, err), k) <==> err.Some? && (k == Agent || HasTurnFailure(err, k))
    ensures NewTurnError(Agent, err).Some? <==> err.Some?
  {}

  // Failures of a web turn that reached its agent.
  lemma {:induction false} WebKinds(sessionId: string, t: TurnInput, known: string, k: Kind)
    requires Reaches(t)
    ensures WebFails(sessionId, t, known, k) <==>
      || (k != Agent && HasTurnFailure(t.err, k))
      || (k == Persistence && WebLosesReply(t))
      || (k == Mapping && WebTurn(sessionId, t, known).target.Some? && !Acked(t.mappingFault))
      || (k == Agent && (t.err.Some? ||
           (t.result.Some? && t.result.value.error != "" && !WebLosesReply(t))))
  {
    hide Has, Join, AgentActs, TranscriptText, WebPersist, HasPersistableContent;
    var p := WebPersist(sessionId, t, known);
    var a := NewTurnError(Agent, t.err);
    AgentKinds(t.err, k);
    JoinKeepsKinds(a, p.err, k);
    PersistKinds(sessionId, t, known, k);
    WebTarget(sessionId, t, known);
    if t.result.Some? {
      AgentKinds(Some(Leaf(Other(t.result.value.error))), k);
      PlainKinds(t.result.value.error, k);
    }
    assert t.result.None? ==> !HasPersistableContent(t.result) by { NothingToSave(t); }
  }

  // Failures of an MCP turn that reached its agent.
  lemma {:induction false} McpKinds(sessionId: string, t: TurnInput, known: string, k: Kind)
    requires Reaches(t)
    ensures McpFails(sessionId, t, known, k) <==>
      || (k != Agent && HasTurnFailure(t.err, k))
      || (k == Persistence && McpLosesReply(t))
      || (k == Mapping && McpTurn(sessionId, t, known).target.Some? && !Acked(t.mappingFault))
      || (k == Agent && (t.err.Some? || (t.result.Some? && t.result.value.error != "")))
  {
    hide Has, Join, TranscriptText, MappingTarget;
    var e0 := NewTurnError(Agent, t.err);
    AgentKinds(t.err, k);
    if t.result.Some? {
      var r := t.result.value;
      AgentKinds(Some(Leaf(Other(r.error))), k);
      PlainKinds(r.error, k);
      var e1 := if r.error != "" && e0.None? then NewTurnError(Agent, Some(Leaf(Other(r.error)))) else e0;
      JoinKeepsKinds(e1, StoreFailure(Persistence, t.replyFault), k);
      StoreFailureKinds(Persistence, t.replyFault, k);
      StoreFailureKinds(Mapping, t.mappingFault, k);
    }
  }

  /**
   * The two surfaces agree on a lost reply exactly when the agent's own error
   * already says so or both lose it: MCP keeps no rotation notice, and only MCP
   * saves an empty reply.
   */
  lemma {:induction false} SameLostReplyWhen(sessionId: string, t: TurnInput, known: string)
    requires Reaches(t)
    ensures (WebFails(sessionId, t, known, Persistence) <==> McpFails(sessionId, t, known, Persistence)) <==>
      HasTurnFailure(t.err, Persistence) || (WebLosesReply(t) <==> McpLosesReply(t))
  {
    WebKinds(sessionId, t, known, Persistence);
    McpKinds(sessionId, t, known, Persistence);
  }

  /**
   * The web surface forgets that the agent failed exactly when the failure was
   * reported inside the result and saving the turn failed as well.
   */
  lemma {:induction false} SameAgentFailureWhen(sessionId: string, t: TurnInput, known: string)
    requires Reaches(t)
    ensures (WebFails(sessionId, t, known, Agent) <==> McpFails(sessionId, t, known, Agent)) <==>
      !(t.err.None? && t.result.Some? && t.result.value.error != "" && WebLosesReply(t))
  {
    WebKinds(sessionId, t, known, Agent);
    McpKinds(sessionId, t, known, Agent);
  }

  // ---------------------------------------------------------------- recorded turns

  // A turn on which both surfaces want the same mapping and lose the reply alike.
  predicate Agreeable(sessionId: string, t: TurnInput, known: string) {
    && !PartsMapping(sessionId, t, known)
    && (Reaches(t) ==> HasTurnFailure(t.err, Persistence) || (WebLosesReply(t) <==> McpLosesReply(t)))
  }

  /** That condition on the turn is exact. */
  lemma {:induction false} AgreeableExactly(sessionId: string, t: TurnInput, known: string)
    requires sessionId != ""
    ensures Agreeable(sessionId, t, known) <==>
      && WebTurn(sessionId, t, known).target == McpTurn(sessionId, t, known).target
      && (WebFails(sessionId, t, known, Persistence) <==> McpFails(sessionId, t, known, Persistence))
  {
    SameTargetWhen(sessionId, t, known);
    if Reaches(t) {
      hide WebTurn, McpTurn, WebFails, McpFails, PartsMapping;
      SameLostReplyWhen(sessionId, t, known);
    }
  }

  // Same agent and text, same storage failures, and the same agent failure unless something was lost.
  ghost predicate Matches(w: TurnResult, m: TurnResult) {
    && w.agentId == m.agentId && w.text == m.text
    && (HasFailure(w, Persistence) <==> HasFailure(m, Persistence))
    && (HasFailure(w, Mapping) <==> HasFailure(m, Mapping))
    && (!StorageFailure(w) ==> (HasFailure(w, Agent) <==> HasFailure(m, Agent)))
  }

  lemma {:induction false} WebErrorHasKind(sessionId: string, t: TurnInput, known: string)
    requires Reaches(t) && WebTurn(sessionId, t, known).err.Some?
    ensures exists k :: WebFails(sessionId, t, known, k)
  {
    WebKinds(sessionId, t, known, Agent);
    WebKinds(sessionId, t, known, Persistence);
    WebKinds(sessionId, t, known, Mapping);
    if !WebFails(sessionId, t, known, Agent) && !WebFails(sessionId, t, known, Persistence) && !WebFails(sessionId, t, known, Mapping) {
      hide WebPersist, AgentActs, Has, MappingTarget, TranscriptText;
      PersistKinds(sessionId, t, known, Agent);
      WebTarget(sessionId, t, known);
      assert false;
    }
  }

  lemma {:induction false} McpErrorHasKind(sessionId: string, t: TurnInput, known: string)
    requires Reaches(t) && McpTurn(sessionId, t, known).err.Some?
    ensures exists k :: McpFails(sessionId, t, known, k)
  {
    McpKinds(sessionId, t, known, Agent);
    McpKinds(sessionId, t, known, Persistence);
    McpKinds(sessionId, t, known, Mapping);
    if !McpFails(sessionId, t, known, Agent) && !McpFails(sessionId, t, known, Persistence) && !McpFails(sessionId, t, known, Mapping) {
      hide Has, MappingTarget, TranscriptText;
      assert false;
    }
  }

  // An error of a turn that reached its agent always carries some kind.
  lemma {:induction false} AnyError(sessionId: string, t: TurnInput, known: string)
    requires Reaches(t)
    ensures WebTurn(sessionId, t, known).err.Some? <==> exists k :: WebFails(sessionId, t, known, k)
    ensures McpTurn(sessionId, t, known).err.Some? <==> exists k :: McpFails(sessionId, t, known, k)
  {
    hide WebTurn, McpTurn, Has, MappingTarget;
    forall k: Kind
      ensures WebFails(sessionId, t, known, k) ==> WebTurn(sessionId, t, known).err.Some?
      ensures McpFails(sessionId, t, known, k) ==> McpTurn(sessionId, t, known).err.Some?
    {}
    if WebTurn(sessionId, t, known).err.Some? {
      WebErrorHasKind(sessionId, t, known);
    }
    if McpTurn(sessionId, t, known).err.Some? {
      McpErrorHasKind(sessionId, t, known);
    }
  }

  lemma {:induction false} SameTurnFailures(sessionId: string, t: TurnInput, known: string)
    requires sessionId != "" && Agreeable(sessionId, t, known) && Reaches(t)
    ensures WebFails(sessionId, t, known, Persistence) <==> McpFails(sessionId, t, known, Persistence)
    ensures WebFails(sessionId, t, known, Mapping) <==> McpFails(sessionId, t, known, Mapping)
    ensures !WebFails(sessionId, t, known, Persistence) && !WebFails(sessionId, t, known, Mapping) ==>
      && (WebFails(sessionId, t, known, Agent) <==> McpFails(sessionId, t, known, Agent))
      && (WebTurn(sessionId, t, known).err.Some? <==> McpTurn(sessionId, t, known).err.Some?)
  {
    hide WebTurn, McpTurn, Has, MappingTarget;
    SameTargetWhen(sessionId, t, known);
    forall k: Kind
      ensures WebFails(sessionId, t, known, k) <==>
        || (k != Agent && HasTurnFailure(t.err, k))
        || (k == Persistence && WebLosesReply(t))
        || (k == Mapping && WebTurn(sessionId, t, known).target.Some? && !Acked(t.mappingFault))
        || (k == Agent && (t.err.Some? || (t.result.Some? && t.result.value.error != "" && !WebLosesReply(t))))
      ensures McpFails(sessionId, t, known, k) <==>
        || (k != Agent && HasTurnFailure(t.err, k))
        || (k == Persistence && McpLosesReply(t))
        || (k == Mapping && McpTurn(sessionId, t, known).target.Some? && !Acked(t.mappingFault))
        || (k == Agent && (t.err.Some? || (t.result.Some? && t.result.value.error != "")))
    {
      WebKinds(sessionId, t, known, k);
      McpKinds(sessionId, t, known, k);
    }
    AnyError(sessionId, t, known);
  }

  lemma {:induction false} MatchingFailures(sessionId: string, t: TurnInput, known: string)
    requires sessionId != "" && Agreeable(sessionId, t, known)
    requires WebTurn(sessionId, t, known).text == McpTurn(sessionId, t, known).text
    ensures var w, m := WebTurn(sessionId, t, known), McpTurn(sessionId, t, known);
      Matches(Record(t.agentId, w.text, w.err), Record(t.agentId, m.text, m.err))
  {
    hide Has, Join, TurnErrorKind, KindsOf, AgentActs, MappingTarget, TranscriptText, WebPersist, Agreeable;
    var w, m := WebTurn(sessionId, t, known), McpTurn(sessionId, t, known);
    forall k: Kind
      ensures HasFailure(Record(t.agentId, w.text, w.err), k) <==>
        HasTurnFailure(w.err, k) || (k == Agent && w.err.Some? && !HasTurnFailure(w.err, Persistence) && !HasTurnFailure(w.err, Mapping))
      ensures HasFailure(Record(t.agentId, m.text, m.err), k) <==>
        HasTurnFailure(m.err, k) || (k == Agent && m.err.Some? && !HasTurnFailure(m.err, Persistence) && !HasTurnFailure(m.err, Mapping))
    {
      RecordedFailures(t.agentId, w.text, w.err, k);
      RecordedFailures(t.agentId, m.text, m.err, k);
    }
    if Reaches(t) {
      SameTurnFailures(sessionId, t, known);
    }
  }

  lemma {:induction false} TurnsMatch(sessionId: string, t: TurnInput, known: string)
    requires sessionId != "" && Agreeable(sessionId, t, known)
    ensures var w, m := WebTurn(sessionId, t, known), McpTurn(sessionId, t, known);
      Matches(Record(t.agentId, w.text, w.err), Record(t.agentId, m.text, m.err)) && w.target == m.target
  {
    hide Agreeable, Matches, WebTurn, McpTurn, Record;
    SameTargetWhen(sessionId, t, known);
    AgreeableExactly(sessionId, t, known);
    MatchingFailures(sessionId, t, known);
  }

  function McpMemoryOf(t: TurnInput): seq<Msg> {
    if Reaches(t) && t.result.Some? && Acked(t.replyFault)
    then [ReplyMsg(t.agentId, t.result.value, t.err.Some? || t.result.value.error != "")]
    else []
  }

  // What a turn adds to the in-memory session of each surface.
  function WebMemoryOf(t: TurnInput): seq<Msg> {
    if HasPersistableContent(t.result) then McpMemoryOf(t) else []
  }

  // A turn whose empty reply only MCP saves and remembers.
  predicate KeepsEmptyReply(t: TurnInput) {
    Reaches(t) && t.result.Some? && Acked(t.replyFault) && !HasPersistableContent(t.result)
  }

  lemma {:induction false} RememberedConcat(a: seq<Act>, b: seq<Act>)
    ensures RememberedBy(a + b) == RememberedBy(a) + RememberedBy(b)
    decreases |a|
  {
    if a == [] {
      assert a + b == b;
    } else {
      assert (a + b)[1..] == a[1..] + b;
      RememberedConcat(a[1..], b);
    }
  }

  lemma {:induction false} NothingRemembered(acts: seq<Act>)
    requires forall i | 0 <= i < |acts| :: !acts[i].Remembered?
    ensures RememberedBy(acts) == []
    decreases |acts|
  {
    if acts == [] {
    } else {
      NothingRemembered(acts[1..]);
    }
  }

  lemma {:induction false} AgentActsRememberNothing(agentId: string, calls: seq<WriterCall>)
    ensures forall i | 0 <= i < |AgentActs(agentId, calls)| :: !AgentActs(agentId, calls)[i].Remembered?
  {
    if calls == [] {
    } else {
      AgentActsRememberNothing(agentId, calls[..|calls| - 1]);
    }
  }

  lemma {:induction false} PersistRemembersNothing(sessionId: string, t: TurnInput, known: string)
    ensures RememberedBy(WebPersist(sessionId, t, known).acts) == []
    ensures WebPersist(sessionId, t, known).msg ==
      if HasPersistableContent(t.result) && Acked(t.replyFault)
      then Some(ReplyMsg(t.agentId, t.result.value, t.err.Some? || t.result.value.error != "")) else None
  {
    hide MappingTarget, StoreFailure;
    NothingRemembered(WebPersist(sessionId, t, known).acts);
  }

  lemma {:induction false} WebMemory(sessionId: string, t: TurnInput, known: string)
    ensures RememberedBy(WebTurn(sessionId, t, known).acts) == WebMemoryOf(t)
  {
    hide AgentActs, WebPersist, TranscriptText;
    var select := [Sent(Custom("moderator.select", t.agentId))];
    NothingRemembered(select);
    if Reaches(t) {
      var p := WebPersist(sessionId, t, known);
      var streamed := AgentActs(t.agentId, t.calls);
      var grown := if p.msg.Some? then [Remembered(p.msg.value)] else [];
      AgentActsRememberNothing(t.agentId, t.calls);
      NothingRemembered(streamed);
      PersistRemembersNothing(sessionId, t, known);
      RememberedConcat(streamed, p.acts);
      RememberedConcat(streamed + p.acts, grown);
      RememberedConcat(select, WebCall(t, p));
    }
  }

  lemma {:induction false} McpMemory(sessionId: string, t: TurnInput, known: string)
    ensures RememberedBy(McpTurn(sessionId, t, known).acts) == McpMemoryOf(t)
  {
    hide MappingTarget, StoreFailure, TranscriptText;
    var acts := McpTurn(sessionId, t, known).acts;
    if Reaches(t) && t.result.Some? {
      var m := ReplyMsg(t.agentId, t.result.value, t.err.Some? || t.result.value.error != "");
      var save := [Saved(m, t.replyFault)];
      var grown := if Acked(t.replyFault) then [Remembered(m)] else [];
      var rest := acts[|save + grown|..];
      assert acts == save + grown + rest;
      NothingRemembered(save);
      NothingRemembered(rest);
      RememberedConcat(save, grown);
      RememberedConcat(save + grown, rest);
    }
  }

  // ---------------------------------------------------------------- whole debates

  ghost predicate AllMatch(ws: seq<TurnResult>, ms: seq<TurnResult>) {
    && |ws| == |ms|
    && forall i | 0 <= i < |ws| :: Matches(ws[i], ms[i])
  }

  // Every turn is agreeable, given what is mapped when it comes.
  predicate AllAgreeable(sessionId: string, turns: seq<TurnInput>, mapping: map<string, string>) {
    turns == [] ||
    var n := |turns| - 1;
    && AllAgreeable(sessionId, turns[..n], mapping)
    && Agreeable(sessionId, turns[n], Known(WebTurns(sessionId, turns[..n], mapping).mapping, turns[n].agentId))
  }

  lemma {:induction false} DebatesMatch(sessionId: string, turns: seq<TurnInput>, mapping: map<string, string>)
    requires sessionId != "" && AllAgreeable(sessionId, turns, mapping)
    ensures var w, m := WebTurns(sessionId, turns, mapping), McpTurns(sessionId, turns, mapping);
      w.mapping == m.mapping && AllMatch(w.results, m.results)
  {
    hide WebTurn, McpTurn, Matches, Record, Agreeable, Known, Remap;
    if turns == [] {
    } else {
      var n := |turns| - 1;
      DebatesMatch(sessionId, turns[..n], mapping);
      TurnsMatch(sessionId, turns[n], Known(WebTurns(sessionId, turns[..n], mapping).mapping, turns[n].agentId));
    }
  }

  // The mappings part on no turn, as long as they have not parted before.
  predicate NeverParts(sessionId: string, turns: seq<TurnInput>, mapping: map<string, string>) {
    turns == [] ||
    var n := |turns| - 1;
    && NeverParts(sessionId, turns[..n], mapping)
    && !(PartsMapping(sessionId, turns[n], Known(WebTurns(sessionId, turns[..n], mapping).mapping, turns[n].agentId))
         && Took(turns[n].mappingFault))
  }

  /** Both surfaces agree on all mappings throughout a debate exactly when no turn parts them. */
  lemma {:induction false} SameMappingsWhen(sessionId: string, turns: seq<TurnInput>, mapping: map<string, string>)
    requires sessionId != ""
    ensures (forall n | 0 <= n <= |turns| :: WebTurns(sessionId, turns[..n], mapping).mapping == McpTurns(sessionId, turns[..n], mapping).mapping)
      <==> NeverParts(sessionId, turns, mapping)
  {
    hide PartsMapping, WebTurn, McpTurn, Record, Remap, Known;
    if turns == [] {
      assert turns[..0] == [];
    } else {
      var n := |turns| - 1;
      SameMappingsWhen(sessionId, turns[..n], mapping);
      assert forall k | 0 <= k <= n :: turns[..n][..k] == turns[..k];
      assert turns[..|turns|] == turns;
      if NeverParts(sessionId, turns[..n], mapping) {
        assert turns[..n][..n] == turns[..n];
        SameMappingAfterWhen(sessionId, turns[n], WebTurns(sessionId, turns[..n], mapping).mapping);
      }
    }
  }

  lemma {:induction false} DebateMemory(sessionId: string, turns: seq<TurnInput>, mapping: map<string, string>)
    ensures var w, m := RememberedBy(WebTurns(sessionId, turns, mapping).acts), RememberedBy(McpTurns(sessionId, turns, mapping).acts);
      && |w| <= |m|
      && (w == m <==> forall i | 0 <= i < |turns| :: !KeepsEmptyReply(turns[i]))
      && (w != m ==> |w| < |m|)
  {
    hide WebTurn, McpTurn, Record, Known, Remap, RememberedBy;
    if turns == [] {
      NothingRemembered([]);
    } else {
      var n := |turns| - 1;
      DebateMemory(sessionId, turns[..n], mapping);
      var w, m := WebTurns(sessionId, turns[..n], mapping), McpTurns(sessionId, turns[..n], mapping);
      var kw, km := Known(w.mapping, turns[n].agentId), Known(m.mapping, turns[n].agentId);
      WebMemory(sessionId, turns[n], kw);
      McpMemory(sessionId, turns[n], km);
      RememberedConcat(w.acts, WebTurn(sessionId, turns[n], kw).acts);
      RememberedConcat(m.acts, McpTurn(sessionId, turns[n], km).acts);
    }
  }

  /** Both surfaces remember the same replies exactly when no turn's empty reply is saved by MCP alone. */
  lemma {:induction false} SameMemoryWhen(sessionId: string, turns: seq<TurnInput>, mapping: map<string, string>)
    ensures RememberedBy(WebTurns(sessionId, turns, mapping).acts) == RememberedBy(McpTurns(sessionId, turns, mapping).acts) <==>
      forall i | 0 <= i < |turns| :: !KeepsEmptyReply(turns[i])
  {
    DebateMemory(sessionId, turns, mapping);
  }

  lemma {:induction false} SameSpeakers(ws: seq<TurnResult>, ms: seq<TurnResult>)
    requires AllMatch(ws, ms)
    requires forall i | 0 <= i < |ws| :: Responded(ws[i]) <==> Responded(ms[i])
    ensures Speakers(ws) == Speakers(ms)
  {
    hide Responded;
    forall i | 0 <= i < |ws|
      ensures ws[i].agentId == ms[i].agentId
    {
      assert Matches(ws[i], ms[i]);
    }
  }

  lemma {:induction false} SameStorageReason(ws: seq<TurnResult>, ms: seq<TurnResult>)
    requires AllMatch(ws, ms)
    ensures StorageReason(ws) == StorageReason(ms)
  {
    hide HasFailure;
    if ws == [] {
    } else {
      assert Matches(ws[0], ms[0]);
      forall i | 0 <= i < |ws| - 1
        ensures Matches(ws[1..][i], ms[1..][i])
      {
        assert Matches(ws[i + 1], ms[i + 1]);
      }
      SameStorageReason(ws[1..], ms[1..]);
    }
  }

  // With matching results, both surfaces see the same reason and, when nothing was lost, the same speakers.
  lemma {:induction false} SameReason(debateErr: Option<Err>, ws: seq<TurnResult>, ms: seq<TurnResult>)
    requires AllMatch(ws, ms)
    ensures IncompleteReason(debateErr, ws) == IncompleteReason(debateErr, ms)
    ensures !AnyStorageFailure(ws) ==> Speakers(ws) == Speakers(ms)
    ensures AnyStorageFailure(ws) <==> AnyStorageFailure(ms)
  {
    SameStorageReason(ws, ms);
    var i := StorageReasonIsFirst(ws);
    var j := StorageReasonIsFirst(ms);
    if !AnyStorageFailure(ws) {
      forall i | 0 <= i < |ws|
        ensures Responded(ws[i]) <==> Responded(ms[i])
      {
        assert Matches(ws[i], ms[i]) && !StorageFailure(ws[i]);
      }
      SameSpeakers(ws, ms);
    }
  }

  lemma {:induction false} NoneUnsaved(results: seq<TurnResult>)
    ensures SynthesisUnsaved !in Sections(results)
  {
    forall i | 0 <= i < |results|
      ensures Sections(results)[i] != SynthesisUnsaved
    {}
  }

  /**
   * For any outcome of a debate, MCP flags an error exactly when the web
   * surface would give a reason, unless the synthesis alone could not be saved;
   * and the gates for asking a synthesis coincide.
   */
  lemma {:induction false} ErrorFlagMeansIncomplete(
      debateErr: Option<Err>, results: seq<TurnResult>, synthesis: Option<string>, f: Fault)
    requires results != []
    ensures var r := CallOutcome(debateErr, results, synthesis, f).0;
      && r.Collected?
      && (r.isError <==> !IncompleteReason(debateErr, results).Complete? || SynthesisUnsaved in r.sections)
    ensures WantsSynthesis(IncompleteReason(debateErr, results), results) <==>
      debateErr.None? && !AnyStorageFailure(results) && |Speakers(results)| >= 2
  {
    hide IncompleteReason, AnyStorageFailure, Speakers, SectionOf;
    CompleteWhen(debateErr, results);
    NoneUnsaved(results);
    var said := McpSynthesis(debateErr, results, synthesis);
    var o := CallOutcome(debateErr, results, synthesis, f).0;
    if said.Some? && !Acked(f) {
      assert o.sections[|o.sections| - 1] == SynthesisUnsaved;
    }
  }

  lemma {:induction false} TurnsGiveResults(sessionId: string, turns: seq<TurnInput>, mapping: map<string, string>)
    ensures |McpTurns(sessionId, turns, mapping).results| == |turns|
  {
    hide McpTurn, Record;
    if turns == [] {
    } else {
      TurnsGiveResults(sessionId, turns[..|turns| - 1], mapping);
    }
  }

  /**
   * The same turns on both surfaces, each agreeable when it comes: the same
   * agent sessions are mapped, the same reason is found, and MCP reports an
   * error exactly when the web run is incomplete (its synthesis save aside).
   */
  lemma {:induction false} SurfacesAgree(
      sessionId: string, turns: seq<TurnInput>, debateErr: Option<Err>, mapping: map<string, string>,
      synthesis: Option<string>, f: Fault)
    requires sessionId != "" && AllAgreeable(sessionId, turns, mapping)
    requires turns != []
    ensures var w, m := WebTurns(sessionId, turns, mapping), McpTurns(sessionId, turns, mapping);
      var reason := IncompleteReason(debateErr, w.results);
      var r := CallOutcome(debateErr, m.results, synthesis, f).0;
      && w.mapping == m.mapping
      && IncompleteReason(debateErr, m.results) == reason
      && r.Collected?
      && (r.isError <==> !reason.Complete? || SynthesisUnsaved in r.sections)
      && (WantsSynthesis(reason, w.results) <==> WantsSynthesis(reason, m.results))
  {
    hide WebTurns, McpTurns, CallOutcome, IncompleteReason, Speakers, AllMatch, AllAgreeable;
    var w, m := WebTurns(sessionId, turns, mapping), McpTurns(sessionId, turns, mapping);
    DebatesMatch(sessionId, turns, mapping);
    TurnsGiveResults(sessionId, turns, mapping);
    SameReason(debateErr, w.results, m.results);
    CompleteWhen(debateErr, w.results);
    ErrorFlagMeansIncomplete(debateErr, m.results, synthesis, f);
  }

  // ---------------------------------------------------------------- where they part

  const ANSWER := ProxyResult("hi", 0, 0, "", "", false)

  const EMPTY := ProxyResult("", 0, 0, "", "", false)

  function Turned(agentId: string, r: ProxyResult, rotation: Fault, reply: Fault): TurnInput {
    TurnInput(agentId, true, None, [], Some(r), None, rotation, reply, Works)
  }

  const FAILED := ProxyResult("", 0, 0, "boom", "", false)

  /** An error inside the result whose save fails too: the web surface reports a lost reply only, MCP the agent's failure as well. */
  lemma {:induction false} ForgottenFailure(known: string)
    ensures var t := Turned("a", FAILED, Works, Fails);
      && McpFails("s", t, known, Agent) && !WebFails("s", t, known, Agent)
      && McpFails("s", t, known, Persistence) && WebFails("s", t, known, Persistence)
  {
    hide MappingTarget, WebTurn, McpTurn, WebFails, McpFails, Has;
    var t := Turned("a", FAILED, Works, Fails);
    WebKinds("s", t, known, Agent);
    McpKinds("s", t, known, Agent);
    WebKinds("s", t, known, Persistence);
    McpKinds("s", t, known, Persistence);
  }

  lemma {:induction false} TwoTurns(sessionId: string, t: TurnInput, u: TurnInput, mapping: map<string, string>)
    ensures var d := WebTurns(sessionId, [t], mapping);
      var o, o' := WebTurn(sessionId, t, Known(mapping, t.agentId)), WebTurn(sessionId, u, Known(d.mapping, u.agentId));
      WebTurns(sessionId, [t, u], mapping).results == [Record(t.agentId, o.text, o.err), Record(u.agentId, o'.text, o'.err)]
    ensures var d := McpTurns(sessionId, [t], mapping);
      var o, o' := McpTurn(sessionId, t, Known(mapping, t.agentId)), McpTurn(sessionId, u, Known(d.mapping, u.agentId));
      McpTurns(sessionId, [t, u], mapping).results == [Record(t.agentId, o.text, o.err), Record(u.agentId, o'.text, o'.err)]
  {
    hide WebTurn, McpTurn, Record, Known;
    assert [t, u][..1] == [t] && [t][..0] == [];
  }

  lemma {:induction false} AnsweredTurn(known: string)
    ensures var o := WebTurn("s", Turned("a", ANSWER, Works, Works), known);
      o.text == "hi" && o.err.None?
  {
    hide MappingTarget;
  }

  lemma {:induction false} EmptyTurn(known: string)
    ensures WebTurn("s", Turned("b", EMPTY, Works, Fails), known).err.None?
    ensures McpFails("s", Turned("b", EMPTY, Works, Fails), known, Persistence)
  {
    hide MappingTarget;
    McpKinds("s", Turned("b", EMPTY, Works, Fails), known, Persistence);
  }

  lemma {:induction false} SameCleanTurn(known: string)
    ensures McpTurn("s", Turned("a", ANSWER, Works, Works), known).err.None?
  {
    hide MappingTarget;
  }

  lemma {:induction false} RecordedCleanly(agentId: string, text: string)
    ensures forall k :: !HasFailure(Record(agentId, text, None), k)
    ensures Record(agentId, text, None).agentId == agentId && Record(agentId, text, None).text == text
  {}

  lemma {:induction false} WebStaysComplete(r: TurnResult, q: TurnResult)
    requires r.text != "" && (forall k :: !HasFailure(r, k)) && (forall k :: !HasFailure(q, k))
    ensures IncompleteReason(None, [r, q]).Complete?
  {
    hide HasFailure;
    CompleteWhen(None, [r, q]);
    assert Responded([r, q][0]);
    assert r.agentId in Speakers([r, q]);
  }

  lemma {:induction false} McpReportsLoss(r: TurnResult, q: TurnResult)
    requires (forall k :: !HasFailure(r, k)) && HasFailure(q, Persistence)
    ensures IncompleteReason(None, [r, q]).PersistenceFailed?
  {
    hide HasFailure;
    assert [r, q][1..] == [q];
    assert StorageReason([q]) == Some(PersistenceFailed);
    assert StorageReason([r, q]) == StorageReason([r, q][1..]);
  }

  /**
   * An empty reply is saved by MCP alone: after one good answer, losing an
   * empty one is an error there and leaves the web run complete.
   */
  lemma {:induction false} EmptyReplyParts()
    ensures var turns := [Turned("a", ANSWER, Works, Works), Turned("b", EMPTY, Works, Fails)];
      && IncompleteReason(None, WebTurns("s", turns, map[]).results).Complete?
      && IncompleteReason(None, McpTurns("s", turns, map[]).results).PersistenceFailed?
  {
    hide WebTurn, McpTurn, WebTurns, McpTurns, Record, Has;
    var t, u := Turned("a", ANSWER, Works, Works), Turned("b", EMPTY, Works, Fails);
    var k0 := Known(map[], "a");
    var k1 := Known(WebTurns("s", [t], map[]).mapping, "b");
    var k2 := Known(McpTurns("s", [t], map[]).mapping, "b");
    TwoTurns("s", t, u, map[]);
    AnsweredTurn(k0);
    EmptyTurn(k1);
    EmptyTurn(k2);
    var a, b := WebTurn("s", t, k0), WebTurn("s", u, k1);
    WebStaysComplete(Record("a", a.text, a.err), Record("b", b.text, b.err)) by {
      RecordedCleanly("a", a.text);
      RecordedCleanly("b", b.text);
    }
    var c, d := McpTurn("s", t, k0), McpTurn("s", u, k2);
    assert McpTurn("s", t, k0).err.None? by { SameCleanTurn(k0); }
    RecordedCleanly("a", c.text);
    RecordedFailures("b", d.text, d.err, Persistence);
    McpReportsLoss(Record("a", c.text, c.err), Record("b", d.text, d.err));
  }
}
