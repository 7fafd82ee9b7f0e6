/**
 * A moderated group debate on its two surfaces. The web surface streams one
 * run with its lifecycle; the MCP surface collects sections and an error flag.
 * The moderator is any list of turns it chose plus an optional error.
 */
module Debate {
  import opened Prelude
  import opened TurnErrors
  import opened Turn

  datatype Reason =
    | Complete | Timeout | MaxTurns | ModeratorFailed | PersistenceFailed | MappingFailed | AllAgentsFailed

  // ---------------------------------------------------------------- who spoke and why a debate is incomplete

  predicate Responded(r: TurnResult) {
    r.text != "" && !HasFailure(r, Agent)
  }

  function Speakers(results: seq<TurnResult>): set<string> {
    set i | 0 <= i < |results| && Responded(results[i]) :: results[i].agentId
  }

  lemma {:induction false} SpeakersGrow(results: seq<TurnResult>, r: TurnResult)
    ensures Speakers(results + [r]) == Speakers(results) + (if Responded(r) then {r.agentId} else {})
  {
    var all := results + [r];
    forall id | id in Speakers(results) + (if Responded(r) then {r.agentId} else {})
      ensures id in Speakers(all)
    {
      if id in Speakers(results) {
        var i :| 0 <= i < |results| && Responded(results[i]) && results[i].agentId == id;
        assert Responded(all[i]) && all[i].agentId == id;
      } else {
        assert Responded(all[|results|]);
      }
    }
    forall id | id in Speakers(all)
      ensures id in Speakers(results) + (if Responded(r) then {r.agentId} else {})
    {
      var i :| 0 <= i < |all| && Responded(all[i]) && all[i].agentId == id;
      if i < |results| {
        assert Responded(results[i]);
      }
    }
  }

  method DistinctRespondingSpeakers(results: seq<TurnResult>) returns (n: nat)
    ensures n == |Speakers(results)|
  {
    var seen: set<string> := {};
    for k := 0 to |results|
      invariant seen == Speakers(results[..k])
    {
      var r := results[k];
      assert results[..k + 1] == results[..k] + [r];
      if r.text != "" && !HasFailure(r, Agent) {
        seen := seen + {r.agentId};
        assert Responded(results[..k + 1][k]);
      }
      SpeakersGrow(results[..k], r);
    }
    assert results[..|results|] == results;
    n := |seen|;
  }

  predicate StorageFailure(r: TurnResult) {
    HasFailure(r, Persistence) || HasFailure(r, Mapping)
  }

  predicate AnyStorageFailure(results: seq<TurnResult>) {
    exists i | 0 <= i < |results| :: StorageFailure(results[i])
  }

  // The first turn that lost something decides; within one turn a lost reply outranks a lost mapping.
  ghost predicate FirstStorageFailure(results: seq<TurnResult>, i: nat) {
    && i < |results|
    && StorageFailure(results[i])
    && (forall j | 0 <= j < i :: !StorageFailure(results[j]))
  }

  // Why a debate is incomplete, as a relation: which reason is right for which outcome.
  ghost predicate Explains(reason: Reason, debateErr: Option<Err>, results: seq<TurnResult>) {
    if debateErr.Some? then
      reason == (if Is(debateErr.value, DeadlineExceeded) then Timeout
                 else if Is(debateErr.value, MaxTurnsReached) then MaxTurns
                 else ModeratorFailed)
    else if AnyStorageFailure(results) then
      exists i: nat :: FirstStorageFailure(results, i) &&
        reason == (if HasFailure(results[i], Persistence) then PersistenceFailed else MappingFailed)
    else if results != [] && Speakers(results) == {} then reason == AllAgentsFailed
    else reason == Complete
  }

  function StorageReason(results: seq<TurnResult>): Option<Reason> {
    if results == [] then None
    else if HasFailure(results[0], Persistence) then Some(PersistenceFailed)
    else if HasFailure(results[0], Mapping) then Some(MappingFailed)
    else StorageReason(results[1..])
  }

  function IncompleteReason(debateErr: Option<Err>, results: seq<TurnResult>): Reason {
    if debateErr.Some? then
      if Is(debateErr.value, DeadlineExceeded) then Timeout
      else if Is(debateErr.value, MaxTurnsReached) then MaxTurns
      else ModeratorFailed
    else if StorageReason(results).Some? then StorageReason(results).value
    else if results != [] && Speakers(results) == {} then AllAgentsFailed
    else Complete
  }

  method DebateIncompleteReason(debateErr: Option<Err>, results: seq<TurnResult>) returns (reason: Reason)
    ensures reason == IncompleteReason(debateErr, results)
  {
    if debateErr.Some? {
      if Is(debateErr.value, DeadlineExceeded) {
        return Timeout;
      }
      if Is(debateErr.value, MaxTurnsReached) {
        return MaxTurns;
      }
      return ModeratorFailed;
    }
    for i := 0 to |results|
      invariant StorageReason(results) == StorageReason(results[i..])
    {
      if HasFailure(results[i], Persistence) {
        return PersistenceFailed;
      }
      if HasFailure(results[i], Mapping) {
        return MappingFailed;
      }
      assert results[i..][1..] == results[i + 1..];
    }
    var n := DistinctRespondingSpeakers(results);
    if |results| > 0 && n == 0 {
      return AllAgentsFailed;
    }
    return Complete;
  }

  lemma {:induction false} StorageReasonIsFirst(results: seq<TurnResult>) returns (i: nat)
    ensures StorageReason(results).None? <==> !AnyStorageFailure(results)
    ensures StorageReason(results).Some? ==>
      && FirstStorageFailure(results, i)
      && StorageReason(results).value == (if HasFailure(results[i], Persistence) then PersistenceFailed else MappingFailed)
  {
    i := 0;
    if results != [] && !StorageFailure(results[0]) {
      var k := StorageReasonIsFirst(results[1..]);
      i := k + 1;
      if AnyStorageFailure(results) {
        var j :| 0 <= j < |results| && StorageFailure(results[j]);
        assert StorageFailure(results[1..][j - 1]);
      }
      forall j | 0 <= j < |results| - 1
        ensures results[1..][j] == results[j + 1]
      {}
    }
  }

  /** The reported reason is the right one, with the first lost turn deciding between persistence and mapping. */
  lemma {:induction false} ReasonExplains(debateErr: Option<Err>, results: seq<TurnResult>)
    ensures Explains(IncompleteReason(debateErr, results), debateErr, results)
  {
    var i := StorageReasonIsFirst(results);
  }

  /** A debate counts as complete exactly when the moderator ended it, nothing was lost and somebody answered. */
  lemma {:induction false} CompleteWhen(debateErr: Option<Err>, results: seq<TurnResult>)
    ensures IncompleteReason(debateErr, results).Complete? <==>
      debateErr.None? && !AnyStorageFailure(results) && (results == [] || Speakers(results) != {})
  {
    var i := StorageReasonIsFirst(results);
  }

  // ---------------------------------------------------------------- running the chosen turns

  datatype Debated = Debated(acts: seq<Act>, results: seq<TurnResult>, mapping: map<string, string>)

  function AfterTurn(d: Debated, t: TurnInput, o: TurnOut): Debated {
    Debated(d.acts + o.acts, d.results + [Record(t.agentId, o.text, o.err)], Remap(d.mapping, t, o.target))
  }

  function WebTurns(sessionId: string, turns: seq<TurnInput>, mapping: map<string, string>): Debated {
    if turns == [] then Debated([], [], mapping)
    else
      var n := |turns| - 1;
      var d := WebTurns(sessionId, turns[..n], mapping);
      AfterTurn(d, turns[n], WebTurn(sessionId, turns[n], Known(d.mapping, turns[n].agentId)))
  }

  function McpTurns(sessionId: string, turns: seq<TurnInput>, mapping: map<string, string>): Debated {
    if turns == [] then Debated([], [], mapping)
    else
      var n := |turns| - 1;
      var d := McpTurns(sessionId, turns[..n], mapping);
      AfterTurn(d, turns[n], McpTurn(sessionId, turns[n], Known(d.mapping, turns[n].agentId)))
  }

  method RunWebTurns(s: Session, turns: seq<TurnInput>) returns (results: seq<TurnResult>)
    modifies s
    ensures var d := WebTurns(s.sessionId, turns, old(s.mapping));
      s.acts == old(s.acts) + d.acts && results == d.results && s.mapping == d.mapping
  {
    hide WebTurn, Remap, Record;
    results := [];
    for i := 0 to |turns|
      invariant var d := WebTurns(s.sessionId, turns[..i], old(s.mapping));
        s.acts == old(s.acts) + d.acts && results == d.results && s.mapping == d.mapping
    {
      assert turns[..i + 1][..i] == turns[..i];
      var text, err := s.RunWebTurn(turns[i]);
      results := results + [Record(turns[i].agentId, text, err)];
    }
    assert turns[..|turns|] == turns;
  }

  method RunMcpTurns(s: Session, turns: seq<TurnInput>) returns (results: seq<TurnResult>)
    modifies s
    ensures var d := McpTurns(s.sessionId, turns, old(s.mapping));
      s.acts == old(s.acts) + d.acts && results == d.results && s.mapping == d.mapping
  {
    hide McpTurn, Remap, Record;
    results := [];
    for i := 0 to |turns|
      invariant var d := McpTurns(s.sessionId, turns[..i], old(s.mapping));
        s.acts == old(s.acts) + d.acts && results == d.results && s.mapping == d.mapping
    {
      assert turns[..i + 1][..i] == turns[..i];
      var text, err := s.RunMcpTurn(turns[i]);
      results := results + [Record(turns[i].agentId, text, err)];
    }
    assert turns[..|turns|] == turns;
  }

  // ---------------------------------------------------------------- the web run

  // What the environment decides besides the turns.
  datatype Env = Env(
    startWritten: bool,            // RUN_STARTED reached the client
    beforeDeadline: bool,          // the debate's deadline has not passed when the turns are done
    spanish: bool,
    synthesis: Option<string>,     // the moderator's consolidation, None when that call failed
    noteFault: Fault, closingFault: Fault)

  function ReasonName(r: Reason): string {
    match r
    case Complete => ""
    case Timeout => "timeout"
    case MaxTurns => "max_turns"
    case ModeratorFailed => "moderator_error"
    case PersistenceFailed => "persistence_error"
    case MappingFailed => "session_mapping_error"
    case AllAgentsFailed => "all_agents_failed"
  }

  function Announcement(r: Reason): Event {
    Custom("debate.incomplete", ReasonName(r))
  }

  // Display texts are kept to their gist.
  function Note(r: Reason): (note: Option<string>)
    ensures note.None? <==> r.Complete? || r.AllAgentsFailed?
  {
    match r
    case Complete => None
    case AllAgentsFailed => None
    case Timeout => Some("time limit reached")
    case MaxTurns => Some("turn limit reached")
    case ModeratorFailed => Some("ended early")
    case PersistenceFailed => Some("replies not saved")
    case MappingFailed => Some("continuity not saved")
  }

  function NobodyApplies(spanish: bool): string {
    if spanish then "nadie puede ayudar"
    else "nobody can help"
  }

  function EverybodyFailed(spanish: bool): string {
    if spanish then "todos fallaron"
    else "all failed"
  }

  predicate WantsSynthesis(reason: Reason, results: seq<TurnResult>) {
    reason.Complete? && |Speakers(results)| >= 2
  }

  // The last thing the moderator says, if anything.
  function Closing(reason: Reason, results: seq<TurnResult>, env: Env): Option<string> {
    if results == [] then Some(NobodyApplies(env.spanish))
    else if Speakers(results) == {} then Some(EverybodyFailed(env.spanish))
    else if WantsSynthesis(reason, results) && env.beforeDeadline && env.synthesis.Some? && env.synthesis.value != "" then env.synthesis
    else None
  }

  // Saving a moderator message first and streaming it only once saved; a failed save ends the run.
  function Say(text: string, f: Fault): seq<Act> {
    [Saved(ModeratorMsg(text), f)] +
    if Acked(f) then
      [Remembered(ModeratorMsg(text)), Sent(ModeratorStart), Sent(ModeratorText(text)), Sent(ModeratorEnd)]
    else
      [Sent(Announcement(PersistenceFailed)), Sent(RunError("not saved"))]
  }

  function Ending(closing: Option<string>, f: Fault): seq<Act> {
    match closing
    case None => [Sent(RunFinished)]
    case Some(text) => Say(text, f) + if Acked(f) then [Sent(RunFinished)] else []
  }

  // Announcing an incomplete debate, with a visible note unless the closing message explains it anyway.
  function Opening(reason: Reason, f: Fault): seq<Act> {
    if reason.Complete? then []
    else [Sent(Announcement(reason))] + if Note(reason).Some? then Say(Note(reason).value, f) else []
  }

  predicate NoteLost(reason: Reason, f: Fault) {
    Note(reason).Some? && !Acked(f)
  }

  function Outcome(debateErr: Option<Err>, results: seq<TurnResult>, env: Env): seq<Act> {
    if debateErr.Some? && results == [] then [Sent(RunError("moderator failed"))]
    else
      var reason := IncompleteReason(debateErr, results);
      Opening(reason, env.noteFault) +
      if NoteLost(reason, env.noteFault) then []
      else Ending(Closing(reason, results, env), env.closingFault)
  }

  function GroupActs(sessionId: string, turns: seq<TurnInput>, debateErr: Option<Err>, mapping: map<string, string>, env: Env): seq<Act> {
    if !env.startWritten then [Sent(RunStarted)]
    else
      var d := WebTurns(sessionId, turns, mapping);
      [Sent(RunStarted)] + d.acts + Outcome(debateErr, d.results, env)
  }

  method EmitModeratorMessage(s: Session, text: string, f: Fault) returns (ok: bool)
    modifies s`acts
    ensures ok == Acked(f)
    ensures s.acts == old(s.acts) + Say(text, f)
  {
    ok := s.AddMessage(ModeratorMsg(text), f);
    if ok {
      s.Remember(ModeratorMsg(text));
      s.Send(ModeratorStart);
      s.Send(ModeratorText(text));
      s.Send(ModeratorEnd);
    } else {
      s.Send(Custom("debate.incomplete", "persistence_error"));
      s.Send(RunError("not saved"));
    }
  }

  // The moderator's last word, then the end of the run.
  method Close(s: Session, reason: Reason, speakers: nat, results: seq<TurnResult>, env: Env)
    requires speakers == |Speakers(results)|
    modifies s`acts
    ensures s.acts == old(s.acts) + Ending(Closing(reason, results, env), env.closingFault)
  {
    hide Say, Speakers, NobodyApplies, EverybodyFailed;
    var ok := true;
    if |results| == 0 {
      ok := EmitModeratorMessage(s, NobodyApplies(env.spanish), env.closingFault);
    } else if speakers == 0 {
      ok := EmitModeratorMessage(s, EverybodyFailed(env.spanish), env.closingFault);
    } else if reason == Complete && speakers >= 2 && env.beforeDeadline {
      if env.synthesis.Some? && env.synthesis.value != "" {
        ok := EmitModeratorMessage(s, env.synthesis.value, env.closingFault);
      }
    }
    if !ok {
      return;
    }
    s.Send(RunFinished);
  }

  method Announce(s: Session, reason: Reason, f: Fault) returns (ok: bool)
    modifies s`acts
    ensures s.acts == old(s.acts) + Opening(reason, f) && ok == !NoteLost(reason, f)
  {
    hide Say, ReasonName, Note;
    ok := true;
    if reason != Complete {
      s.Send(Custom("debate.incomplete", ReasonName(reason)));
      if reason != AllAgentsFailed {
        ok := EmitModeratorMessage(s, Note(reason).value, f);
      }
    }
  }

  method Conclude(s: Session, debateErr: Option<Err>, results: seq<TurnResult>, env: Env)
    modifies s`acts
    ensures s.acts == old(s.acts) + Outcome(debateErr, results, env)
  {
    hide IncompleteReason, Speakers, Opening, NoteLost, Ending, Closing;
    if debateErr.Some? && |results| == 0 {
      s.Send(RunError("moderator failed"));
      return;
    }
    var speakers := DistinctRespondingSpeakers(results);
    var reason := DebateIncompleteReason(debateErr, results);
    var ok := Announce(s, reason, env.noteFault);
    if !ok {
      return;
    }
    Close(s, reason, speakers, results, env);
  }

  method GroupChat(s: Session, turns: seq<TurnInput>, debateErr: Option<Err>, env: Env)
    modifies s
    ensures s.acts == old(s.acts) + GroupActs(s.sessionId, turns, debateErr, old(s.mapping), env)
  {
    hide WebTurns, Outcome;
    s.Send(RunStarted);
    if !env.startWritten {
      return;
    }
    var results := RunWebTurns(s, turns);
    Conclude(s, debateErr, results, env);
  }

  // ---------------------------------------------------------------- the MCP call

  datatype Section =
    | Reply(agentId: string, text: string)
    | FailedReply(agentId: string, text: string, problem: string)
    | Notice(note: string)
    | Synthesis(consolidated: string)
    | SynthesisUnsaved

  datatype CallResult =
    | Refused                                          // the call itself fails
    | NobodyHelps
    | Collected(sections: seq<Section>, isError: bool)

  function SectionOf(r: TurnResult): Section {
    if r.err.None? then Reply(r.agentId, r.text)
    else FailedReply(r.agentId, r.text,
      if HasFailure(r, Persistence) then "reply not saved"
      else if HasFailure(r, Mapping) then "continuity not saved"
      else "not completed")
  }

  function Sections(results: seq<TurnResult>): seq<Section> {
    seq(|results|, i requires 0 <= i < |results| => SectionOf(results[i]))
  }

  function EndNote(debateErr: Option<Err>): seq<Section> {
    if debateErr.None? then []
    else [Notice(
      if Is(debateErr.value, DeadlineExceeded) then "timeout"
      else if Is(debateErr.value, MaxTurnsReached) then "turn limit"
      else "moderator failed")]
  }

  // The consolidation an MCP call adds, None when it asks for none, the call fails or it is empty.
  function McpSynthesis(debateErr: Option<Err>, results: seq<TurnResult>, synthesis: Option<string>): Option<string> {
    if debateErr.Some? || AnyStorageFailure(results) || |Speakers(results)| < 2 then None
    else if synthesis == Some("") then None
    else synthesis
  }

  function CallOutcome(debateErr: Option<Err>, results: seq<TurnResult>, synthesis: Option<string>, f: Fault): (r: (CallResult, seq<Act>)) {
    if debateErr.Some? && results == [] then (Refused, [])
    else if results == [] then (NobodyHelps, [])
    else
      var incomplete := debateErr.Some? || AnyStorageFailure(results);
      var said := McpSynthesis(debateErr, results, synthesis);
      var unsaved := said.Some? && !Acked(f);
      (Collected(
         Sections(results) + EndNote(debateErr)
           + (if said.Some? then [Synthesis(said.value)] else [])
           + (if unsaved then [SynthesisUnsaved] else []),
         Speakers(results) == {} || incomplete || unsaved),
       if said.Some? then [Saved(ModeratorMsg(said.value), f)] else [])
  }

  lemma {:induction false} LostGrows(results: seq<TurnResult>, r: TurnResult)
    ensures AnyStorageFailure(results + [r]) <==> AnyStorageFailure(results) || StorageFailure(r)
  {
    if AnyStorageFailure(results) {
      var i :| 0 <= i < |results| && StorageFailure(results[i]);
      assert StorageFailure((results + [r])[i]);
    }
    if StorageFailure(r) {
      assert StorageFailure((results + [r])[|results|]);
    }
  }

  method CollectSections(results: seq<TurnResult>) returns (parts: seq<Section>, lost: bool)
    ensures parts == Sections(results) && lost == AnyStorageFailure(results)
  {
    parts, lost := [], false;
    for i := 0 to |results|
      invariant parts == Sections(results[..i])
      invariant lost == AnyStorageFailure(results[..i])
    {
      var r := results[i];
      if r.err.Some? {
        var problem := "not completed";
        if HasFailure(r, Persistence) {
          problem := "reply not saved";
        } else if HasFailure(r, Mapping) {
          problem := "continuity not saved";
        }
        parts := parts + [FailedReply(r.agentId, r.text, problem)];
      } else {
        parts := parts + [Reply(r.agentId, r.text)];
      }
      LostGrows(results[..i], r);
      assert results[..i + 1] == results[..i] + [r];
      if HasFailure(r, Persistence) || HasFailure(r, Mapping) {
        lost := true;
      }
    }
    assert results[..|results|] == results;
  }

  method AddSynthesis(s: Session, parts: seq<Section>, text: string, f: Fault) returns (all: seq<Section>, ok: bool)
    modifies s`acts
    ensures s.acts == old(s.acts) + [Saved(ModeratorMsg(text), f)] && ok == Acked(f)
    ensures all == parts + [Synthesis(text)] + (if ok then [] else [SynthesisUnsaved])
  {
    all := parts + [Synthesis(text)];
    ok := s.AddMessage(ModeratorMsg(text), f);
    if !ok {
      all := all + [SynthesisUnsaved];
    }
  }

  method CollectDebate(s: Session, debateErr: Option<Err>, results: seq<TurnResult>, synthesis: Option<string>, f: Fault)
    returns (r: CallResult)
    modifies s`acts
    ensures var o := CallOutcome(debateErr, results, synthesis, f);
      r == o.0 && s.acts == old(s.acts) + o.1
  {
    hide AnyStorageFailure, Speakers, Sections, EndNote;
    if debateErr.Some? && |results| == 0 {
      return Refused;
    }
    if |results| == 0 {
      return NobodyHelps;
    }
    var parts, lost := CollectSections(results);
    parts := parts + EndNote(debateErr);
    var incomplete := debateErr.Some? || lost;
    var speakers := DistinctRespondingSpeakers(results);
    if !incomplete && speakers >= 2 && synthesis.Some? && synthesis.value != "" {
      var ok: bool;
      parts, ok := AddSynthesis(s, parts, synthesis.value, f);
      if !ok {
        incomplete := true;
      }
    }
    r := Collected(parts, speakers == 0 || incomplete);
  }

  method CallGroup(s: Session, turns: seq<TurnInput>, debateErr: Option<Err>, synthesis: Option<string>, f: Fault)
    returns (r: CallResult)
    modifies s
    ensures var d := McpTurns(s.sessionId, turns, old(s.mapping));
      var o := CallOutcome(debateErr, d.results, synthesis, f);
      r == o.0 && s.acts == old(s.acts) + d.acts + o.1 && s.mapping == d.mapping
  {
    hide McpTurns, CallOutcome;
    var results := RunMcpTurns(s, turns);
    r := CollectDebate(s, debateErr, results, synthesis, f);
  }
}
