/** What every web debate run keeps, whatever the moderator, the agents and the store do. */
module DebateLifecycle {
  import opened Prelude
  import opened TurnErrors
  import opened Turn
  import opened Transcript
  import opened Debate

  // ---------------------------------------------------------------- one start, one terminal event, last

  predicate Terminal(e: Event) {
    e.RunFinished? || e.RunError?
  }

  ghost predicate Quiet(acts: seq<Act>) {
    forall i | 0 <= i < |acts| :: acts[i].Sent? ==> !Lifecycle(acts[i].event)
  }

  lemma {:induction false} AgentActsQuiet(agentId: string, calls: seq<WriterCall>)
    ensures Quiet(AgentActs(agentId, calls))
  {
    if calls == [] {
    } else {
      AgentActsQuiet(agentId, calls[..|calls| - 1]);
    }
  }

  lemma {:induction false} WebTurnQuiet(sessionId: string, t: TurnInput, known: string)
    ensures Quiet(WebTurn(sessionId, t, known).acts)
  {
    hide AgentActs;
    AgentActsQuiet(t.agentId, t.calls);
    assert Quiet(WebPersist(sessionId, t, known).acts);
  }

  lemma {:induction false} WebTurnsQuiet(sessionId: string, turns: seq<TurnInput>, mapping: map<string, string>)
    ensures Quiet(WebTurns(sessionId, turns, mapping).acts)
  {
    hide WebTurn;
    if turns == [] {
    } else {
      var n := |turns| - 1;
      WebTurnsQuiet(sessionId, turns[..n], mapping);
      WebTurnQuiet(sessionId, turns[n], Known(WebTurns(sessionId, turns[..n], mapping).mapping, turns[n].agentId));
    }
  }

  // A stretch of a run that closes it: one terminal event, at the very end.
  ghost predicate Closes(acts: seq<Act>) {
    && acts != []
    && acts[|acts| - 1].Sent? && Terminal(acts[|acts| - 1].event)
    && Quiet(acts[..|acts| - 1])
  }

  lemma {:induction false} QuietThenCloses(a: seq<Act>, b: seq<Act>)
    requires Quiet(a) && Closes(b)
    ensures Closes(a + b)
  {
    assert (a + b)[..|a + b| - 1] == a + b[..|b| - 1];
  }

  lemma {:induction false} SayClosesOrNot(text: string, f: Fault)
    ensures if Acked(f) then Quiet(Say(text, f)) else Closes(Say(text, f))
  {}

  lemma {:induction false} EndingCloses(closing: Option<string>, f: Fault)
    ensures Closes(Ending(closing, f))
  {
    if closing.Some? {
      SayClosesOrNot(closing.value, f);
      if Acked(f) {
        QuietThenCloses(Say(closing.value, f), [Sent(RunFinished)]);
      }
      assert Say(closing.value, f) + [] == Say(closing.value, f);
    }
  }

  lemma {:induction false} TerminalCloses(e: Event)
    requires Terminal(e)
    ensures Closes([Sent(e)])
  {}

  lemma {:induction false} OpeningCloses(reason: Reason, f: Fault)
    ensures if NoteLost(reason, f) then Closes(Opening(reason, f)) else Quiet(Opening(reason, f))
  {
    hide Say, Note;
    if Note(reason).Some? {
      SayClosesOrNot(Note(reason).value, f);
      if NoteLost(reason, f) {
        QuietThenCloses([Sent(Announcement(reason))], Say(Note(reason).value, f));
      }
    }
  }

  lemma {:induction false} OutcomeCloses(debateErr: Option<Err>, results: seq<TurnResult>, env: Env)
    ensures Closes(Outcome(debateErr, results, env))
  {
    hide IncompleteReason, Closing, Say, Note, Ending, Closes, Quiet;
    if debateErr.Some? && results == [] {
      assert Closes([Sent(RunError("moderator failed"))]) by { TerminalCloses(RunError("moderator failed")); }
    } else {
      var reason := IncompleteReason(debateErr, results);
      OpeningCloses(reason, env.noteFault);
      var ending := Ending(Closing(reason, results, env), env.closingFault);
      EndingCloses(Closing(reason, results, env), env.closingFault);
      if NoteLost(reason, env.noteFault) {
        assert Opening(reason, env.noteFault) + [] == Opening(reason, env.noteFault);
      } else {
        QuietThenCloses(Opening(reason, env.noteFault), ending);
      }
    }
  }

  /**
   * A run whose RUN_STARTED was written ends in exactly one terminal event and
   * carries no other lifecycle event after its start; otherwise it sends nothing more.
   */
  lemma {:induction false} OneTerminalLast(
      sessionId: string, turns: seq<TurnInput>, debateErr: Option<Err>, mapping: map<string, string>, env: Env)
    ensures var acts := GroupActs(sessionId, turns, debateErr, mapping, env);
      && acts[0] == Sent(RunStarted)
      && (if env.startWritten then Closes(acts[1..]) else acts[1..] == [])
  {
    hide WebTurns, Outcome, Closes;
    var d := WebTurns(sessionId, turns, mapping);
    WebTurnsQuiet(sessionId, turns, mapping);
    OutcomeCloses(debateErr, d.results, env);
    QuietThenCloses(d.acts, Outcome(debateErr, d.results, env));
    var acts := GroupActs(sessionId, turns, debateErr, mapping, env);
    if env.startWritten {
      assert acts[1..] == d.acts + Outcome(debateErr, d.results, env);
    }
  }

  // ---------------------------------------------------------------- a finished run is not silent

  ghost predicate Finished(acts: seq<Act>) {
    acts != [] && acts[|acts| - 1] == Sent(RunFinished)
  }

  ghost predicate ModeratorSpoke(acts: seq<Act>) {
    exists i | 0 <= i < |acts| :: acts[i].Sent? && acts[i].event.ModeratorText?
  }

  ghost predicate AllModeratorSavesAcked(acts: seq<Act>) {
    forall i | 0 <= i < |acts| :: acts[i].Saved? && acts[i].msg.ModeratorMsg? ==> Acked(acts[i].fault)
  }

  lemma {:induction false} AgentActsOnlySend(agentId: string, calls: seq<WriterCall>)
    ensures forall i | 0 <= i < |AgentActs(agentId, calls)| ::
      AgentActs(agentId, calls)[i].Sent? && !AgentActs(agentId, calls)[i].event.ModeratorText?
  {
    if calls == [] {
    } else {
      AgentActsOnlySend(agentId, calls[..|calls| - 1]);
    }
  }

  lemma {:induction false} TurnSavesNoModerator(sessionId: string, t: TurnInput, known: string)
    ensures AllModeratorSavesAcked(WebTurn(sessionId, t, known).acts)
  {
    hide AgentActs;
    AgentActsOnlySend(t.agentId, t.calls);
    assert AllModeratorSavesAcked(WebPersist(sessionId, t, known).acts);
  }

  lemma {:induction false} TurnsSaveNoModerator(sessionId: string, turns: seq<TurnInput>, mapping: map<string, string>)
    ensures AllModeratorSavesAcked(WebTurns(sessionId, turns, mapping).acts)
  {
    hide WebTurn;
    if turns == [] {
    } else {
      var n := |turns| - 1;
      TurnsSaveNoModerator(sessionId, turns[..n], mapping);
      TurnSavesNoModerator(sessionId, turns[n], Known(WebTurns(sessionId, turns[..n], mapping).mapping, turns[n].agentId));
    }
  }

  lemma {:induction false} FinishedOutcome(debateErr: Option<Err>, results: seq<TurnResult>, env: Env)
    requires Finished(Outcome(debateErr, results, env))
    ensures Speakers(results) != {} || ModeratorSpoke(Outcome(debateErr, results, env))
    ensures AllModeratorSavesAcked(Outcome(debateErr, results, env))
    ensures debateErr.None? || results != []
  {
    hide IncompleteReason, Speakers, ReasonName, Note, NobodyApplies, EverybodyFailed;
    var acts := Outcome(debateErr, results, env);
    var reason := IncompleteReason(debateErr, results);
    if NoteLost(reason, env.noteFault) {
      assert false;
    }
    var closing := Closing(reason, results, env);
    var ending := Ending(closing, env.closingFault);
    assert acts == Opening(reason, env.noteFault) + ending;
    assert Finished(ending);
    if closing.Some? {
      assert Acked(env.closingFault);
      assert ending[3].event.ModeratorText?;
      assert acts[|Opening(reason, env.noteFault)| + 3] == ending[3];
    }
    assert AllModeratorSavesAcked(Opening(reason, env.noteFault));
    assert AllModeratorSavesAcked(ending);
  }

  /**
   * RUN_FINISHED tells three things: somebody answered or the moderator said
   * something, every moderator message was saved, and the moderator did not
   * fail before anyone spoke.
   */
  lemma {:induction false} FinishedIsNotSilent(
      sessionId: string, turns: seq<TurnInput>, debateErr: Option<Err>, mapping: map<string, string>, env: Env)
    requires Finished(GroupActs(sessionId, turns, debateErr, mapping, env))
    ensures var acts := GroupActs(sessionId, turns, debateErr, mapping, env);
      var results := WebTurns(sessionId, turns, mapping).results;
      && (Speakers(results) != {} || ModeratorSpoke(acts))
      && AllModeratorSavesAcked(acts)
      && (debateErr.None? || results != [])
  {
    hide WebTurns, Outcome, Speakers;
    var d := WebTurns(sessionId, turns, mapping);
    var outcome := Outcome(debateErr, d.results, env);
    var acts := GroupActs(sessionId, turns, debateErr, mapping, env);
    OutcomeCloses(debateErr, d.results, env);
    assert acts == [Sent(RunStarted)] + d.acts + outcome;
    FinishedOutcome(debateErr, d.results, env);
    TurnsSaveNoModerator(sessionId, turns, mapping);
    if ModeratorSpoke(outcome) {
      var i :| 0 <= i < |outcome| && outcome[i].Sent? && outcome[i].event.ModeratorText?;
      assert acts[1 + |d.acts| + i] == outcome[i];
    }
  }

  // ---------------------------------------------------------------- every loss is announced

  // A save or a mapping whose success was never confirmed.
  predicate Lost(a: Act) {
    (a.Saved? && !Acked(a.fault)) || (a.Mapped? && !Acked(a.mapFault))
  }

  ghost predicate LosesSomething(acts: seq<Act>) {
    exists i | 0 <= i < |acts| :: Lost(acts[i])
  }

  lemma {:induction false} StoreFailureKind(kind: Kind, f: Fault)
    ensures HasTurnFailure(StoreFailure(kind, f), kind) <==> !Acked(f)
    ensures forall k | HasTurnFailure(StoreFailure(kind, f), k) :: k == kind
  {}

  lemma {:induction false} PersistLoss(sessionId: string, t: TurnInput, known: string)
    requires LosesSomething(WebPersist(sessionId, t, known).acts)
    ensures var e := WebPersist(sessionId, t, known).err;
      HasTurnFailure(e, Persistence) || HasTurnFailure(e, Mapping)
  {
    hide Has, Join, TranscriptText, MappingTarget;
    var r := t.result.value;
    var s1 := StoreFailure(Persistence, t.rotationFault);
    var e1 := if r.rotated && !Acked(t.rotationFault) then Join(None, s1) else None;
    var s2 := StoreFailure(Persistence, t.replyFault);
    var e2 := if Acked(t.replyFault) then e1 else Join(e1, s2);
    var s3 := StoreFailure(Mapping, t.mappingFault);
    StoreFailureKind(Persistence, t.rotationFault);
    StoreFailureKind(Persistence, t.replyFault);
    StoreFailureKind(Mapping, t.mappingFault);
    forall k: Kind
      ensures HasTurnFailure(Join(None, s1), k) <==> HasTurnFailure(None, k) || HasTurnFailure(s1, k)
      ensures HasTurnFailure(Join(e1, s2), k) <==> HasTurnFailure(e1, k) || HasTurnFailure(s2, k)
      ensures HasTurnFailure(Join(e2, s3), k) <==> HasTurnFailure(e2, k) || HasTurnFailure(s3, k)
    {
      JoinKeepsKinds(None, s1, k);
      JoinKeepsKinds(e1, s2, k);
      JoinKeepsKinds(e2, s3, k);
    }
  }

  lemma {:induction false} TurnLoss(sessionId: string, t: TurnInput, known: string)
    requires LosesSomething(WebTurn(sessionId, t, known).acts)
    ensures var o := WebTurn(sessionId, t, known);
      StorageFailure(Record(t.agentId, o.text, o.err))
  {
    hide WebPersist, Has, Join, AgentActs, TurnErrorKind, KindsOf, TranscriptText;
    var o := WebTurn(sessionId, t, known);
    AgentActsOnlySend(t.agentId, t.calls);
    var p := WebPersist(sessionId, t, known);
    assert LosesSomething(p.acts);
    PersistLoss(sessionId, t, known);
    JoinKeepsKinds(NewTurnError(Agent, t.err), p.err, Persistence);
    JoinKeepsKinds(NewTurnError(Agent, t.err), p.err, Mapping);
    RecordedFailures(t.agentId, o.text, o.err, Persistence);
    RecordedFailures(t.agentId, o.text, o.err, Mapping);
  }

  lemma {:induction false} TurnsLoss(sessionId: string, turns: seq<TurnInput>, mapping: map<string, string>)
    requires LosesSomething(WebTurns(sessionId, turns, mapping).acts)
    ensures AnyStorageFailure(WebTurns(sessionId, turns, mapping).results)
  {
    hide WebTurn, StorageFailure, Record, Lost;
    var n := |turns| - 1;
    var d := WebTurns(sessionId, turns[..n], mapping);
    var known := Known(d.mapping, turns[n].agentId);
    var o := WebTurn(sessionId, turns[n], known);
    LostGrows(d.results, Record(turns[n].agentId, o.text, o.err));
    if LosesSomething(d.acts) {
      TurnsLoss(sessionId, turns[..n], mapping);
    } else {
      assert LosesSomething(o.acts);
      TurnLoss(sessionId, turns[n], known);
    }
  }

  ghost predicate Announced(acts: seq<Act>) {
    exists i | 0 <= i < |acts| :: acts[i].Sent? && acts[i].event.Custom? && acts[i].event.subType == "debate.incomplete"
  }

  lemma {:induction false} SayAnnounces(text: string, f: Fault)
    requires LosesSomething(Say(text, f))
    ensures Announced(Say(text, f))
  {
    hide ReasonName;
    assert Say(text, f)[1] == Sent(Announcement(PersistenceFailed));
  }

  lemma {:induction false} EndingAnnounces(closing: Option<string>, f: Fault)
    requires LosesSomething(Ending(closing, f))
    ensures Announced(Ending(closing, f))
  {
    hide ReasonName;
    assert closing.Some?;
    assert Ending(closing, f) == Say(closing.value, f) + if Acked(f) then [Sent(RunFinished)] else [];
    assert LosesSomething(Say(closing.value, f));
    SayAnnounces(closing.value, f);
    assert !Acked(f);
  }

  lemma {:induction false} OutcomeAnnounces(debateErr: Option<Err>, results: seq<TurnResult>, env: Env)
    requires LosesSomething(Outcome(debateErr, results, env)) || AnyStorageFailure(results)
    ensures Announced(Outcome(debateErr, results, env))
  {
    hide IncompleteReason, Closing, Say, Note, Ending, ReasonName;
    CompleteWhen(debateErr, results);
    var acts := Outcome(debateErr, results, env);
    var reason := IncompleteReason(debateErr, results);
    if reason.Complete? {
      var ending := Ending(Closing(reason, results, env), env.closingFault);
      assert acts == ending;
      EndingAnnounces(Closing(reason, results, env), env.closingFault);
    } else if !(debateErr.Some? && results == []) {
      assert acts[0] == Sent(Announcement(reason));
    }
  }

  // A loss in a run is a loss in its outcome, or a turn reports it.
  lemma {:induction false} WhereLost(
      sessionId: string, turns: seq<TurnInput>, debateErr: Option<Err>, mapping: map<string, string>, env: Env)
    requires env.startWritten && LosesSomething(GroupActs(sessionId, turns, debateErr, mapping, env))
    ensures var d := WebTurns(sessionId, turns, mapping);
      LosesSomething(Outcome(debateErr, d.results, env)) || AnyStorageFailure(d.results)
  {
    hide WebTurns, Outcome, AnyStorageFailure;
    var d := WebTurns(sessionId, turns, mapping);
    var outcome := Outcome(debateErr, d.results, env);
    var acts := GroupActs(sessionId, turns, debateErr, mapping, env);
    assert acts == [Sent(RunStarted)] + d.acts + outcome;
    var i :| 0 <= i < |acts| && Lost(acts[i]);
    if i <= |d.acts| {
      assert d.acts[i - 1] == acts[i];
      TurnsLoss(sessionId, turns, mapping);
    } else {
      assert outcome[i - 1 - |d.acts|] == acts[i];
    }
  }

  lemma {:induction false} AnnouncedBeforeEnd(acts: seq<Act>)
    requires Announced(acts) && Closes(acts)
    ensures Announced(acts[..|acts| - 1])
  {
    var j :| 0 <= j < |acts| && acts[j].Sent? && acts[j].event.Custom? && acts[j].event.subType == "debate.incomplete";
    assert acts[..|acts| - 1][j] == acts[j];
  }

  lemma {:induction false} ClosesIsNotEmpty(acts: seq<Act>)
    requires Closes(acts)
    ensures acts != []
  {}

  /**
   * Nothing is lost quietly: when any save or mapping of a started run goes
   * unconfirmed, or a turn reports a storage failure of any other origin, a
   * debate.incomplete event follows the turns and precedes the terminal event.
   */
  lemma {:induction false} LossIsAnnounced(
      sessionId: string, turns: seq<TurnInput>, debateErr: Option<Err>, mapping: map<string, string>, env: Env)
    requires env.startWritten
    requires
      || LosesSomething(GroupActs(sessionId, turns, debateErr, mapping, env))
      || AnyStorageFailure(WebTurns(sessionId, turns, mapping).results)
    ensures var d := WebTurns(sessionId, turns, mapping);
      var acts := GroupActs(sessionId, turns, debateErr, mapping, env);
      Announced(acts[1 + |d.acts|..|acts| - 1])
  {
    hide WebTurns, Outcome, LosesSomething, AnyStorageFailure, Announced, Closes;
    var d := WebTurns(sessionId, turns, mapping);
    var outcome := Outcome(debateErr, d.results, env);
    var acts := GroupActs(sessionId, turns, debateErr, mapping, env);
    if LosesSomething(acts) {
      WhereLost(sessionId, turns, debateErr, mapping, env);
    }
    OutcomeAnnounces(debateErr, d.results, env);
    OutcomeCloses(debateErr, d.results, env);
    AnnouncedBeforeEnd(outcome);
    assert outcome != [] by { ClosesIsNotEmpty(outcome); }
    assert acts == [Sent(RunStarted)] + d.acts + outcome;
    assert acts[1 + |d.acts|..|acts| - 1] == outcome[..|outcome| - 1];
  }

  lemma {:induction false} SaysNothingMore(text: string, f: Fault)
    ensures Announced(Say(text, f)) <==> !Acked(f)
  {
    hide ReasonName;
    if !Acked(f) {
      assert Say(text, f)[1] == Sent(Announcement(PersistenceFailed));
    }
  }

  lemma {:induction false} AnnouncedConcat(a: seq<Act>, b: seq<Act>)
    ensures Announced(a + b) <==> Announced(a) || Announced(b)
  {
    if Announced(a) {
      var i :| 0 <= i < |a| && a[i].Sent? && a[i].event.Custom? && a[i].event.subType == "debate.incomplete";
      assert (a + b)[i] == a[i];
    }
    if Announced(b) {
      var i :| 0 <= i < |b| && b[i].Sent? && b[i].event.Custom? && b[i].event.subType == "debate.incomplete";
      assert (a + b)[|a| + i] == b[i];
    }
  }

  lemma {:induction false} AnnouncesAtOnce(reason: Reason)
    ensures Announced([Sent(Announcement(reason))])
  {
    hide ReasonName;
    assert [Sent(Announcement(reason))][0].event.Custom?;
  }

  lemma {:induction false} QuietEnding(closing: Option<string>, f: Fault)
    requires !LosesSomething(Ending(closing, f))
    ensures !Announced(Ending(closing, f))
  {
    hide ReasonName;
    if closing.Some? {
      var said := Say(closing.value, f);
      assert Ending(closing, f)[0] == said[0];
      SaysNothingMore(closing.value, f);
      AnnouncedConcat(said, [Sent(RunFinished)]);
    }
  }

  /**
   * And nothing is announced without cause: after the turns of a debate that
   * got going, debate.incomplete is sent exactly when there is a reason or a
   * moderator message could not be saved.
   */
  lemma {:induction false} AnnouncedWhen(debateErr: Option<Err>, results: seq<TurnResult>, env: Env)
    requires debateErr.None? || results != []
    ensures Announced(Outcome(debateErr, results, env)) <==>
      !IncompleteReason(debateErr, results).Complete? || LosesSomething(Outcome(debateErr, results, env))
  {
    hide IncompleteReason, Closing, Say, Note, Announced, LosesSomething, ReasonName;
    var reason := IncompleteReason(debateErr, results);
    var closing := Closing(reason, results, env);
    if reason.Complete? {
      assert Outcome(debateErr, results, env) == Ending(closing, env.closingFault);
      if LosesSomething(Ending(closing, env.closingFault)) {
        EndingAnnounces(closing, env.closingFault);
      } else {
        QuietEnding(closing, env.closingFault);
      }
    } else {
      var head := [Sent(Announcement(reason))];
      AnnouncesAtOnce(reason);
      assert Outcome(debateErr, results, env) == head + Outcome(debateErr, results, env)[1..];
      AnnouncedConcat(head, Outcome(debateErr, results, env)[1..]);
    }
  }

  // ---------------------------------------------------------------- saved first, streamed after

  // Steps the save-first discipline never objects to.
  predicate Harmless(a: Act) {
    a.Saved? || a.Mapped? || (a.Sent? && !a.event.ModeratorText?)
  }

  lemma {:induction false} HarmlessWatched(w: Watch, acts: seq<Act>)
    requires forall i | 0 <= i < |acts| :: Harmless(acts[i])
    ensures WatchAll(w, acts).Some?
    decreases |acts|
  {
    if acts == [] {
    } else {
      HarmlessWatched(WatchStep(w, acts[0]).value, acts[1..]);
    }
  }

  lemma {:induction false} PersistWatched(w: Watch, sessionId: string, t: TurnInput, known: string)
    ensures var p := WebPersist(sessionId, t, known);
      && WatchAll(w, p.acts).Some?
      && (p.msg.Some? ==> WatchAll(w, p.acts).value.pending == p.msg)
  {
    hide TranscriptText, MappingTarget, Join, StoreFailure;
    var p := WebPersist(sessionId, t, known);
    HarmlessWatched(w, p.acts);
    if p.msg.Some? {
      var r := t.result.value;
      var head := if r.rotated then [Saved(RotationNotice(t.agentId), t.rotationFault)] else [];
      var tail := if p.target.Some? then [Mapped(t.agentId, p.target.value, t.mappingFault)] else [];
      assert p.acts == head + ([Saved(p.msg.value, t.replyFault)] + tail);
      HarmlessWatched(w, head);
      WatchConcat(w, head, [Saved(p.msg.value, t.replyFault)] + tail);
      var v := WatchAll(w, head).value;
      WatchConcat(v, [Saved(p.msg.value, t.replyFault)], tail);
    }
  }

  lemma {:induction false} TurnWatched(w: Watch, sessionId: string, t: TurnInput, known: string)
    ensures WatchAll(w, WebTurn(sessionId, t, known).acts).Some?
  {
    hide AgentActs, WebPersist, TranscriptText, Join;
    var select := [Sent(Custom("moderator.select", t.agentId))];
    HarmlessWatched(w, select);
    if t.timeLeft && t.mappingLoad.None? {
      var p := WebPersist(sessionId, t, known);
      var streamed := AgentActs(t.agentId, t.calls);
      var grown := if p.msg.Some? then [Remembered(p.msg.value)] else [];
      var v := WatchAll(w, select).value;
      AgentActsOnlySend(t.agentId, t.calls);
      HarmlessWatched(v, streamed);
      var u := WatchAll(v, streamed).value;
      PersistWatched(u, sessionId, t, known);
      WatchConcat(u, p.acts, grown);
      WatchConcat(v, streamed, p.acts + grown);
      assert WebCall(t, p) == streamed + (p.acts + grown);
      WatchConcat(w, select, WebCall(t, p));
    }
  }

  lemma {:induction false} TurnsWatched(w: Watch, sessionId: string, turns: seq<TurnInput>, mapping: map<string, string>)
    ensures WatchAll(w, WebTurns(sessionId, turns, mapping).acts).Some?
  {
    hide WebTurn, WatchStep;
    if turns == [] {
    } else {
      var n := |turns| - 1;
      var d := WebTurns(sessionId, turns[..n], mapping);
      var known := Known(d.mapping, turns[n].agentId);
      TurnsWatched(w, sessionId, turns[..n], mapping);
      TurnWatched(WatchAll(w, d.acts).value, sessionId, turns[n], known);
      WatchConcat(w, d.acts, WebTurn(sessionId, turns[n], known).acts);
    }
  }

  lemma {:induction false} SayWatched(w: Watch, text: string, f: Fault)
    ensures WatchAll(w, Say(text, f)).Some?
  {
    hide ReasonName;
    var save := [Saved(ModeratorMsg(text), f)];
    var rest := Say(text, f)[1..];
    assert Say(text, f) == save + rest;
    WatchConcat(w, save, rest);
    var v := WatchAll(w, save).value;
    if Acked(f) {
      var sent := [Sent(ModeratorStart), Sent(ModeratorText(text)), Sent(ModeratorEnd)];
      assert rest == [Remembered(ModeratorMsg(text))] + sent;
      WatchConcat(v, [Remembered(ModeratorMsg(text))], sent);
      var u := WatchAll(v, [Remembered(ModeratorMsg(text))]).value;
      assert sent[1..][1..][1..] == [];
      assert WatchAll(u, sent[1..][1..]).Some?;
    } else {
      HarmlessWatched(v, rest);
    }
  }

  lemma {:induction false} EndingWatched(w: Watch, closing: Option<string>, f: Fault)
    ensures WatchAll(w, Ending(closing, f)).Some?
  {
    hide Say, WatchStep;
    var done := [Sent(RunFinished)];
    if closing.None? {
      HarmlessWatched(w, done);
    } else {
      SayWatched(w, closing.value, f);
      var tail := if Acked(f) then done else [];
      WatchConcat(w, Say(closing.value, f), tail);
      HarmlessWatched(WatchAll(w, Say(closing.value, f)).value, tail);
    }
  }

  lemma {:induction false} OpeningWatched(w: Watch, reason: Reason, f: Fault)
    ensures WatchAll(w, Opening(reason, f)).Some?
  {
    hide Say, Note, ReasonName, WatchStep, WatchAll;
    var start := [Sent(Announcement(reason))];
    HarmlessWatched(w, []);
    HarmlessWatched(w, start);
    if Note(reason).Some? {
      SayWatched(WatchAll(w, start).value, Note(reason).value, f);
      WatchConcat(w, start, Say(Note(reason).value, f));
    } else {
      assert start + [] == start;
    }
  }

  lemma {:induction false} OutcomeWatched(w: Watch, debateErr: Option<Err>, results: seq<TurnResult>, env: Env)
    ensures WatchAll(w, Outcome(debateErr, results, env)).Some?
  {
    hide Say, Ending, Closing, Note, ReasonName, IncompleteReason, WatchStep, WatchAll;
    if debateErr.Some? && results == [] {
      HarmlessWatched(w, [Sent(RunError("moderator failed"))]);
    } else {
      var reason := IncompleteReason(debateErr, results);
      OpeningWatched(w, reason, env.noteFault);
      var v := WatchAll(w, Opening(reason, env.noteFault)).value;
      var rest := if NoteLost(reason, env.noteFault) then [] else Ending(Closing(reason, results, env), env.closingFault);
      EndingWatched(v, Closing(reason, results, env), env.closingFault);
      HarmlessWatched(v, []);
      WatchConcat(w, Opening(reason, env.noteFault), rest);
    }
  }

  /** Every web run keeps the save-first discipline. */
  lemma {:induction false} RunWatched(
      sessionId: string, turns: seq<TurnInput>, debateErr: Option<Err>, mapping: map<string, string>, env: Env)
    ensures WatchAll(Watch(None, None), GroupActs(sessionId, turns, debateErr, mapping, env)).Some?
  {
    hide WebTurns, Outcome, WatchAll, WatchStep;
    var w := Watch(None, None);
    var start := [Sent(RunStarted)];
    HarmlessWatched(w, start);
    if env.startWritten {
      var v := WatchAll(w, start).value;
      var d := WebTurns(sessionId, turns, mapping);
      TurnsWatched(v, sessionId, turns, mapping);
      WatchConcat(w, start, d.acts);
      OutcomeWatched(WatchAll(v, d.acts).value, debateErr, d.results, env);
      WatchConcat(w, start + d.acts, Outcome(debateErr, d.results, env));
    }
  }

  /**
   * At every point of a web run the in-memory transcript is a subsequence of
   * the stored messages, and a moderator text in the stream was saved before.
   */
  lemma {:induction false} TranscriptStaysStored(
      sessionId: string, turns: seq<TurnInput>, debateErr: Option<Err>, mapping: map<string, string>, env: Env,
      k: nat, mem: seq<Msg>, stored: seq<Msg>)
    requires Subseq(mem, stored)
    requires k <= |GroupActs(sessionId, turns, debateErr, mapping, env)|
    ensures var acts := GroupActs(sessionId, turns, debateErr, mapping, env);
      Subseq(mem + RememberedBy(acts[..k]), stored + StoredBy(acts[..k]))
    ensures var acts := GroupActs(sessionId, turns, debateErr, mapping, env);
      k < |acts| && acts[k].Sent? && acts[k].event.ModeratorText? ==>
        exists j | 0 <= j < k :: acts[j] == Saved(ModeratorMsg(acts[k].event.text), Works)
  {
    hide GroupActs, WatchAll, Subseq;
    var acts := GroupActs(sessionId, turns, debateErr, mapping, env);
    RunWatched(sessionId, turns, debateErr, mapping, env);
    TranscriptIsStored(acts, k, mem, stored);
    if k < |acts| && acts[k].Sent? && acts[k].event.ModeratorText? {
      var j := ModeratorTextSavedFirst(acts, k);
    }
  }
}
