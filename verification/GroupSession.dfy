/**
 * Opening the session of a group conversation: resuming a personal session, or
 * creating, flagging and indexing a new one with compensation, then saving the
 * user's message. The web and the MCP surface do this separately.
 */
module GroupSession {
  import opened Prelude
  import opened Turn
  import Transcript

  // ---------------------------------------------------------------- what is stored

  datatype Session = Session(
    user: string, appName: string, isMultiAgent: bool, groupId: string, agentIds: seq<string>, messages: seq<Msg>)

  // Sessions and indices: (user, agent, session) in Redis and (group, session) in PostgreSQL; agent sessions by (session, agent).
  datatype Store = Store(
    sessions: map<string, Session>, userIndex: set<(string, string, string)>,
    groupIndex: set<(string, string)>, agentSessions: map<(string, string), string>)

  // A pipeline runs its commands one by one, so each may take effect or not.
  datatype Faults = Faults(
    get: Fault,
    createKey: Fault, createIndex: Fault,
    save: Fault, addToGroup: Fault, message: Fault,
    removeTook: bool, deleteKeyTook: bool, deleteIndexTook: bool, deleteAgentsTook: bool)

  datatype Request = Request(sessionId: string, groupId: string, user: string, roster: seq<string>, content: string)

  datatype Problem =
    | SessionNotFound | SessionStore | WrongGroup | AccessDenied | CreateFailed
    | SaveFailed | IndexFailed | MessageFailed

  datatype Opened = Ready(sessionId: string, session: Session) | Refused(problem: Problem)

  // A fresh UUID: nothing refers to it yet.
  ghost predicate Unused(s: Store, sid: string) {
    && sid !in s.sessions
    && (forall u, a :: (u, a, sid) !in s.userIndex)
    && (forall g :: (g, sid) !in s.groupIndex)
    && (forall a :: (sid, a) !in s.agentSessions)
  }

  function FirstAgent(roster: seq<string>): string {
    if roster == [] then "" else roster[0]
  }

  function UserMessage(req: Request): Msg {
    UserMsg(req.content, req.roster)
  }

  // ---------------------------------------------------------------- the effects of the store operations

  function Created(s: Store, sid: string, user: string, agent: string, f: Faults): Store {
    s.(sessions := if Took(f.createKey) then s.sessions[sid := Session(user, agent, false, "", [], [])] else s.sessions,
       userIndex := if Took(f.createIndex) then s.userIndex + {(user, agent, sid)} else s.userIndex)
  }

  function SavedAs(s: Store, sid: string, session: Session, f: Fault): Store {
    if Took(f) then s.(sessions := s.sessions[sid := session]) else s
  }

  function Indexed(s: Store, groupId: string, sid: string, f: Fault): Store {
    if Took(f) then s.(groupIndex := s.groupIndex + {(groupId, sid)}) else s
  }

  function WithMessage(session: Session, m: Msg): Session {
    session.(messages := Transcript.AddMessageScript(session.messages, m))
  }

  // The script refuses a missing session, whatever else happens.
  function Messaged(s: Store, sid: string, m: Msg, f: Fault): Store {
    if sid in s.sessions && Took(f) then s.(sessions := s.sessions[sid := WithMessage(s.sessions[sid], m)]) else s
  }

  function CleanedUp(s: Store, groupId: string, sid: string, user: string, agent: string, f: Faults): Store {
    Store(
      if f.deleteKeyTook then s.sessions - {sid} else s.sessions,
      if f.deleteIndexTook then s.userIndex - {(user, agent, sid)} else s.userIndex,
      if f.removeTook then s.groupIndex - {(groupId, sid)} else s.groupIndex,
      if f.deleteAgentsTook then map k | k in s.agentSessions && k.0 != sid :: s.agentSessions[k] else s.agentSessions)
  }

  // ---------------------------------------------------------------- opening a session

  function Flagged(user: string, req: Request): Session {
    Session(user, FirstAgent(req.roster), true, req.groupId, req.roster, [])
  }

  // The three steps after CreateSession, up to the first that fails.
  function FailedStep(f: Faults): Option<Problem> {
    if !Acked(f.save) then Some(SaveFailed)
    else if !Acked(f.addToGroup) then Some(IndexFailed)
    else if !Acked(f.message) then Some(MessageFailed)
    else None
  }

  // The store after the steps that were attempted.
  function Attempted(s: Store, req: Request, sid: string, f: Faults): Store {
    var s1 := SavedAs(Created(s, sid, req.user, FirstAgent(req.roster), f), sid, Flagged(req.user, req), f.save);
    if !Acked(f.save) then s1
    else
      var s2 := Indexed(s1, req.groupId, sid, f.addToGroup);
      if !Acked(f.addToGroup) then s2 else Messaged(s2, sid, UserMessage(req), f.message)
  }

  function OpenNew(s: Store, req: Request, sid: string, f: Faults): (Store, Opened) {
    var agent := FirstAgent(req.roster);
    if !(Acked(f.createKey) && Acked(f.createIndex)) then (Created(s, sid, req.user, agent, f), Refused(CreateFailed))
    else
      var t := Attempted(s, req, sid, f);
      match FailedStep(f)
      case Some(problem) => (CleanedUp(t, req.groupId, sid, req.user, agent, f), Refused(problem))
      case None => (t, Ready(sid, Flagged(req.user, req).(messages := [UserMessage(req)])))
  }

  function Resume(s: Store, req: Request, f: Faults): (Store, Opened) {
    if !Acked(f.get) then (s, Refused(SessionStore))
    else if req.sessionId !in s.sessions then (s, Refused(SessionNotFound))
    else
      var session := s.sessions[req.sessionId];
      if session.groupId != req.groupId then (s, Refused(WrongGroup))
      else if session.user != req.user then (s, Refused(AccessDenied))
      else
        var t := Messaged(s, req.sessionId, UserMessage(req), f.message);
        if !Acked(f.message) then (t, Refused(MessageFailed))
        else (t, Ready(req.sessionId, session.(messages := session.messages + [UserMessage(req)])))
  }

  function Open(s: Store, req: Request, sid: string, f: Faults): (Store, Opened) {
    if req.sessionId != "" then Resume(s, req, f) else OpenNew(s, req, sid, f)
  }

  // The MCP surface does not tell the two refusals of a foreign session apart.
  function McpProblem(p: Problem): Problem {
    if p.WrongGroup? then AccessDenied else p
  }

  // The web surface reports a failed flag or index as a store error.
  function WebProblem(p: Problem): Problem {
    if p.SaveFailed? || p.IndexFailed? then SessionStore else p
  }

  function Reported(o: Opened, p: Problem -> Problem): Opened {
    match o
    case Ready(_, _) => o
    case Refused(problem) => Refused(p(problem))
  }

  // ---------------------------------------------------------------- the two implementations

  class Backend {
    var sessions: map<string, Session>
    var userIndex: set<(string, string, string)>
    var groupIndex: set<(string, string)>
    var agentSessions: map<(string, string), string>

    function Contents(): Store
      reads this
    {
      Store(sessions, userIndex, groupIndex, agentSessions)
    }

    constructor (s: Store)
      ensures Contents() == s
    {
      sessions, userIndex, groupIndex, agentSessions := s.sessions, s.userIndex, s.groupIndex, s.agentSessions;
    }

    method GetSession(sid: string, f: Fault) returns (ok: bool, session: Option<Session>)
      ensures ok == Acked(f)
      ensures session == if ok && sid in sessions then Some(sessions[sid]) else None
    {
      ok, session := f == Works, None;
      if ok && sid in sessions {
        session := Some(sessions[sid]);
      }
    }

    method CreateSession(sid: string, user: string, agent: string, f: Faults) returns (ok: bool)
      modifies this
      ensures Contents() == Created(old(Contents()), sid, user, agent, f)
      ensures ok <==> Acked(f.createKey) && Acked(f.createIndex)
    {
      if f.createKey != Fails {
        sessions := sessions[sid := Session(user, agent, false, "", [], [])];
      }
      if f.createIndex != Fails {
        userIndex := userIndex + {(user, agent, sid)};
      }
      ok := f.createKey == Works && f.createIndex == Works;
    }

    method SaveSession(sid: string, session: Session, f: Fault) returns (ok: bool)
      modifies this
      ensures Contents() == SavedAs(old(Contents()), sid, session, f) && ok == Acked(f)
    {
      if f != Fails {
        sessions := sessions[sid := session];
      }
      ok := f == Works;
    }

    method AddSession(groupId: string, sid: string, f: Fault) returns (ok: bool)
      modifies this
      ensures Contents() == Indexed(old(Contents()), groupId, sid, f) && ok == Acked(f)
    {
      if f != Fails {
        groupIndex := groupIndex + {(groupId, sid)};
      }
      ok := f == Works;
    }

    method AddMessage(sid: string, m: Msg, f: Fault) returns (ok: bool)
      modifies this
      ensures Contents() == Messaged(old(Contents()), sid, m, f)
      ensures ok <==> old(sid in sessions) && Acked(f)
    {
      if sid !in sessions {
        return false;
      }
      if f != Fails {
        sessions := sessions[sid := WithMessage(sessions[sid], m)];
      }
      ok := f == Works;
    }

    // Best effort: the errors of both removals are only logged.
    method DeleteOrphanSession(groupId: string, sid: string, user: string, agent: string, f: Faults)
      modifies this
      ensures Contents() == CleanedUp(old(Contents()), groupId, sid, user, agent, f)
    {
      if f.removeTook {
        groupIndex := groupIndex - {(groupId, sid)};
      }
      if f.deleteKeyTook {
        sessions := sessions - {sid};
      }
      if f.deleteIndexTook {
        userIndex := userIndex - {(user, agent, sid)};
      }
      if f.deleteAgentsTook {
        agentSessions := map k | k in agentSessions && k.0 != sid :: agentSessions[k];
      }
    }

    method GetOrCreateGroupSession(req: Request, sid: string, f: Faults) returns (r: Opened)
      modifies this
      ensures var s := old(Contents());
        if req.sessionId != "" then
          Contents() == s &&
          r == (if !Acked(f.get) then Refused(SessionStore)
                else if req.sessionId !in s.sessions then Refused(SessionNotFound)
                else if s.sessions[req.sessionId].groupId != req.groupId then Refused(WrongGroup)
                else if s.sessions[req.sessionId].user != req.user then Refused(AccessDenied)
                else Ready(req.sessionId, s.sessions[req.sessionId]))
        else if !(Acked(f.createKey) && Acked(f.createIndex)) || (FailedStep(f).Some? && !FailedStep(f).value.MessageFailed?) then
          var o := OpenNew(s, req, sid, f);
          Contents() == o.0 && r == Reported(o.1, WebProblem)
        else
          r == Ready(sid, Flagged(req.user, req)) &&
          Contents() == Indexed(SavedAs(Created(s, sid, req.user, FirstAgent(req.roster), f), sid, Flagged(req.user, req), f.save),
            req.groupId, sid, f.addToGroup)
    {
      if req.sessionId != "" {
        var ok, session := GetSession(req.sessionId, f.get);
        if !ok {
          return Refused(SessionStore);
        }
        if session.None? {
          return Refused(SessionNotFound);
        }
        if session.value.groupId != req.groupId {
          return Refused(WrongGroup);
        }
        if session.value.user != req.user {
          return Refused(AccessDenied);
        }
        return Ready(req.sessionId, session.value);
      }
      var agent := FirstAgent(req.roster);
      var created := CreateSession(sid, req.user, agent, f);
      if !created {
        return Refused(CreateFailed);
      }
      var session := Session(req.user, agent, true, req.groupId, req.roster, []);
      var saved := SaveSession(sid, session, f.save);
      if !saved {
        DeleteOrphanSession(req.groupId, sid, req.user, agent, f);
        return Refused(SessionStore);
      }
      var indexed := AddSession(req.groupId, sid, f.addToGroup);
      if !indexed {
        DeleteOrphanSession(req.groupId, sid, req.user, agent, f);
        return Refused(SessionStore);
      }
      return Ready(sid, session);
    }

    method WebOpen(req: Request, sid: string, f: Faults) returns (r: Opened)
      modifies this
      ensures var o := Open(old(Contents()), req, sid, f);
        Contents() == o.0 && r == Reported(o.1, WebProblem)
    {
      r := GetOrCreateGroupSession(req, sid, f);
      if r.Refused? {
        return;
      }
      var m := UserMessage(req);
      var ok := AddMessage(r.sessionId, m, f.message);
      if !ok {
        if req.sessionId == "" {
          DeleteOrphanSession(req.groupId, r.sessionId, req.user, FirstAgent(req.roster), f);
        }
        return Refused(MessageFailed);
      }
      return Ready(r.sessionId, r.session.(messages := r.session.messages + [m]));
    }

    method McpOpen(req: Request, sid: string, f: Faults) returns (r: Opened)
      requires req.roster != []
      modifies this
      ensures var o := Open(old(Contents()), req, sid, f);
        Contents() == o.0 && r == Reported(o.1, McpProblem)
    {
      var session: Session;
      var id := req.sessionId;
      var created := false;
      if req.sessionId != "" {
        var ok, found := GetSession(req.sessionId, f.get);
        if !ok {
          return Refused(SessionStore);
        }
        if found.None? {
          return Refused(SessionNotFound);
        }
        if found.value.groupId != req.groupId || found.value.user != req.user {
          return Refused(AccessDenied);
        }
        session := found.value;
      } else {
        id := sid;
        var ok := CreateSession(sid, req.user, req.roster[0], f);
        if !ok {
          return Refused(CreateFailed);
        }
        session := Session(req.user, req.roster[0], true, req.groupId, req.roster, []);
        created := true;
        ok := SaveSession(sid, session, f.save);
        if !ok {
          DeleteOrphanSession(req.groupId, sid, req.user, req.roster[0], f);
          return Refused(SaveFailed);
        }
        ok := AddSession(req.groupId, sid, f.addToGroup);
        if !ok {
          DeleteOrphanSession(req.groupId, sid, req.user, req.roster[0], f);
          return Refused(IndexFailed);
        }
      }
      var m := UserMessage(req);
      var ok := AddMessage(id, m, f.message);
      if !ok {
        if created {
          DeleteOrphanSession(req.groupId, id, req.user, req.roster[0], f);
        }
        return Refused(MessageFailed);
      }
      return Ready(id, session.(messages := session.messages + [m]));
    }
  }

  // ---------------------------------------------------------------- all or nothing

  // Exactly what a new group session adds to the store.
  function WithGroupSession(s: Store, req: Request, sid: string): Store {
    s.(sessions := s.sessions[sid := Flagged(req.user, req).(messages := [UserMessage(req)])],
       userIndex := s.userIndex + {(req.user, FirstAgent(req.roster), sid)},
       groupIndex := s.groupIndex + {(req.groupId, sid)})
  }

  /** Success leaves a flagged, indexed session holding the user's message, and nothing else. */
  lemma {:induction false} CreatedWhole(s: Store, req: Request, sid: string, f: Faults)
    requires Unused(s, sid) && req.sessionId == "" && Open(s, req, sid, f).1.Ready?
    ensures Open(s, req, sid, f).0 == WithGroupSession(s, req, sid)
    ensures Open(s, req, sid, f).1 == Ready(sid, WithGroupSession(s, req, sid).sessions[sid])
  {
    var t := Open(s, req, sid, f).0;
    assert Transcript.AddMessageScript([], UserMessage(req)) == [UserMessage(req)];
    assert t.sessions == WithGroupSession(s, req, sid).sessions;
  }

  // The cleanup reached everything the attempt may have left behind.
  predicate CleanupComplete(f: Faults) {
    && f.deleteKeyTook && f.deleteIndexTook
    && (f.removeTook || !Acked(f.save) || !Took(f.addToGroup))
  }

  // What the attempted steps can have left: the session's key, its owner's index, and the group index once asked for.
  lemma {:induction false} AttemptedShape(s: Store, req: Request, sid: string, f: Faults)
    requires Unused(s, sid) && Acked(f.createKey) && Acked(f.createIndex)
    ensures var a := Attempted(s, req, sid, f);
      && sid in a.sessions && (forall k | k != sid :: k in a.sessions <==> k in s.sessions)
      && (forall k | k in s.sessions :: a.sessions[k] == s.sessions[k])
      && a.userIndex == s.userIndex + {(req.user, FirstAgent(req.roster), sid)}
      && a.groupIndex == (if Acked(f.save) && Took(f.addToGroup) then s.groupIndex + {(req.groupId, sid)} else s.groupIndex)
      && a.agentSessions == s.agentSessions
  {
    hide Transcript.AddMessageScript;
  }

  /**
   * When a step after CreateSession fails, whether or not it took effect, the
   * store and both indices are as before exactly when the cleanup took effect;
   * the removal from the group index matters only once the session was indexed.
   */
  lemma {:induction false} FailureLeavesNothing(s: Store, req: Request, sid: string, f: Faults)
    requires Unused(s, sid) && req.sessionId == ""
    requires Open(s, req, sid, f).1.Refused? && !Open(s, req, sid, f).1.problem.CreateFailed?
    ensures Open(s, req, sid, f).0 == s <==> CleanupComplete(f)
  {
    hide Transcript.AddMessageScript;
    var agent := FirstAgent(req.roster);
    var a := Attempted(s, req, sid, f);
    var t := CleanedUp(a, req.groupId, sid, req.user, agent, f);
    AttemptedShape(s, req, sid, f);
    assert a.sessions - {sid} == s.sessions;
    assert a.userIndex - {(req.user, agent, sid)} == s.userIndex;
    assert a.groupIndex - {(req.groupId, sid)} == s.groupIndex;
    assert sid in a.sessions && (req.user, agent, sid) in a.userIndex;
    assert t.agentSessions == s.agentSessions;
  }

  /** A failed CreateSession is not compensated: what its pipeline stored stays behind, and nothing else. */
  lemma {:induction false} FailedCreateResidue(s: Store, req: Request, sid: string, f: Faults)
    requires Unused(s, sid) && req.sessionId == ""
    requires Open(s, req, sid, f).1 == Refused(CreateFailed)
    ensures Open(s, req, sid, f).0 == s <==> f.createKey.Fails? && f.createIndex.Fails?
    ensures Open(s, req, sid, f).0.groupIndex == s.groupIndex
  {
    var t := Open(s, req, sid, f).0;
    if Took(f.createKey) {
      assert sid in t.sessions;
    }
    if Took(f.createIndex) {
      assert (req.user, FirstAgent(req.roster), sid) in t.userIndex;
    }
  }

  // The first command of the pipeline took effect, the second failed: an unindexed session stays behind.
  lemma {:induction false} HalfCreatedStays()
    ensures var f := Faults(Works, Works, Fails, Works, Works, Works, true, true, true, true);
      var (t, r) := Open(Store(map[], {}, {}, map[]), Request("", "g", "u", ["a"], "hi"), "sid", f);
      && r == Refused(CreateFailed)
      && t == Store(map["sid" := Session("u", "a", false, "", [], [])], {}, {}, map[])
  {}

  // The named session exists, in that group and for that owner.
  predicate Owned(s: Store, req: Request) {
    && req.sessionId in s.sessions
    && s.sessions[req.sessionId].groupId == req.groupId && s.sessions[req.sessionId].user == req.user
  }

  /**
   * A request that names a session never creates one and never touches another:
   * at most the named session of that owner and group gains the message.
   */
  lemma {:induction false} ResumeNeverCreates(s: Store, req: Request, sid: string, f: Faults)
    requires req.sessionId != ""
    ensures var (t, r) := Open(s, req, sid, f);
      && t.sessions.Keys == s.sessions.Keys
      && t.userIndex == s.userIndex && t.groupIndex == s.groupIndex && t.agentSessions == s.agentSessions
      && (forall k | k in s.sessions && k != req.sessionId :: t.sessions[k] == s.sessions[k])
      && (t != s ==> Owned(s, req))
      && (r.Ready? ==> Owned(s, req) && r.sessionId == req.sessionId)
      && (r.Ready? ==> t.sessions[req.sessionId] == WithMessage(s.sessions[req.sessionId], UserMessage(req)))
  {
    hide Transcript.AddMessageScript;
  }

  /**
   * After a successful start the in-memory session mirrors the stored one
   * exactly unless the message repeats one of the last five.
   */
  lemma {:induction false} MemoryMirrorsStore(s: Store, req: Request, sid: string, f: Faults)
    requires req.sessionId == "" ==> Unused(s, sid)
    requires Open(s, req, sid, f).1.Ready?
    ensures var (t, r) := Open(s, req, sid, f);
      && r.sessionId in t.sessions
      && (Transcript.Subseq(r.session.messages, t.sessions[r.sessionId].messages) <==>
          req.sessionId == "" || Transcript.LatestMatch(s.sessions[req.sessionId].messages, req.content, Transcript.DEDUP_LOOKBACK).None?)
  {
    if req.sessionId == "" {
      CreatedWhole(s, req, sid, f);
      Transcript.SubseqSelf([UserMessage(req)]);
    } else {
      Transcript.UserMessageKeepsTranscript(s.sessions[req.sessionId].messages, UserMessage(req));
    }
  }

  // ---------------------------------------------------------------- what a request is answered

  /** A new session is answered by its first step that is not acknowledged, in the order of the steps, and ready without any. */
  lemma {:induction false} NewAnswers(s: Store, req: Request, sid: string, f: Faults)
    requires req.sessionId == ""
    ensures var r, created := Open(s, req, sid, f).1, f.createKey == Works && f.createIndex == Works;
      && (r == Refused(CreateFailed) <==> !created)
      && (r == Refused(SaveFailed) <==> created && f.save != Works)
      && (r == Refused(IndexFailed) <==> created && f.save == Works && f.addToGroup != Works)
      && (r == Refused(MessageFailed) <==> created && f.save == Works && f.addToGroup == Works && f.message != Works)
      && (r.Ready? <==> created && f.save == Works && f.addToGroup == Works && f.message == Works)
      && (r.Ready? ==> r.sessionId == sid)
  {}

  function Stored(s: Store, id: string): Option<Session> {
    if id in s.sessions then Some(s.sessions[id]) else None
  }

  // The session at sid after a creation that was not undone; before: what was stored there.
  function Left(before: Option<Session>, req: Request, f: Faults): Option<Session> {
    var plain := Session(req.user, if req.roster == [] then "" else req.roster[0], false, "", [], []);
    var flagged := plain.(isMultiAgent := true, groupId := req.groupId, agentIds := req.roster);
    if f.createKey != Works || f.createIndex != Works then if f.createKey == Fails then before else Some(plain)
    else if f.save == Fails then Some(plain)
    else if f.save != Works || f.addToGroup != Works || f.message == Fails then Some(flagged)
    else Some(flagged.(messages := [UserMsg(req.content, req.roster)]))
  }

  lemma {:induction false} FirstMessage(m: Msg)
    ensures Transcript.AddMessageScript([], m) == [m]
  {}

  lemma {:induction false} AttemptedIndices(s: Store, req: Request, sid: string, f: Faults)
    ensures var a := Attempted(s, req, sid, f);
      && a.userIndex == Created(s, sid, req.user, FirstAgent(req.roster), f).userIndex
      && a.groupIndex == (if f.save == Works && f.addToGroup != Fails then s.groupIndex + {(req.groupId, sid)} else s.groupIndex)
      && a.agentSessions == s.agentSessions
  {
    hide WithMessage;
  }

  /**
   * What a new session leaves in the indices, entry by entry: each step that
   * took effect, up to the first that was not acknowledged, and, if that came
   * after the creation, each part of the cleanup that took effect.
   */
  lemma {:induction false} NewIndices(
      s: Store, req: Request, sid: string, f: Faults, owner: (string, string, string), member: (string, string), key: (string, string))
    requires req.sessionId == ""
    ensures var t, created := Open(s, req, sid, f).0, f.createKey == Works && f.createIndex == Works;
      var undone := created && (f.save != Works || f.addToGroup != Works || f.message != Works);
      var own := (req.user, if req.roster == [] then "" else req.roster[0], sid);
      var asked := created && f.save == Works && f.addToGroup != Fails;
      && (owner in t.userIndex <==>
            (owner in s.userIndex || (owner == own && f.createIndex != Fails)) && !(undone && f.deleteIndexTook && owner == own))
      && (member in t.groupIndex <==>
            (member in s.groupIndex || (asked && member == (req.groupId, sid))) && !(undone && f.removeTook && member == (req.groupId, sid)))
      && (key in t.agentSessions <==> key in s.agentSessions && !(undone && f.deleteAgentsTook && key.0 == sid))
      && (key in t.agentSessions ==> t.agentSessions[key] == s.agentSessions[key])
  {
    AttemptedIndices(s, req, sid, f);
    hide Attempted;
  }

  // The session after the attempted steps.
  lemma {:induction false} AttemptedLeaves(s: Store, req: Request, sid: string, f: Faults)
    requires f.createKey == Works && f.createIndex == Works
    ensures Stored(Attempted(s, req, sid, f), sid) == Left(None, req, f)
  {
    hide Transcript.AddMessageScript;
    FirstMessage(UserMessage(req));
  }

  lemma {:induction false} AttemptedOthers(s: Store, req: Request, sid: string, f: Faults, id: string)
    requires id != sid
    ensures Stored(Attempted(s, req, sid, f), id) == Stored(s, id)
  {
    hide WithMessage;
  }

  /** And what it leaves of sessions: itself as far as it got, unless the cleanup took it, and every other one as it was. */
  lemma {:induction false} NewLeaves(s: Store, req: Request, sid: string, f: Faults, id: string)
    requires req.sessionId == ""
    ensures var t := Open(s, req, sid, f).0;
      var undone := f.createKey == Works && f.createIndex == Works && (f.save != Works || f.addToGroup != Works || f.message != Works);
      Stored(t, id) == (
        if id != sid then Stored(s, id)
        else if undone && f.deleteKeyTook then None
        else Left(Stored(s, sid), req, f))
  {
    if f.createKey == Works && f.createIndex == Works {
      AttemptedLeaves(s, req, sid, f);
    }
    if id != sid {
      AttemptedOthers(s, req, sid, f, id);
    }
    hide Attempted;
  }

  /** A named session is answered by the first thing wrong with it: its lookup, its existence, its group, its owner, the message's save. */
  lemma {:induction false} ResumeAnswers(s: Store, req: Request, sid: string, f: Faults)
    requires req.sessionId != ""
    ensures var r, id := Open(s, req, sid, f).1, req.sessionId;
      && (r == Refused(SessionStore) <==> f.get != Works)
      && (r == Refused(SessionNotFound) <==> f.get == Works && id !in s.sessions)
      && (r == Refused(WrongGroup) <==> f.get == Works && id in s.sessions && s.sessions[id].groupId != req.groupId)
      && (r == Refused(AccessDenied) <==>
            f.get == Works && id in s.sessions && s.sessions[id].groupId == req.groupId && s.sessions[id].user != req.user)
      && (r == Refused(MessageFailed) <==> f.get == Works && Owned(s, req) && f.message != Works)
      && (r.Ready? <==> f.get == Works && Owned(s, req) && f.message == Works)
      && (r.Ready? ==> r.sessionId == id && r.session == s.sessions[id].(messages := s.sessions[id].messages + [UserMsg(req.content, req.roster)]))
    ensures var t, id := Open(s, req, sid, f).0, req.sessionId;
      id in s.sessions ==>
        var message := UserMsg(req.content, req.roster);
        && id in t.sessions
        && t.sessions[id].messages == (
             if f.get == Works && Owned(s, req) && f.message != Fails then Transcript.AddMessageScript(s.sessions[id].messages, message)
             else s.sessions[id].messages)
  {}

  /** The web surface reports a failed flag or index as a store error; MCP does not tell a foreign group from a foreign owner. */
  lemma {:induction false} SurfaceNames(p: Problem)
    ensures WebProblem(p) == if p in {SaveFailed, IndexFailed} then SessionStore else p
    ensures McpProblem(p) == if p == WrongGroup then AccessDenied else p
  {}
}
