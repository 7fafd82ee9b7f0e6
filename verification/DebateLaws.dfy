/** What a debate tells its user at the end, on both surfaces, from the turns and the moderator's error alone. */
module DebateLaws {
  import opened Prelude
  import opened TurnErrors
  import opened Turn
  import opened Debate

  predicate Answered(r: TurnResult) {
    r.text != "" && !HasFailure(r, Agent)
  }

  predicate NobodyAnswered(results: seq<TurnResult>) {
    forall i | 0 <= i < |results| :: !Answered(results[i])
  }

  // Two different agents answered.
  predicate TwoAnswered(results: seq<TurnResult>) {
    exists i, j | 0 <= i < |results| && 0 <= j < |results| ::
      Answered(results[i]) && Answered(results[j]) && results[i].agentId != results[j].agentId
  }

  predicate SomethingLost(results: seq<TurnResult>) {
    exists i | 0 <= i < |results| :: HasFailure(results[i], Persistence) || HasFailure(results[i], Mapping)
  }

  // The first turn that lost something lost its reply.
  ghost predicate ReplyLostFirst(results: seq<TurnResult>) {
    exists i | 0 <= i < |results| ::
      && HasFailure(results[i], Persistence)
      && forall j | 0 <= j < i :: !HasFailure(results[j], Persistence) && !HasFailure(results[j], Mapping)
  }

  lemma {:induction false} SubsetSize(a: set<string>, b: set<string>)
    requires a <= b
    ensures |a| <= |b|
  {
    if a == {} {
    } else {
      var x :| x in a;
      SubsetSize(a - {x}, b - {x});
    }
  }

  lemma {:induction false} TwoIn(s: set<string>, a: string, b: string)
    requires a in s && b in s && a != b
    ensures |s| >= 2
  {
    assert {a, b} <= s;
    SubsetSize({a, b}, s);
  }

  lemma {:induction false} SpeakersAre(results: seq<TurnResult>)
    ensures Speakers(results) == {} <==> NobodyAnswered(results)
    ensures |Speakers(results)| >= 2 <==> TwoAnswered(results)
  {
    hide HasFailure;
    var s := Speakers(results);
    assert forall i | 0 <= i < |results| && Answered(results[i]) :: Responded(results[i]) && results[i].agentId in s;
    if |s| >= 2 {
      var a :| a in s;
      assert |s - {a}| == |s| - 1;
      var b :| b in s - {a};
      var i :| 0 <= i < |results| && Responded(results[i]) && results[i].agentId == a;
      var j :| 0 <= j < |results| && Responded(results[j]) && results[j].agentId == b;
      assert Answered(results[i]) && Answered(results[j]);
    }
    if TwoAnswered(results) {
      var i, j :| 0 <= i < |results| && 0 <= j < |results|
        && Answered(results[i]) && Answered(results[j]) && results[i].agentId != results[j].agentId;
      TwoIn(s, results[i].agentId, results[j].agentId);
    }
  }

  lemma {:induction false} LostIs(results: seq<TurnResult>)
    ensures AnyStorageFailure(results) <==> SomethingLost(results)
  {
    hide HasFailure;
    if AnyStorageFailure(results) {
      var i :| 0 <= i < |results| && StorageFailure(results[i]);
      assert HasFailure(results[i], Persistence) || HasFailure(results[i], Mapping);
    }
    if SomethingLost(results) {
      var i :| 0 <= i < |results| && (HasFailure(results[i], Persistence) || HasFailure(results[i], Mapping));
      assert StorageFailure(results[i]);
    }
  }

  // ---------------------------------------------------------------- the web run after its turns

  // What the debate's end is called, "" when it is complete.
  ghost function EndName(debateErr: Option<Err>, results: seq<TurnResult>): string {
    if debateErr.Some? then
      if Is(debateErr.value, DeadlineExceeded) then "timeout"
      else if Is(debateErr.value, MaxTurnsReached) then "max_turns"
      else "moderator_error"
    else if SomethingLost(results) then
      if ReplyLostFirst(results) then "persistence_error" else "session_mapping_error"
    else if results != [] && NobodyAnswered(results) then "all_agents_failed"
    else ""
  }

  // The note that comes with it; the closing word explains a debate in which everybody failed.
  ghost function NoteText(name: string): seq<string> {
    if name == "timeout" then ["time limit reached"]
    else if name == "max_turns" then ["turn limit reached"]
    else if name == "moderator_error" then ["ended early"]
    else if name == "persistence_error" then ["replies not saved"]
    else if name == "session_mapping_error" then ["continuity not saved"]
    else []
  }

  // The moderator's last word: nobody was asked, nobody answered, or a consolidation of a complete debate.
  ghost function LastWord(debateErr: Option<Err>, results: seq<TurnResult>, env: Env): seq<string> {
    if results == [] then [if env.spanish then "nadie puede ayudar" else "nobody can help"]
    else if NobodyAnswered(results) then [if env.spanish then "todos fallaron" else "all failed"]
    else if debateErr.None? && !SomethingLost(results) && TwoAnswered(results) && env.beforeDeadline && env.synthesis.Some? && env.synthesis.value != ""
    then [env.synthesis.value]
    else []
  }

  lemma {:induction false} NotBefore(results: seq<TurnResult>, i: nat, j: nat)
    requires FirstStorageFailure(results, i) && j < |results| && HasFailure(results[j], Persistence)
    requires forall k | 0 <= k < j :: !HasFailure(results[k], Persistence) && !HasFailure(results[k], Mapping)
    ensures i == j
  {
    assert StorageFailure(results[j]);
  }

  lemma {:induction false} FirstLossIs(results: seq<TurnResult>)
    requires SomethingLost(results)
    ensures StorageReason(results) == Some(if ReplyLostFirst(results) then PersistenceFailed else MappingFailed)
  {
    SpeakersAre(results);
    LostIs(results);
    var i := StorageReasonIsFirst(results);
    hide HasFailure;
    assert FirstStorageFailure(results, i);
    forall j: nat |
        && j < |results| && HasFailure(results[j], Persistence)
        && forall k | 0 <= k < j :: !HasFailure(results[k], Persistence) && !HasFailure(results[k], Mapping)
      ensures j == i
    {
      NotBefore(results, i, j);
    }
    if HasFailure(results[i], Persistence) {
      forall k | 0 <= k < i
        ensures !HasFailure(results[k], Persistence) && !HasFailure(results[k], Mapping)
      {
        assert !StorageFailure(results[k]);
      }
      assert ReplyLostFirst(results);
    }
  }

  lemma {:induction false} ReasonIs(debateErr: Option<Err>, results: seq<TurnResult>)
    ensures var reason := IncompleteReason(debateErr, results);
      && ReasonName(reason) == EndName(debateErr, results)
      && (reason.Complete? <==> EndName(debateErr, results) == "")
      && NoteText(EndName(debateErr, results)) == (if Note(reason).Some? then [Note(reason).value] else [])
  {
    SpeakersAre(results);
    LostIs(results);
    var i := StorageReasonIsFirst(results);
    hide Is, HasFailure, Speakers, StorageReason, ReplyLostFirst, SomethingLost, NobodyAnswered;
    if debateErr.None? && SomethingLost(results) {
      FirstLossIs(results);
    }
  }

  // ---------------------------------------------------------------- the acts of the end

  // The moderator messages among these acts, with what became of their saves.
  function Messages(acts: seq<Act>): seq<(string, Fault)> {
    if acts == [] then []
    else
      var n := |acts| - 1;
      Messages(acts[..n]) + if acts[n].Saved? && acts[n].msg.ModeratorMsg? then [(acts[n].msg.content, acts[n].fault)] else []
  }

  lemma {:induction false} MessagesConcat(a: seq<Act>, b: seq<Act>)
    ensures Messages(a + b) == Messages(a) + Messages(b)
  {
    if b == [] {
      assert a + b == a;
    } else {
      assert (a + b)[..|a + b| - 1] == a + b[..|b| - 1];
      MessagesConcat(a, b[..|b| - 1]);
    }
  }

  lemma {:induction false} NoMessages(acts: seq<Act>)
    requires forall i | 0 <= i < |acts| :: acts[i].Saved? ==> !acts[i].msg.ModeratorMsg?
    ensures Messages(acts) == []
  {
    if acts == [] {
    } else {
      NoMessages(acts[..|acts| - 1]);
    }
  }

  // What saving and showing a moderator message does: shown only once saved and remembered; a failed save ends the run.
  function Told(text: string, f: Fault): seq<Act> {
    if f == Works then
      [Saved(ModeratorMsg(text), f), Remembered(ModeratorMsg(text)), Sent(ModeratorStart), Sent(ModeratorText(text)), Sent(ModeratorEnd)]
    else
      [Saved(ModeratorMsg(text), f), Sent(Custom("debate.incomplete", "persistence_error")), Sent(RunError("not saved"))]
  }

  // These messages in turn, up to the first that cannot be saved; after all of them the run finishes.
  function Script(words: seq<(string, Fault)>): seq<Act> {
    if words == [] then [Sent(RunFinished)]
    else if words[0].1 == Works then Told(words[0].0, Works) + Script(words[1..])
    else Told(words[0].0, words[0].1)
  }

  ghost function Words(debateErr: Option<Err>, results: seq<TurnResult>, env: Env): seq<(string, Fault)> {
    var note, word := NoteText(EndName(debateErr, results)), LastWord(debateErr, results, env);
    (if note == [] then [] else [(note[0], env.noteFault)]) + (if word == [] then [] else [(word[0], env.closingFault)])
  }

  lemma {:induction false} ScriptHead(a: (string, Fault), rest: seq<(string, Fault)>)
    ensures Script([a] + rest) == Told(a.0, a.1) + if a.1 == Works then Script(rest) else []
  {
    hide Told;
    assert ([a] + rest)[1..] == rest;
  }

  lemma {:induction false} SayIsTold(text: string, f: Fault)
    ensures Say(text, f) == Told(text, f)
  {}

  lemma {:induction false} ClosingIs(debateErr: Option<Err>, results: seq<TurnResult>, env: Env)
    ensures LastWord(debateErr, results, env) ==
      var closing := Closing(IncompleteReason(debateErr, results), results, env);
      if closing.Some? then [closing.value] else []
  {
    SpeakersAre(results);
    LostIs(results);
    CompleteWhen(debateErr, results);
    hide IncompleteReason, NobodyAnswered, SomethingLost, TwoAnswered, AnyStorageFailure;
  }

  lemma {:induction false} EndingTells(closing: Option<string>, g: Fault)
    ensures Ending(closing, g) == Script(if closing.Some? then [(closing.value, g)] else [])
  {
    hide Say, Told;
    if closing.Some? {
      SayIsTold(closing.value, g);
      ScriptHead((closing.value, g), []);
      assert [(closing.value, g)] + [] == [(closing.value, g)];
    }
  }

  lemma {:induction false} Grouped(a: seq<Act>, b: seq<Act>, c: seq<Act>)
    ensures (a + b) + c == a + (b + c)
  {}

  lemma {:induction false} EndTells(announced: seq<Act>, note: Option<string>, f: Fault, closing: Option<string>, g: Fault)
    ensures
      (announced + if note.Some? then Say(note.value, f) else []) + (if note.Some? && !Acked(f) then [] else Ending(closing, g)) ==
      announced + Script((if note.Some? then [(note.value, f)] else []) + (if closing.Some? then [(closing.value, g)] else []))
  {
    hide Say, Told, Script, Ending;
    var words := if closing.Some? then [(closing.value, g)] else [];
    EndingTells(closing, g);
    if note.None? {
      assert [] + words == words && announced + [] == announced;
    } else {
      SayIsTold(note.value, f);
      ScriptHead((note.value, f), words);
      Grouped(announced, Say(note.value, f), if Acked(f) then Ending(closing, g) else []);
    }
  }

  /**
   * What follows the turns of a web run, word by word: a moderator that failed
   * before anybody spoke ends it at once; else an incomplete debate is
   * announced by its name, with its note, then comes the last word, each saved
   * before it is shown, and the run finishes unless a save failed.
   */
  lemma {:induction false} OutcomeTells(debateErr: Option<Err>, results: seq<TurnResult>, env: Env)
    ensures Outcome(debateErr, results, env) ==
      if debateErr.Some? && results == [] then [Sent(RunError("moderator failed"))]
      else
        var name := EndName(debateErr, results);
        (if name == "" then [] else [Sent(Custom("debate.incomplete", name))]) + Script(Words(debateErr, results, env))
  {
    if debateErr.None? || results != [] {
      ReasonIs(debateErr, results);
      ClosingIs(debateErr, results, env);
      var reason := IncompleteReason(debateErr, results);
      var closing := Closing(reason, results, env);
      hide EndName, LastWord, NoteText, IncompleteReason, Closing, ReasonName, Note, Told, Say, Script, Ending;
      var announced := if reason.Complete? then [] else [Sent(Custom("debate.incomplete", ReasonName(reason)))];
      EndTells(announced, Note(reason), env.noteFault, closing, env.closingFault);
    }
  }

  // The moderator texts that are shown.
  function Texts(acts: seq<Act>): seq<string> {
    if acts == [] then []
    else
      var n := |acts| - 1;
      Texts(acts[..n]) + if acts[n].Sent? && acts[n].event.ModeratorText? then [acts[n].event.text] else []
  }

  lemma {:induction false} TextsConcat(a: seq<Act>, b: seq<Act>)
    ensures Texts(a + b) == Texts(a) + Texts(b)
  {
    if b == [] {
      assert a + b == a;
    } else {
      assert (a + b)[..|a + b| - 1] == a + b[..|b| - 1];
      TextsConcat(a, b[..|b| - 1]);
    }
  }

  lemma {:induction false} TextsOfOne(a: Act)
    ensures Texts([a]) == if a.Sent? && a.event.ModeratorText? then [a.event.text] else []
  {
    assert [a][..0] == [];
  }

  lemma {:induction false} TextsOfTold(text: string)
    ensures Texts(Told(text, Works)) == [text]
  {
    var save, keep := Saved(ModeratorMsg(text), Works), Remembered(ModeratorMsg(text));
    assert Told(text, Works) == [save] + [keep] + [Sent(ModeratorStart)] + [Sent(ModeratorText(text))] + [Sent(ModeratorEnd)];
    TextsConcat([save] + [keep] + [Sent(ModeratorStart)] + [Sent(ModeratorText(text))], [Sent(ModeratorEnd)]);
    TextsConcat([save] + [keep] + [Sent(ModeratorStart)], [Sent(ModeratorText(text))]);
    TextsConcat([save] + [keep], [Sent(ModeratorStart)]);
    TextsConcat([save], [keep]);
    TextsOfOne(save);
    TextsOfOne(keep);
    TextsOfOne(Sent(ModeratorStart));
    TextsOfOne(Sent(ModeratorText(text)));
    TextsOfOne(Sent(ModeratorEnd));
  }

  function Spoken(words: seq<(string, Fault)>): seq<string> {
    seq(|words|, i requires 0 <= i < |words| => words[i].0)
  }

  lemma {:induction false} ScriptShows(words: seq<(string, Fault)>)
    requires forall i | 0 <= i < |words| :: words[i].1 == Works
    ensures Texts(Script(words)) == Spoken(words)
  {
    hide Told, Texts;
    if words == [] {
      TextsOfOne(Sent(RunFinished));
    } else {
      ScriptShows(words[1..]);
      TextsConcat(Told(words[0].0, Works), Script(words[1..]));
      TextsOfTold(words[0].0);
      assert Spoken(words) == [words[0].0] + Spoken(words[1..]);
    }
  }

  lemma {:induction false} AtMostOne(debateErr: Option<Err>, results: seq<TurnResult>, env: Env, name: string)
    ensures |NoteText(name)| <= 1 && |LastWord(debateErr, results, env)| <= 1
  {
    hide NobodyAnswered, SomethingLost, TwoAnswered;
  }

  lemma {:induction false} WordsSpoken(debateErr: Option<Err>, results: seq<TurnResult>, env: Env)
    requires env.noteFault == Works && env.closingFault == Works
    ensures var words := Words(debateErr, results, env);
      && (forall i | 0 <= i < |words| :: words[i].1 == Works)
      && Spoken(words) == NoteText(EndName(debateErr, results)) + LastWord(debateErr, results, env)
  {
    AtMostOne(debateErr, results, env, EndName(debateErr, results));
    hide EndName, NoteText, LastWord;
  }

  lemma {:induction false} TextsOfOutcome(announced: seq<Act>, words: seq<(string, Fault)>, name: string)
    requires announced == if name == "" then [] else [Sent(Custom("debate.incomplete", name))]
    requires forall i | 0 <= i < |words| :: words[i].1 == Works
    ensures Texts(announced + Script(words)) == Spoken(words)
  {
    hide Script, Texts, Spoken;
    ScriptShows(words);
    if name == "" {
      assert announced + Script(words) == Script(words);
    } else {
      TextsConcat(announced, Script(words));
      TextsOfOne(Sent(Custom("debate.incomplete", name)));
      assert [] + Spoken(words) == Spoken(words);
    }
  }

  /** When its messages can be saved, the moderator shows the note of an incomplete debate, if it has one, and then its last word. */
  lemma {:induction false} ModeratorSays(debateErr: Option<Err>, results: seq<TurnResult>, env: Env)
    requires (debateErr.None? || results != []) && env.noteFault == Works && env.closingFault == Works
    ensures Texts(Outcome(debateErr, results, env)) == NoteText(EndName(debateErr, results)) + LastWord(debateErr, results, env)
  {
    hide EndName, NoteText, LastWord, Outcome, Script, Texts, Spoken, Words;
    var name, words := EndName(debateErr, results), Words(debateErr, results, env);
    OutcomeTells(debateErr, results, env);
    WordsSpoken(debateErr, results, env);
    TextsOfOutcome(if name == "" then [] else [Sent(Custom("debate.incomplete", name))], words, name);
  }

  lemma {:induction false} NotesAre(name: string)
    ensures forall t | t in NoteText(name) ::
      t in {"time limit reached", "turn limit reached", "ended early", "replies not saved", "continuity not saved"}
  {}

  lemma {:induction false} SilenceIsNotTwo(results: seq<TurnResult>)
    ensures TwoAnswered(results) ==> results != [] && !NobodyAnswered(results)
  {}

  /** The consolidation is shown exactly for a complete debate of two agents, in time, that has one. */
  lemma {:induction false} ConsolidatesWhen(debateErr: Option<Err>, results: seq<TurnResult>, env: Env, text: string)
    requires (debateErr.None? || results != []) && env.noteFault == Works && env.closingFault == Works
    requires env.synthesis == Some(text)
    requires text !in {"time limit reached", "turn limit reached", "ended early", "replies not saved", "continuity not saved"}
    requires text !in {"nadie puede ayudar", "nobody can help", "todos fallaron", "all failed"}
    ensures text in Texts(Outcome(debateErr, results, env)) <==>
      text != "" && debateErr.None? && !SomethingLost(results) && TwoAnswered(results) && env.beforeDeadline
  {
    ModeratorSays(debateErr, results, env);
    NotesAre(EndName(debateErr, results));
    hide Outcome, Texts, EndName, NoteText, SomethingLost, TwoAnswered, NobodyAnswered;
    SilenceIsNotTwo(results);
  }

  lemma {:induction false} ScriptEnds(words: seq<(string, Fault)>)
    ensures Script(words) != []
    ensures Script(words)[|Script(words)| - 1] ==
      if forall i | 0 <= i < |words| :: words[i].1 == Works then Sent(RunFinished) else Sent(RunError("not saved"))
  {
    if words == [] {
    } else {
      ScriptEnds(words[1..]);
      assert forall i | 0 < i < |words| :: words[i] == words[1..][i - 1];
      assert forall i | 0 <= i < |words| - 1 :: words[1..][i] == words[i + 1];
    }
  }

  /** A web run finishes exactly when it got going and every message the moderator had to say could be saved. */
  lemma {:induction false} FinishesWhen(debateErr: Option<Err>, results: seq<TurnResult>, env: Env)
    ensures var acts := Outcome(debateErr, results, env);
      && acts != []
      && (acts[|acts| - 1] == Sent(RunFinished) <==>
            && (debateErr.None? || results != [])
            && (NoteText(EndName(debateErr, results)) != [] ==> env.noteFault == Works)
            && (LastWord(debateErr, results, env) != [] ==> env.closingFault == Works))
  {
    var words := Words(debateErr, results, env);
    OutcomeTells(debateErr, results, env);
    ScriptEnds(words);
    hide EndName, LastWord, NoteText, Script, Outcome;
    if NoteText(EndName(debateErr, results)) != [] {
      assert words[0].1 == env.noteFault;
    }
    if LastWord(debateErr, results, env) != [] {
      assert words[|words| - 1].1 == env.closingFault;
    }
  }

  // ---------------------------------------------------------------- the turns

  /** Each turn of a debate runs on what the turns before it mapped, and is recorded with its agent, its text and its error. */
  lemma {:induction false} TurnsMean(sessionId: string, turns: seq<TurnInput>, t: TurnInput, mapping: map<string, string>)
    ensures var d, e := WebTurns(sessionId, turns, mapping), WebTurns(sessionId, turns + [t], mapping);
      var o := WebTurn(sessionId, t, Known(d.mapping, t.agentId));
      && e.acts == d.acts + o.acts && e.mapping == Remap(d.mapping, t, o.target)
      && |e.results| == |d.results| + 1 && e.results[..|d.results|] == d.results
      && var r := e.results[|d.results|]; r.agentId == t.agentId && r.text == o.text && r.err == o.err
    ensures var d, e := McpTurns(sessionId, turns, mapping), McpTurns(sessionId, turns + [t], mapping);
      var o := McpTurn(sessionId, t, Known(d.mapping, t.agentId));
      && e.acts == d.acts + o.acts && e.mapping == Remap(d.mapping, t, o.target)
      && |e.results| == |d.results| + 1 && e.results[..|d.results|] == d.results
      && var r := e.results[|d.results|]; r.agentId == t.agentId && r.text == o.text && r.err == o.err
  {
    hide WebTurn, McpTurn, Remap;
    assert (turns + [t])[..|turns|] == turns;
  }

  // ---------------------------------------------------------------- the MCP call

  // A section tells a turn: its agent and text, and for a failed one the worst that happened.
  predicate Tells(s: Section, r: TurnResult) {
    if r.err.None? then s == Reply(r.agentId, r.text)
    else
      && s.FailedReply? && s.agentId == r.agentId && s.text == r.text
      && (s.problem == "reply not saved" <==> HasFailure(r, Persistence))
      && (s.problem == "continuity not saved" <==> HasFailure(r, Mapping) && !HasFailure(r, Persistence))
      && (s.problem == "not completed" <==> !HasFailure(r, Mapping) && !HasFailure(r, Persistence))
  }

  /**
   * What the call returns: refused without any turn if the moderator failed,
   * else told that nobody helps; with turns, a section for each in order, with
   * its text and what of it went wrong, the note of an early end, and the
   * consolidation under the web run's conditions but the deadline, which is
   * saved and, if that fails, said to be unsaved.
   */
  lemma {:induction false} CallTells(debateErr: Option<Err>, results: seq<TurnResult>, synthesis: Option<string>, f: Fault)
    ensures var (r, acts) := CallOutcome(debateErr, results, synthesis, f);
      && (r.Refused? <==> results == [] && debateErr.Some?)
      && (r.NobodyHelps? <==> results == [] && debateErr.None?)
      && (results == [] ==> acts == [])
    ensures results != [] ==>
      var (r, acts) := CallOutcome(debateErr, results, synthesis, f);
      var consolidated := debateErr.None? && !SomethingLost(results) && TwoAnswered(results) && synthesis.Some? && synthesis.value != "";
      var n := |results| + if debateErr.Some? then 1 else 0;
      && r.Collected?
      && |r.sections| == n + (if consolidated then if f == Works then 1 else 2 else 0)
      && (forall i | 0 <= i < |results| :: Tells(r.sections[i], results[i]))
      && (debateErr.Some? ==> r.sections[|results|] == Notice(
            if Is(debateErr.value, DeadlineExceeded) then "timeout"
            else if Is(debateErr.value, MaxTurnsReached) then "turn limit"
            else "moderator failed"))
      && (consolidated ==> r.sections[n] == Synthesis(synthesis.value))
      && (consolidated && f != Works ==> r.sections[n + 1] == SynthesisUnsaved)
      && acts == (if consolidated then [Saved(ModeratorMsg(synthesis.value), f)] else [])
      && (r.isError <==> NobodyAnswered(results) || debateErr.Some? || SomethingLost(results) || (consolidated && f != Works))
  {
    SpeakersAre(results);
    LostIs(results);
    hide HasFailure, Is, SomethingLost, TwoAnswered, NobodyAnswered, Speakers, AnyStorageFailure;
  }
}
