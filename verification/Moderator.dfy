/** The moderated turn loop: who is asked to speak, and when the debate may stop. */
module Moderator {
  import opened Prelude
  import opened TurnErrors

  // A trimmed answer of the moderator's model; Finish is any spelling of FINISH.
  datatype Answer = Failed(err: Err) | Finish | Text(answer: string)

  datatype World = World(
    roster: seq<string>,
    ctxErr: nat -> Option<Err>,                       // the shared context, as seen at the start of a turn
    ask: (nat, bool) -> Answer,                       // the moderator at a turn; true: asked again, untried agents only
    run: (nat, string) -> (string, Option<Err>),      // one agent turn
    needsHandoff: string -> bool)                     // the reply says it cannot access or verify

  datatype Next = Stop(err: Option<Err>) | Speak(agentId: string)

  const PROTOCOL := Other("moderator protocol")

  function NextSpeaker(ids: seq<string>, a: Answer): Next {
    match a
    case Failed(e) => Stop(Some(Wrapped(e)))
    case Finish => Stop(None)
    case Text(id) => if id != "" && id in ids then Speak(id) else Stop(Some(Wrapped(Leaf(PROTOCOL))))
  }

  function Attempted(results: seq<TurnResult>): set<string> {
    set i | 0 <= i < |results| :: results[i].agentId
  }

  function Untried(roster: seq<string>, attempted: set<string>): seq<string> {
    if roster == [] then []
    else
      var n := |roster| - 1;
      Untried(roster[..n], attempted) + if roster[n] in attempted then [] else [roster[n]]
  }

  predicate NeedsHandoff(w: World, results: seq<TurnResult>) {
    results != [] && w.needsHandoff(results[|results| - 1].text)
  }

  // The moderator's decision for the next turn, given the turns so far.
  function Decide(w: World, results: seq<TurnResult>): Next {
    var turn := |results|;
    if w.ctxErr(turn).Some? then Stop(w.ctxErr(turn))
    else
      var first := NextSpeaker(w.roster, w.ask(turn, false));
      var untried := Untried(w.roster, Attempted(results));
      if first == Stop(None) && NeedsHandoff(w, results) && untried != [] then
        var second := NextSpeaker(untried, w.ask(turn, true));
        if second == Stop(None) then Speak(untried[0]) else second
      else first
  }

  method CollectUntried(roster: seq<string>, attempted: set<string>) returns (remaining: seq<string>)
    ensures remaining == Untried(roster, attempted)
  {
    remaining := [];
    for i := 0 to |roster|
      invariant remaining == Untried(roster[..i], attempted)
    {
      assert roster[..i + 1][..i] == roster[..i];
      if roster[i] !in attempted {
        remaining := remaining + [roster[i]];
      }
    }
    assert roster[..|roster|] == roster;
  }

  // Every recorded turn is the one the moderator decided on, run and recorded.
  ghost predicate Follows(w: World, results: seq<TurnResult>) {
    forall i | 0 <= i < |results| ::
      && Decide(w, results[..i]) == Speak(results[i].agentId)
      && results[i] == Record(results[i].agentId, w.run(i, results[i].agentId).0, w.run(i, results[i].agentId).1)
  }

  lemma {:induction false} FollowsOne(w: World, results: seq<TurnResult>, r: TurnResult)
    requires Follows(w, results) && Decide(w, results) == Speak(r.agentId)
    requires r == Record(r.agentId, w.run(|results|, r.agentId).0, w.run(|results|, r.agentId).1)
    ensures Follows(w, results + [r])
  {
    hide Decide, Record;
    var all := results + [r];
    forall i | 0 <= i < |all|
      ensures Decide(w, all[..i]) == Speak(all[i].agentId)
      ensures all[i] == Record(all[i].agentId, w.run(i, all[i].agentId).0, w.run(i, all[i].agentId).1)
    {
      if i < |results| {
        assert all[..i] == results[..i] && all[i] == results[i];
      } else {
        assert all[..i] == results && all[i] == r;
      }
    }
  }

  lemma {:induction false} AttemptedOne(results: seq<TurnResult>, r: TurnResult)
    ensures Attempted(results + [r]) == Attempted(results) + {r.agentId}
  {
    var all := results + [r];
    forall i | 0 <= i < |results|
      ensures all[i] == results[i]
    {}
    assert all[|results|] == r;
    forall id | id in Attempted(results)
      ensures id in Attempted(all)
    {
      var i :| 0 <= i < |results| && results[i].agentId == id;
      assert all[i].agentId == id;
    }
  }

  lemma {:induction false} FollowsNothing(w: World)
    ensures Follows(w, [])
  {}

  lemma {:induction false} RecordKeepsAgent(agentId: string, text: string, err: Option<Err>)
    ensures Record(agentId, text, err).agentId == agentId
  {}

  method Debate(w: World, maxTurns: nat) returns (results: seq<TurnResult>, err: Option<Err>)
    ensures |results| <= maxTurns
    ensures Follows(w, results)
    ensures if |results| == maxTurns then err == Some(Leaf(MaxTurnsReached)) else Decide(w, results) == Stop(err)
  {
    hide Follows, Record, Untried;
    results := [];
    assert Follows(w, []) by { FollowsNothing(w); }
    var attempted: set<string> := {};
    for turn := 0 to maxTurns
      invariant |results| == turn && Follows(w, results) && attempted == Attempted(results)
    {
      if w.ctxErr(turn).Some? {
        return results, w.ctxErr(turn);
      }
      var next := NextSpeaker(w.roster, w.ask(turn, false));
      if next == Stop(None) && |results| > 0 && w.needsHandoff(results[|results| - 1].text) {
        var remaining := CollectUntried(w.roster, attempted);
        if |remaining| > 0 {
          next := NextSpeaker(remaining, w.ask(turn, true));
          if next == Stop(None) {
            next := Speak(remaining[0]);
          }
        }
      }
      assert next == Decide(w, results);
      if next.Stop? {
        return results, next.err;
      }
      attempted := attempted + {next.agentId};
      var out := w.run(turn, next.agentId);
      var r := Record(next.agentId, out.0, out.1);
      assert r.agentId == next.agentId by { RecordKeepsAgent(next.agentId, out.0, out.1); }
      AttemptedOne(results, r);
      FollowsOne(w, results, r);
      results := results + [r];
    }
    return results, Some(Leaf(MaxTurnsReached));
  }

  lemma {:induction false} UntriedMeans(roster: seq<string>, attempted: set<string>)
    ensures forall id :: id in Untried(roster, attempted) <==> id in roster && id !in attempted
  {
    if roster == [] {
    } else {
      UntriedMeans(roster[..|roster| - 1], attempted);
      assert roster == roster[..|roster| - 1] + [roster[|roster| - 1]];
    }
  }

  /** Only agents of the roster ever speak. */
  lemma {:induction false} SpeakersAreOnRoster(w: World, results: seq<TurnResult>)
    requires Follows(w, results)
    ensures forall i | 0 <= i < |results| :: results[i].agentId in w.roster
  {
    forall i | 0 <= i < |results|
      ensures results[i].agentId in w.roster
    {
      assert Decide(w, results[..i]) == Speak(results[i].agentId);
      UntriedMeans(w.roster, Attempted(results[..i]));
    }
  }

  /**
   * A debate that stops cleanly right after a reply that could not access or
   * verify the answer has let every agent of the roster speak.
   */
  lemma {:induction false} StopsOnlyWhenResolved(w: World, results: seq<TurnResult>)
    requires Decide(w, results) == Stop(None) && NeedsHandoff(w, results)
    ensures forall id | id in w.roster :: id in Attempted(results)
  {
    UntriedMeans(w.roster, Attempted(results));
    assert Untried(w.roster, Attempted(results)) == [];
  }

  // ---------------------------------------------------------------- what the moderator's answers mean

  predicate HasSpoken(results: seq<TurnResult>, id: string) {
    exists i | 0 <= i < |results| :: results[i].agentId == id
  }

  // A clean end right after a reply that could not access or verify is questioned while somebody has not spoken.
  predicate AskedAgain(w: World, results: seq<TurnResult>) {
    && w.ask(|results|, false) == Finish
    && results != [] && w.needsHandoff(results[|results| - 1].text)
    && exists id | id in w.roster :: !HasSpoken(results, id)
  }

  // The answer that decides the next turn.
  function Deciding(w: World, results: seq<TurnResult>): Answer {
    w.ask(|results|, AskedAgain(w, results))
  }

  // The first of the roster that has not spoken.
  ghost predicate FirstSilent(w: World, results: seq<TurnResult>, id: string) {
    exists i | 0 <= i < |w.roster| ::
      w.roster[i] == id && !HasSpoken(results, id) && forall j | 0 <= j < i :: HasSpoken(results, w.roster[j])
  }

  lemma {:induction false} SpokenIsAttempted(results: seq<TurnResult>, id: string)
    ensures id in Attempted(results) <==> HasSpoken(results, id)
  {}

  lemma {:induction false} FirstUntried(roster: seq<string>, attempted: set<string>)
    requires Untried(roster, attempted) != []
    ensures exists i | 0 <= i < |roster| ::
      roster[i] == Untried(roster, attempted)[0] && roster[i] !in attempted && forall j | 0 <= j < i :: roster[j] in attempted
  {
    var n := |roster| - 1;
    if Untried(roster[..n], attempted) == [] {
      UntriedMeans(roster[..n], attempted);
      assert forall j | 0 <= j < n :: roster[j] in roster[..n];
      assert roster[n] == Untried(roster, attempted)[0];
    } else {
      FirstUntried(roster[..n], attempted);
      var i :| 0 <= i < n && roster[..n][i] == Untried(roster[..n], attempted)[0] && roster[..n][i] !in attempted
        && forall j | 0 <= j < i :: roster[..n][j] in attempted;
      assert forall j | 0 <= j <= i :: roster[..n][j] == roster[j];
    }
  }

  lemma {:induction false} FirstIsIn(ids: seq<string>)
    ensures ids == [] || ids[0] in ids
  {}

  /**
   * What the next turn is, told from the context, the moderator's answers and
   * the turns so far: a dead context and a failed call end the debate with their
   * error, an answer that names nobody eligible with a protocol error, FINISH
   * ends it cleanly, and a FINISH that is questioned and repeated makes the
   * first agent speak that has not.
   */
  lemma {:induction false} DecisionMeans(w: World, results: seq<TurnResult>)
    ensures w.ctxErr(|results|).Some? ==> Decide(w, results) == Stop(w.ctxErr(|results|))
    ensures w.ctxErr(|results|).None? ==>
      match Deciding(w, results)
      case Failed(e) => Decide(w, results) == Stop(Some(Wrapped(e)))
      case Finish =>
        if AskedAgain(w, results) then Decide(w, results).Speak? && FirstSilent(w, results, Decide(w, results).agentId)
        else Decide(w, results) == Stop(None)
      case Text(id) =>
        Decide(w, results) ==
          if id != "" && id in w.roster && (AskedAgain(w, results) ==> !HasSpoken(results, id)) then Speak(id)
          else Stop(Some(Wrapped(Leaf(Other("moderator protocol")))))
  {
    hide HasSpoken, Untried;
    var attempted := Attempted(results);
    var untried := Untried(w.roster, attempted);
    UntriedMeans(w.roster, attempted);
    forall id: string
      ensures id in attempted <==> HasSpoken(results, id)
    {
      SpokenIsAttempted(results, id);
    }
    if AskedAgain(w, results) {
      assert untried != [];
      FirstUntried(w.roster, attempted);
    } else if w.ask(|results|, false) == Finish && NeedsHandoff(w, results) {
      FirstIsIn(untried);
    }
  }

  /** Below the turn limit a debate has no error exactly when its context is fine and an unquestioned FINISH ended it. */
  lemma {:induction false} EndsCleanlyWhen(w: World, results: seq<TurnResult>, err: Option<Err>)
    requires Decide(w, results) == Stop(err)
    ensures err.None? <==> w.ctxErr(|results|).None? && w.ask(|results|, false) == Finish && !AskedAgain(w, results)
  {
    hide Decide, AskedAgain;
    DecisionMeans(w, results);
  }
}
