/** Over a whole conversation, when an agent of a group is told each message it has missed, and just once. */
module Conversation {
  import opened Prelude
  import opened Context

  /**
   * A message is stored, or the context is selected for a request that the
   * agent goes on to answer, with or without a session of its own. Requests
   * overlap in any way; one the agent does not answer has told it nothing.
   */
  datatype Step = Stored(m: ChatMessage) | Answered(request: ChatMessage, hasAgentSession: bool)

  function Log(steps: seq<Step>): seq<ChatMessage> {
    if steps == [] then []
    else
      var n := |steps| - 1;
      Log(steps[..n]) + if steps[n].Stored? then [steps[n].m] else []
  }

  // What a selection tells the agent of the messages it has missed.
  function News(log: seq<ChatMessage>, target: string, request: ChatMessage, hasAgentSession: bool): seq<ChatMessage> {
    Filter(MissedBy(target), CatchUp(log, target, request, hasAgentSession))
  }

  function Told(steps: seq<Step>, target: string): seq<ChatMessage> {
    if steps == [] then []
    else
      var n := |steps| - 1;
      Told(steps[..n], target)
        + if steps[n].Answered? then News(Log(steps[..n]), target, steps[n].request, steps[n].hasAgentSession) else []
  }

  // How many messages were stored at the latest selection.
  function Taken(steps: seq<Step>): nat {
    if steps == [] then 0
    else
      var n := |steps| - 1;
      if steps[n].Answered? then |Log(steps[..n])| else Taken(steps[..n])
  }

  // Messages before this point were selected, or lie before the agent's last success.
  function Behind(steps: seq<Step>, target: string): nat {
    var start, taken := Start(Log(steps), target), Taken(steps);
    if start < taken then taken else start
  }

  lemma {:induction false} BehindInLog(steps: seq<Step>, target: string)
    ensures Taken(steps) <= |Log(steps)| && Behind(steps, target) <= |Log(steps)|
  {
    StartExact(Log(steps), target);
    if steps == [] {
    } else {
      BehindInLog(steps[..|steps| - 1], target);
    }
  }

  // What was missed and is still to be selected.
  function Rest(steps: seq<Step>, target: string): seq<ChatMessage> {
    BehindInLog(steps, target);
    Filter(MissedBy(target), Log(steps)[Behind(steps, target)..])
  }

  // All the agent has missed so far was told once and in order, or is still to be told.
  ghost predicate Kept(steps: seq<Step>, target: string) {
    Told(steps, target) + Rest(steps, target) == Filter(MissedBy(target), Log(steps))
  }

  ghost predicate KeptThroughout(steps: seq<Step>, target: string) {
    forall n | 0 <= n <= |steps| :: Kept(steps[..n], target)
  }

  // Nothing missed lies between two positions of the log.
  predicate NoneMissed(log: seq<ChatMessage>, target: string, from: nat, to: nat)
    requires to <= |log|
  {
    forall k | from <= k < to :: !Missed(log[k], target)
  }

  /**
   * What a step may do: a success of the agent is stored only if nothing it
   * missed was stored since the latest selection (nor the message itself, which
   * an agent with an ID never misses); a request is answered only if nothing it
   * missed since its last success was selected before; and a first contact
   * selects just what is still to be told.
   */
  predicate OrderlyStep(before: seq<Step>, step: Step, target: string) {
    BehindInLog(before, target);
    var log := Log(before);
    match step
    case Stored(m) => Success(m, target) ==> !Missed(m, target) && NoneMissed(log, target, Behind(before, target), |log|)
    case Answered(m, hasAgentSession) =>
      if hasAgentSession then NoneMissed(log, target, Start(log, target), Taken(before))
      else News(log, target, m, false) == Rest(before, target)
  }

  predicate Orderly(steps: seq<Step>, target: string) {
    steps == [] ||
    var n := |steps| - 1;
    Orderly(steps[..n], target) && OrderlyStep(steps[..n], steps[n], target)
  }

  lemma {:induction false} FilterNothing<T>(keep: T -> bool, s: seq<T>)
    ensures Filter(keep, s) == [] <==> forall k | 0 <= k < |s| :: !keep(s[k])
  {
    if s == [] {
    } else {
      FilterNothing(keep, s[..|s| - 1]);
      assert forall k | 0 <= k < |s| - 1 :: s[..|s| - 1][k] == s[k];
    }
  }

  lemma {:induction false} FilterTwice<T>(keep: T -> bool, s: seq<T>)
    ensures Filter(keep, Filter(keep, s)) == Filter(keep, s)
  {
    if s == [] {
    } else {
      var n := |s| - 1;
      FilterTwice(keep, s[..n]);
      FilterConcat(keep, Filter(keep, s[..n]), [s[n]]);
      FilterOne(keep, s[n]);
      assert Filter(keep, s[..n]) + [] == Filter(keep, s[..n]);
    }
  }

  lemma {:induction false} NoneMissedWhen(log: seq<ChatMessage>, target: string, from: nat, to: nat)
    requires from <= to <= |log|
    ensures NoneMissed(log, target, from, to) <==> Filter(MissedBy(target), log[from..to]) == []
  {
    hide Missed;
    FilterNothing(MissedBy(target), log[from..to]);
    assert forall k | from <= k < to :: log[from..to][k - from] == log[k];
  }

  lemma {:induction false} OneMoreStep(steps: seq<Step>, step: Step, target: string)
    ensures Orderly(steps + [step], target) <==> Orderly(steps, target) && OrderlyStep(steps, step, target)
    ensures Taken(steps + [step]) == if step.Answered? then |Log(steps)| else Taken(steps)
    ensures Log(steps + [step]) == if step.Stored? then Log(steps) + [step.m] else Log(steps)
    ensures Told(steps + [step], target) ==
      Told(steps, target) + if step.Answered? then News(Log(steps), target, step.request, step.hasAgentSession) else []
    ensures step.Stored? ==>
      Start(Log(steps + [step]), target) == if Success(step.m, target) then |Log(steps)| + 1 else Start(Log(steps), target)
  {
    hide OrderlyStep, Success;
    assert (steps + [step])[..|steps|] == steps;
    if step.Stored? {
      assert (Log(steps) + [step.m])[..|Log(steps)|] == Log(steps);
    }
  }

  // Storing another's message leaves it to be told; storing a success leaves nothing.
  lemma {:induction false} AfterStored(steps: seq<Step>, m: ChatMessage, target: string)
    ensures Told(steps + [Stored(m)], target) == Told(steps, target)
    ensures Log(steps + [Stored(m)]) == Log(steps) + [m]
    ensures var news := Filter(MissedBy(target), [m]);
      && Filter(MissedBy(target), Log(steps) + [m]) == Filter(MissedBy(target), Log(steps)) + news
      && (if Success(m, target) then Rest(steps + [Stored(m)], target) == []
          else Rest(steps + [Stored(m)], target) == Rest(steps, target) + news)
  {
    hide Orderly, Success, Missed, Filter, Told, Log, Taken, Start;
    var more := steps + [Stored(m)];
    OneMoreStep(steps, Stored(m), target);
    BehindInLog(steps, target);
    BehindInLog(more, target);
    FilterConcat(MissedBy(target), Log(steps), [m]);
    assert Told(steps, target) + [] == Told(steps, target);
    if Success(m, target) {
      NothingKept(MissedBy(target));
      assert Log(more)[|Log(more)|..] == [];
    } else {
      var from := Behind(steps, target);
      assert Log(more)[from..] == Log(steps)[from..] + [m];
      FilterConcat(MissedBy(target), Log(steps)[from..], [m]);
    }
  }

  // An answered request leaves nothing to be told.
  lemma {:induction false} AfterAnswered(steps: seq<Step>, request: ChatMessage, has: bool, target: string)
    ensures var more := steps + [Answered(request, has)];
      && Log(more) == Log(steps) && Rest(more, target) == []
      && Told(more, target) == Told(steps, target) + News(Log(steps), target, request, has)
  {
    var more := steps + [Answered(request, has)];
    assert more[..|steps|] == steps;
    BehindInLog(steps, target);
    BehindInLog(more, target);
    StartExact(Log(steps), target);
    assert Log(steps)[|Log(steps)|..] == [];
  }

  // What a request with a session tells: what is still to be told, after what it is told again.
  lemma {:induction false} NewsOfSession(steps: seq<Step>, request: ChatMessage, target: string)
    ensures Taken(steps) <= |Log(steps)|
    ensures News(Log(steps), target, request, true) == Rest(steps, target) <==>
      NoneMissed(Log(steps), target, Start(Log(steps), target), Taken(steps))
  {
    hide Missed, Success, Filter, Log, Taken;
    BehindInLog(steps, target);
    StartExact(Log(steps), target);
    var log, start, taken := Log(steps), Start(Log(steps), target), Taken(steps);
    FilterTwice(MissedBy(target), log[start..]);
    if start < taken {
      NoneMissedWhen(log, target, start, taken);
      assert log[start..] == log[start..taken] + log[taken..];
      FilterConcat(MissedBy(target), log[start..taken], log[taken..]);
      assert [] + Rest(steps, target) == Rest(steps, target);
    }
  }

  lemma {:induction false} SameEnd<T>(a: seq<T>, b: seq<T>, c: seq<T>)
    ensures a + b == a + c <==> b == c
  {
    if a + b == a + c {
      assert b == (a + b)[|a|..] && c == (a + c)[|a|..];
    }
  }

  lemma {:induction false} RestNothingWhen(steps: seq<Step>, target: string)
    ensures Behind(steps, target) <= |Log(steps)|
    ensures Rest(steps, target) == [] <==> NoneMissed(Log(steps), target, Behind(steps, target), |Log(steps)|)
  {
    hide Missed, Filter, Log, Behind;
    BehindInLog(steps, target);
    var log, from := Log(steps), Behind(steps, target);
    FilterNothing(MissedBy(target), log[from..]);
    assert forall k | from <= k < |log| :: log[from..][k - from] == log[k];
  }

  // One step keeps the promise exactly when it is orderly.
  lemma {:induction false} StepKeeps(before: seq<Step>, step: Step, target: string)
    requires Kept(before, target)
    ensures Kept(before + [step], target) <==> OrderlyStep(before, step, target)
  {
    hide Told, Missed, Success, Filter, Log, Taken, NoneMissed, News, Rest;
    var told, rest := Told(before, target), Rest(before, target);
    BehindInLog(before, target);
    match step {
      case Stored(m) =>
        AfterStored(before, m, target);
        RestNothingWhen(before, target);
        FilterOne(MissedBy(target), m);
        var news := Filter(MissedBy(target), [m]);
        assert (told + rest) + news == told + (rest + news);
        SameEnd(told, [], rest + news);
      case Answered(m, has) =>
        AfterAnswered(before, m, has, target);
        if has {
          NewsOfSession(before, m, target);
        }
        var news := News(Log(before), target, m, has);
        assert (told + news) + [] == told + news;
        SameEnd(told, news, rest);
    }
  }

  lemma {:induction false} NothingYet(target: string)
    ensures Kept([], target)
  {
    BehindInLog([], target);
  }

  /**
   * However storing and selecting interleave, all that the agent has missed is
   * throughout told once and in order, or still to be told, exactly when every
   * step is orderly.
   */
  lemma {:induction false} KeptWhen(steps: seq<Step>, target: string)
    ensures KeptThroughout(steps, target) <==> Orderly(steps, target)
  {
    hide Kept, OrderlyStep;
    assert steps[..|steps|] == steps;
    if steps == [] {
      NothingYet(target);
    } else {
      var n := |steps| - 1;
      var before := steps[..n];
      KeptWhen(before, target);
      assert forall k | 0 <= k <= n :: before[..k] == steps[..k];
      assert steps == before + [steps[n]];
      if Orderly(before, target) {
        assert before[..n] == before;
        StepKeeps(before, steps[n], target);
      }
    }
  }

  /** A message that lies before a success of the agent is never selected again for a request with a session. */
  lemma {:induction false} PastIsPast(steps: seq<Step>, more: seq<Step>, target: string)
    ensures Log(steps) <= Log(steps + more)
    ensures Start(Log(steps), target) <= Start(Log(steps + more), target)
  {
    hide Success;
    if more == [] {
      assert steps + more == steps;
    } else {
      var n := |more| - 1;
      assert (steps + more)[..|steps + more| - 1] == steps + more[..n];
      PastIsPast(steps, more[..n], target);
      StartExact(Log(steps + more[..n]), target);
      assert steps + more == steps + more[..n] + [more[n]];
      OneMoreStep(steps + more[..n], more[n], target);
    }
  }

  // ---------------------------------------------------------------- one turn after the other

  // What the others said, then a reply of the agent, which may be an error.
  datatype Exchange = Exchange(others: seq<ChatMessage>, request: ChatMessage, reply: ChatMessage)

  ghost predicate Of(exchanges: seq<Exchange>, target: string) {
    forall e | e in exchanges ::
      && e.reply.agentId == target && e.reply.role == "assistant"
      && forall m | m in e.others :: m.agentId != target
  }

  function AllStored(messages: seq<ChatMessage>): seq<Step> {
    seq(|messages|, i requires 0 <= i < |messages| => Stored(messages[i]))
  }

  function StepsOf(e: Exchange): seq<Step> {
    AllStored(e.others) + (if e.reply.isError then [] else [Answered(e.request, true)]) + [Stored(e.reply)]
  }

  function Flattened(exchanges: seq<Exchange>): seq<Step> {
    if exchanges == [] then []
    else Flattened(exchanges[..|exchanges| - 1]) + StepsOf(exchanges[|exchanges| - 1])
  }

  // Nothing was selected since the agent's last success.
  predicate Settled(steps: seq<Step>, target: string) {
    Orderly(steps, target) && Taken(steps) <= Start(Log(steps), target)
  }

  lemma {:induction false} OthersSettle(steps: seq<Step>, messages: seq<ChatMessage>, target: string)
    requires Settled(steps, target) && forall m | m in messages :: !Success(m, target)
    ensures Settled(steps + AllStored(messages), target)
  {
    hide Orderly;
    if messages == [] {
      assert steps + AllStored(messages) == steps;
    } else {
      var n := |messages| - 1;
      OthersSettle(steps, messages[..n], target);
      var before := steps + AllStored(messages[..n]);
      assert steps + AllStored(messages) == before + [Stored(messages[n])];
      assert messages[n] in messages;
      OneMoreStep(before, Stored(messages[n]), target);
    }
  }

  lemma {:induction false} ReplySettles(steps: seq<Step>, request: ChatMessage, reply: ChatMessage, target: string)
    requires Settled(steps, target) && reply.agentId == target && reply.role == "assistant"
    ensures Settled(steps + (if reply.isError then [] else [Answered(request, true)]) + [Stored(reply)], target)
  {
    hide Orderly;
    BehindInLog(steps, target);
    StartExact(Log(steps), target);
    if reply.isError {
      assert steps + [] == steps;
      OneMoreStep(steps, Stored(reply), target);
    } else {
      var answered := steps + [Answered(request, true)];
      OneMoreStep(steps, Answered(request, true), target);
      BehindInLog(answered, target);
      OneMoreStep(answered, Stored(reply), target);
    }
  }

  lemma {:induction false} NothingSettled(target: string)
    ensures Settled([], target)
  {}

  lemma {:induction false} SerialIsSettled(exchanges: seq<Exchange>, target: string)
    requires Of(exchanges, target)
    ensures Settled(Flattened(exchanges), target)
  {
    hide Settled;
    if exchanges == [] {
      assert Settled([], target) by { NothingSettled(target); }
    } else {
      var n := |exchanges| - 1;
      var e, before := exchanges[n], Flattened(exchanges[..n]);
      assert e in exchanges;
      SerialIsSettled(exchanges[..n], target);
      OthersSettle(before, e.others, target);
      ReplySettles(before + AllStored(e.others), e.request, e.reply, target);
      var answer := if e.reply.isError then [] else [Answered(e.request, true)];
      assert before + StepsOf(e) == before + AllStored(e.others) + answer + [Stored(e.reply)];
    }
  }

  /**
   * So while an agent's turns follow one another, each selection made right
   * before its reply, nothing is lost and nothing told twice, and after an error
   * it all comes again.
   */
  lemma {:induction false} ToldOnceEach(exchanges: seq<Exchange>, target: string)
    requires Of(exchanges, target)
    ensures KeptThroughout(Flattened(exchanges), target)
    ensures var steps := Flattened(exchanges);
      Told(steps, target) + Delta(Log(steps), target) == Filter(MissedBy(target), Log(steps))
  {
    hide Told, Filter, Orderly;
    var steps := Flattened(exchanges);
    SerialIsSettled(exchanges, target);
    KeptWhen(steps, target);
    assert steps[..|steps|] == steps;
    assert Kept(steps, target);
    BehindInLog(steps, target);
    StartExact(Log(steps), target);
  }

  // ---------------------------------------------------------------- first contact

  // Of the messages but the new one, those that a first contact leaves out: all but the newest ten.
  function LeftOut(log: seq<ChatMessage>, request: ChatMessage): seq<ChatMessage> {
    var all := Filter(IsSendable(), Without(log, LatestLike(log, request)));
    if |all| > MAX_CONTEXT_MESSAGES then all[..|all| - MAX_CONTEXT_MESSAGES] else []
  }

  lemma {:induction false} MissedIsSendable(log: seq<ChatMessage>, target: string)
    ensures Filter(MissedBy(target), Filter(IsSendable(), log)) == Filter(MissedBy(target), log)
  {
    if log == [] {
    } else {
      var n := |log| - 1;
      MissedIsSendable(log[..n], target);
      FilterConcat(MissedBy(target), Filter(IsSendable(), log[..n]), [log[n]]);
      FilterOne(MissedBy(target), log[n]);
      assert Filter(IsSendable(), log[..n]) + [] == Filter(IsSendable(), log[..n]);
    }
  }

  lemma {:induction false} SameEndLeft<T>(a: seq<T>, b: seq<T>)
    ensures b == a + b <==> a == []
  {
    if a == [] {
      assert a + b == b;
    } else {
      assert |a + b| > |b|;
    }
  }

  /**
   * A first contact tells the agent all it has missed, the request itself aside,
   * exactly when nothing it missed is older than the newest ten messages.
   */
  lemma {:induction false} FirstContactKeepsWhen(log: seq<ChatMessage>, target: string, request: ChatMessage)
    ensures News(log, target, request, false) == Filter(MissedBy(target), Without(log, LatestLike(log, request))) <==>
      forall m | m in LeftOut(log, request) :: !Missed(m, target)
  {
    hide Missed, Sendable, Filter;
    var rest := Without(log, LatestLike(log, request));
    var all := Filter(IsSendable(), rest);
    var out := LeftOut(log, request);
    assert all == out + AllExceptLast(log, request);
    MissedIsSendable(rest, target);
    FilterConcat(MissedBy(target), out, AllExceptLast(log, request));
    FilterNothing(MissedBy(target), out);
    SameEndLeft(Filter(MissedBy(target), out), News(log, target, request, false));
  }

  lemma {:induction false} MissedWithout(log: seq<ChatMessage>, i: nat, target: string)
    requires i < |log|
    ensures |Filter(MissedBy(target), log)| == |Filter(MissedBy(target), Without(log, Some(i)))| + if Missed(log[i], target) then 1 else 0
    ensures !Missed(log[i], target) ==> Filter(MissedBy(target), log) == Filter(MissedBy(target), Without(log, Some(i)))
  {
    hide Missed, Filter;
    var a, b := log[..i], log[i + 1..];
    assert log == a + [log[i]] + b;
    FilterConcat(MissedBy(target), a + [log[i]], b);
    FilterConcat(MissedBy(target), a, [log[i]]);
    FilterConcat(MissedBy(target), a, b);
    FilterOne(MissedBy(target), log[i]);
    assert Filter(MissedBy(target), a) + [] == Filter(MissedBy(target), a);
  }

  lemma {:induction false} NewsWithinRest(log: seq<ChatMessage>, target: string, request: ChatMessage)
    ensures |News(log, target, request, false)| <= |Filter(MissedBy(target), Without(log, LatestLike(log, request)))|
  {
    hide Missed, Sendable, Filter, LatestLike;
    var rest := Without(log, LatestLike(log, request));
    var out := LeftOut(log, request);
    assert Filter(IsSendable(), rest) == out + AllExceptLast(log, request);
    MissedIsSendable(rest, target);
    FilterConcat(MissedBy(target), out, AllExceptLast(log, request));
  }

  /**
   * For an agent that has not been told anything, a first contact is orderly
   * exactly when that holds and the request is not itself among what it missed.
   */
  lemma {:induction false} FirstContactOrderlyWhen(before: seq<Step>, request: ChatMessage, target: string)
    requires Behind(before, target) == 0
    ensures var log := Log(before);
      var same := LatestLike(log, request);
      OrderlyStep(before, Answered(request, false), target) <==>
        && (same.Some? ==> !Missed(log[same.value], target))
        && forall m | m in LeftOut(log, request) :: !Missed(m, target)
  {
    hide Missed, Filter, LatestLike, LeftOut, AllExceptLast;
    var log := Log(before);
    var same := LatestLike(log, request);
    BehindInLog(before, target);
    assert log[0..] == log;
    FirstContactKeepsWhen(log, target, request);
    NewsWithinRest(log, target, request);
    if same.Some? {
      MissedWithout(log, same.value, target);
    }
  }

  // ---------------------------------------------------------------- where it fails

  function Asked(to: seq<string>): ChatMessage {
    ChatMessage("user", "q", "", "", "", to, false)
  }

  function Said(agentId: string, isError: bool): ChatMessage {
    ChatMessage("assistant", "x", agentId, "", "", [], isError)
  }

  lemma {:induction false} DeltaOfOne(m: ChatMessage, target: string)
    ensures Delta([m], target) == if !Success(m, target) && Missed(m, target) then [m] else []
  {
    StartExact([m], target);
    FilterOne(MissedBy(target), m);
    assert [m][..0] == [] && [m][0..] == [m] && [m][1..] == [];
  }

  lemma {:induction false} NothingSaid(target: string)
    ensures Told([], target) == [] && Log([]) == [] && Start([], target) == 0
  {}

  lemma {:induction false} NewsOfOne(m: ChatMessage, target: string, request: ChatMessage)
    ensures News([m], target, request, true) == if !Success(m, target) && Missed(m, target) then [m] else []
  {
    DeltaOfOne(m, target);
    FilterOne(MissedBy(target), m);
  }

  /**
   * After any history: what is stored between an agent's selection and its
   * reply is not in that selection, and lies before its success from then on.
   */
  lemma {:induction false} OvertakenIsLost(
      before: seq<Step>, request: ChatMessage, m: ChatMessage, reply: ChatMessage, more: seq<Step>, target: string)
    requires Success(reply, target)
    ensures var steps := before + [Answered(request, true)] + [Stored(m)] + [Stored(reply)];
      && Log(steps) == Log(before) + [m] + [reply]
      && Told(steps, target) == Told(before, target) + News(Log(before), target, request, true)
      && Start(Log(steps + more), target) >= |Log(before)| + 2
  {
    hide Orderly, OrderlyStep, Taken, Told, Start, News, Log, Success;
    var s2 := before + [Answered(request, true)];
    var s3 := s2 + [Stored(m)];
    OneMoreStep(before, Answered(request, true), target);
    OneMoreStep(s2, Stored(m), target);
    OneMoreStep(s3, Stored(reply), target);
    PastIsPast(s3 + [Stored(reply)], more, target);
  }

  lemma {:induction false} StoredLog(messages: seq<ChatMessage>, target: string)
    ensures Log(AllStored(messages)) == messages && Told(AllStored(messages), target) == []
  {
    if messages == [] {
    } else {
      var n := |messages| - 1;
      StoredLog(messages[..n], target);
      assert AllStored(messages) == AllStored(messages[..n]) + [Stored(messages[n])];
      OneMoreStep(AllStored(messages[..n]), Stored(messages[n]), target);
    }
  }

  /** So of a message answered by two agents in parallel, the slower one is never told the faster one's reply. */
  lemma {:induction false} ParallelReplyIsLost(more: seq<Step>)
    ensures var u, ra := Asked(["a", "b"]), Said("a", false);
      var steps := [Stored(u)] + [Answered(u, true)] + [Stored(ra)] + [Stored(Said("b", false))];
      && Log(steps) == [u] + [ra] + [Said("b", false)] && Missed(ra, "b")
      && Told(steps, "b") == [] && Start(Log(steps + more), "b") >= 3
  {
    var u, ra, rb := Asked(["a", "b"]), Said("a", false), Said("b", false);
    assert !Missed(u, "b") && Missed(ra, "b") && Success(rb, "b");
    StoredLog([u], "b");
    assert AllStored([u]) == [Stored(u)];
    hide Orderly, OrderlyStep, Taken, Told, Start, News, Log, Missed, Success;
    NewsOfOne(u, "b", u);
    OvertakenIsLost([Stored(u)], u, ra, rb, more, "b");
  }

  /**
   * After any history: a turn that renews the agent's session and then fails
   * stores a notice that counts as the agent's own success, so all it was still
   * to be told lies before that and does not come again.
   */
  lemma {:induction false} RenewedAndFailedIsLost(before: seq<Step>, notice: ChatMessage, failure: ChatMessage, more: seq<Step>, target: string)
    requires Success(notice, target)
    ensures var steps := before + [Stored(notice)] + [Stored(failure)];
      && Log(steps) == Log(before) + [notice] + [failure] && Told(steps, target) == Told(before, target)
      && Start(Log(steps + more), target) >= |Log(before)| + 1
  {
    hide Orderly, OrderlyStep, Taken, Told, Start, News, Log, Success;
    var s1 := before + [Stored(notice)];
    OneMoreStep(before, Stored(notice), target);
    OneMoreStep(s1, Stored(failure), target);
    assert Told(before, target) + [] == Told(before, target);
    PastIsPast(s1, [Stored(failure)], target);
    PastIsPast(s1 + [Stored(failure)], more, target);
  }

  /** Another agent's reply that would have been told is lost that way. */
  lemma {:induction false} NoticeEndsDelta(more: seq<Step>)
    ensures var ra := Said("a", false);
      var steps := [Stored(ra)] + [Stored(Said("b", false))] + [Stored(Said("b", true))];
      && Delta([ra], "b") == [ra] && Log(steps) == [ra] + [Said("b", false)] + [Said("b", true)]
      && Told(steps, "b") == [] && Start(Log(steps + more), "b") >= 2
  {
    var ra := Said("a", false);
    assert Missed(ra, "b") && !Success(ra, "b") && Success(Said("b", false), "b");
    DeltaOfOne(ra, "b");
    StoredLog([ra], "b");
    assert AllStored([ra]) == [Stored(ra)];
    hide Orderly, OrderlyStep, Taken, Told, Start, News, Log, Missed, Success;
    RenewedAndFailedIsLost([Stored(ra)], Said("b", false), Said("b", true), more, "b");
  }

  /** An answer that could not be stored leaves what it was told to be told again. */
  lemma {:induction false} LostReplyIsToldAgain(request: ChatMessage)
    ensures Told([Stored(Said("a", false)), Answered(request, true), Answered(request, true)], "b") == [Said("a", false), Said("a", false)]
  {
    var ra := Said("a", false);
    assert Missed(ra, "b") && !Success(ra, "b");
    assert [ra] + [ra] == [ra, ra];
    hide Orderly, OrderlyStep, Taken, Told, Start, News, Log, Missed, Success;
    var s1 := [Stored(ra)];
    var s2 := s1 + [Answered(request, true)];
    assert s2 + [Answered(request, true)] == [Stored(ra), Answered(request, true), Answered(request, true)] && [] + s1 == s1;
    NothingSaid("b");
    OneMoreStep([], Stored(ra), "b");
    OneMoreStep(s1, Answered(request, true), "b");
    OneMoreStep(s2, Answered(request, true), "b");
    NewsOfOne(ra, "b", request);
  }

  lemma {:induction false} NoneLike(log: seq<ChatMessage>, request: ChatMessage)
    requires forall m | m in log :: m.role != request.role
    ensures LatestLike(log, request).None?
  {
    if log == [] {
    } else {
      NoneLike(log[..|log| - 1], request);
    }
  }

  function Replies(n: nat): seq<ChatMessage> {
    seq(n, i => Said("a", false))
  }

  lemma {:induction false} RepliesStay(n: nat)
    ensures |Replies(n)| == n && (forall m | m in Replies(n) :: m == Said("a", false))
    ensures Filter(MissedBy("b"), Replies(n)) == Replies(n) && Filter(IsSendable(), Replies(n)) == Replies(n)
  {
    FilterKeepsAll(MissedBy("b"), Replies(n));
    FilterKeepsAll(IsSendable(), Replies(n));
  }

  lemma {:induction false} NewsOfReplies(n: nat)
    requires n > MAX_CONTEXT_MESSAGES
    ensures News(Replies(n), "b", Asked(["b"]), false) == Replies(MAX_CONTEXT_MESSAGES)
  {
    RepliesStay(n);
    RepliesStay(MAX_CONTEXT_MESSAGES);
    NoneLike(Replies(n), Asked(["b"]));
    hide Filter, LatestLike, Sendable, Missed;
    assert Newest(Replies(n), MAX_CONTEXT_MESSAGES) == Replies(MAX_CONTEXT_MESSAGES);
  }

  /** Of more than ten replies of another agent a first contact tells ten, and after an answer all of them are past. */
  lemma {:induction false} OlderRepliesAreLost(n: nat, more: seq<Step>)
    requires n > MAX_CONTEXT_MESSAGES
    ensures Filter(MissedBy("b"), Replies(n)) == Replies(n) && |Replies(n)| == n
    ensures var steps := AllStored(Replies(n)) + [Answered(Asked(["b"]), false)] + [Stored(Said("b", false))];
      && Log(steps) == Replies(n) + [Said("b", false)]
      && Told(steps, "b") == Replies(MAX_CONTEXT_MESSAGES) && Start(Log(steps + more), "b") >= n
  {
    var q, reply := Asked(["b"]), Said("b", false);
    assert Success(reply, "b");
    RepliesStay(n);
    hide Orderly, OrderlyStep, Taken, Told, Start, News, Filter, Log, Success, Replies;
    var s1 := AllStored(Replies(n));
    var s2 := s1 + [Answered(q, false)];
    StoredLog(Replies(n), "b");
    NewsOfReplies(n);
    OneMoreStep(s1, Answered(q, false), "b");
    OneMoreStep(s2, Stored(reply), "b");
    assert [] + Replies(MAX_CONTEXT_MESSAGES) + [] == Replies(MAX_CONTEXT_MESSAGES);
    PastIsPast(s2 + [Stored(reply)], more, "b");
  }
}
