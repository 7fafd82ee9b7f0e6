/** What an agent is told, read off the positions of the messages, with every limit and every text written out. */
module ContextLaws {
  import opened Prelude
  import opened Context
  import Headers

  lemma {:induction false} FilterPicks<T>(keep: T -> bool, s: seq<T>) returns (at: seq<nat>)
    ensures PickedAt(Filter(keep, s), s, at)
    ensures forall i :: i in at <==> 0 <= i < |s| && keep(s[i])
  {
    hide PickedAt;
    at := [];
    if s == [] {
      assert Filter(keep, s) == [] && PickedAt(s, s, []) by { NothingPicked<T>(); }
    } else {
      var n := |s| - 1;
      at := FilterPicks(keep, s[..n]);
      PickOneMore(Filter(keep, s[..n]), s, at);
      assert forall i | 0 <= i < n :: s[..n][i] == s[i];
      if keep(s[n]) {
        at := at + [n];
      } else {
        assert Filter(keep, s[..n]) + [] == Filter(keep, s[..n]);
      }
    }
  }

  lemma {:induction false} PickLater<T>(picked: seq<T>, s: seq<T>, at: seq<nat>, from: nat) returns (later: seq<nat>)
    requires from <= |s| && PickedAt(picked, s[from..], at)
    ensures PickedAt(picked, s, later)
    ensures forall i :: i in later <==> i >= from && i - from in at
  {
    later := seq(|at|, j requires 0 <= j < |at| => at[j] + from);
    forall i | i >= from && i - from in at
      ensures i in later
    {
      var j :| 0 <= j < |at| && at[j] == i - from;
      assert later[j] == i;
    }
  }

  // The newest of a picked list.
  lemma {:induction false} PickNewest<T>(picked: seq<T>, s: seq<T>, at: seq<nat>, n: nat) returns (newest: seq<nat>)
    requires PickedAt(picked, s, at)
    ensures PickedAt(Newest(picked, n), s, newest)
    ensures |newest| == (if |at| > n then n else |at|) && newest == at[|at| - |newest|..]
  {
    hide PickedAt;
    PickedFacts(picked, s, at);
    var a, b := if |at| > n then |at| - n else 0, |at|;
    newest := at[a..b];
    PickSlice(picked, s, at, a, b);
    assert Newest(picked, n) == picked[a..b];
  }

  // A last part of the positions: what it leaves out is older, and it leaves something out exactly when it is shorter.
  lemma {:induction false} LeftOut<T>(picked: seq<T>, s: seq<T>, all: seq<nat>, at: seq<nat>)
    requires PickedAt(picked, s, all) && |at| <= |all| && at == all[|all| - |at|..]
    ensures forall i | i in at :: i in all
    ensures forall i | i in all && i !in at :: |at| < |all| && (at == [] || i < at[0])
    ensures |at| < |all| ==> exists i :: i in all && i !in at
  {
    hide PickedAt;
    var a := |all| - |at|;
    InSlice(all, a, |all|);
    assert all[a..|all|] == at;
    forall i | i in all && i !in at
      ensures |at| < |all| && (at == [] || i < at[0])
    {
      var j := OutsideSlice(picked, s, all, a, |all|, i);
      if at != [] {
        PickedOrder(picked, s, all, j, a);
      }
    }
    if a > 0 {
      assert all[0] in all;
      forall j | 0 <= j < |at|
        ensures at[j] != all[0]
      {
        PickedOrder(picked, s, all, 0, a + j);
        assert at[j] == all[a + j];
      }
    }
  }

  // ---------------------------------------------------------------- what was missed

  // The agent answered at or after this position.
  ghost predicate AnsweredSince(messages: seq<ChatMessage>, target: string, i: nat) {
    exists k | i <= k < |messages| :: messages[k].agentId == target && !messages[k].isError
  }

  // Said by another agent, or by a user to nobody in particular or to others.
  predicate FromOthers(m: ChatMessage, target: string) {
    && m.role != "system" && m.isError == false
    && if m.agentId == "" then m.role == "user" && (m.broadcast == [] || target !in m.broadcast) else m.agentId != target
  }

  /** An agent with a session catches up on just the messages from others that stand after its last own one, errors and system messages aside, in order. */
  lemma {:induction false} DeltaMeans(messages: seq<ChatMessage>, target: string, m: ChatMessage) returns (at: seq<nat>)
    ensures PickedAt(CatchUp(messages, target, m, true), messages, at)
    ensures forall i: nat :: i in at <==> i < |messages| && !AnsweredSince(messages, target, i) && FromOthers(messages[i], target)
  {
    hide PickedAt;
    StartExact(messages, target);
    var from := Start(messages, target);
    var later := FilterPicks(MissedBy(target), messages[from..]);
    at := PickLater(Delta(messages, target), messages, later, from);
    forall i: nat
      ensures i in at <==> i < |messages| && !AnsweredSince(messages, target, i) && FromOthers(messages[i], target)
    {
      if from <= i < |messages| {
        assert messages[from..][i - from] == messages[i];
      } else if i < from {
        assert AnsweredSince(messages, target, i) by {
          assert messages[from - 1].agentId == target;
        }
      }
    }
  }

  // The latest message with the role and content of this one.
  ghost predicate IsLatestLike(messages: seq<ChatMessage>, m: ChatMessage, i: nat)
    requires i < |messages|
  {
    && messages[i].role == m.role && messages[i].content == m.content
    && forall k | i < k < |messages| :: messages[k].role != m.role || messages[k].content != m.content
  }

  lemma {:induction false} LatestFound(messages: seq<ChatMessage>, m: ChatMessage)
    ensures match LatestLike(messages, m)
      case Some(i) => IsLatestLike(messages, m, i)
      case None => forall k | 0 <= k < |messages| :: messages[k].role != m.role || messages[k].content != m.content
  {
    if messages == [] {
    } else {
      LatestFound(messages[..|messages| - 1], m);
    }
  }

  lemma {:induction false} ExceptPicks(messages: seq<ChatMessage>, skip: int) returns (at: seq<nat>)
    ensures PickedAt(SendableExcept(messages, skip), messages, at)
    ensures forall i :: i in at <==> 0 <= i < |messages| && i != skip && Sendable(messages[i])
  {
    hide PickedAt, Sendable;
    at := [];
    if messages == [] {
      assert SendableExcept(messages, skip) == [] && PickedAt(messages, messages, []) by { NothingPicked<ChatMessage>(); }
    } else {
      var n := |messages| - 1;
      at := ExceptPicks(messages[..n], skip);
      PickOneMore(SendableExcept(messages[..n], skip), messages, at);
      assert forall i | 0 <= i < n :: messages[..n][i] == messages[i];
      if n == skip || !Sendable(messages[n]) {
        assert SendableExcept(messages[..n], skip) + [] == SendableExcept(messages[..n], skip);
      } else {
        at := at + [n];
      }
    }
  }

  /**
   * An agent without a session catches up on the newest ten messages, in order,
   * errors, system messages and the latest copy of the new message aside; where
   * it is told fewer there are no more.
   */
  lemma {:induction false} FirstContactMeans(messages: seq<ChatMessage>, target: string, m: ChatMessage) returns (at: seq<nat>)
    ensures PickedAt(CatchUp(messages, target, m, false), messages, at)
    ensures |at| <= 10
    ensures forall i: nat | i in at :: i < |messages| && messages[i].role != "system" && !messages[i].isError && !IsLatestLike(messages, m, i)
    ensures forall i: nat |
        i < |messages| && messages[i].role != "system" && !messages[i].isError && !IsLatestLike(messages, m, i) && i !in at ::
      |at| == 10 && i < at[0]
  {
    hide PickedAt, Filter, Without, LatestLike;
    LatestFound(messages, m);
    var skip := LatestLike(messages, m);
    var all := ExceptPicks(messages, if skip.Some? then skip.value else -1);
    ExceptIsFilter(messages, skip);
    var sendable := Filter(IsSendable(), Without(messages, skip));
    at := PickNewest(sendable, messages, all, 10);
    LeftOut(sendable, messages, all, at);
    forall i: nat | i < |messages|
      ensures IsLatestLike(messages, m, i) <==> skip == Some(i)
    {}
  }

  // ---------------------------------------------------------------- how it is told

  // Worth telling: no error, no system message, not the moderator's, and not blank.
  predicate Tellable(m: ChatMessage) {
    m.role != "system" && m.isError == false && m.agentId != "moderator" && Headers.TrimRight(Headers.TrimLeft(m.content)) != ""
  }

  /** A line: who speaks and at most 4000 characters of what was said. */
  lemma {:induction false} LineMeans(m: ChatMessage)
    ensures var said := if |m.content| <= 4000 then m.content else m.content[..4000];
      var who :=
        if m.role == "assistant" then "Agent[" + m.agentId + "]"
        else if m.userName == "" then if m.userEmail == "" then "User" else "User[" + m.userEmail + "]"
        else "User[" + m.userName + "]";
      Text([m]) == who + ": " + said + "\n"
  {
    TextOne(m);
  }

  lemma {:induction false} ContributesWhen(m: ChatMessage)
    ensures Contributes(m) <==> Tellable(m)
  {}

  lemma {:induction false} TellablePicks(messages: seq<ChatMessage>) returns (all: seq<nat>)
    ensures PickedAt(Filter(IsContribution(), messages), messages, all)
    ensures forall i: nat :: i in all <==> i < |messages| && Tellable(messages[i])
  {
    hide PickedAt, Filter, Contributes, Tellable;
    all := FilterPicks(IsContribution(), messages);
    forall i: nat | i < |messages|
      ensures Contributes(messages[i]) <==> Tellable(messages[i])
    {
      ContributesWhen(messages[i]);
    }
  }

  lemma {:induction false} LastOfLast(all: seq<nat>, newest: seq<nat>, at: seq<nat>)
    requires |newest| <= |all| && newest == all[|all| - |newest|..]
    requires |at| <= |newest| && at == newest[|newest| - |at|..]
    ensures at == all[|all| - |at|..]
  {}

  lemma {:induction false} LastIsNewest(messages: seq<ChatMessage>, k: nat)
    requires k <= |Window(messages)|
    ensures Newest(Window(messages), k) == Last(messages, k)
    ensures Window(messages) == Newest(Filter(IsContribution(), messages), 8)
  {
    hide Filter;
  }

  lemma {:induction false} WindowSuffix(messages: seq<ChatMessage>, all: seq<nat>, k: nat) returns (at: seq<nat>)
    requires PickedAt(Filter(IsContribution(), messages), messages, all) && k <= |Window(messages)|
    ensures |all| == |Filter(IsContribution(), messages)| && |Window(messages)| == (if |all| > 8 then 8 else |all|)
    ensures PickedAt(Last(messages, k), messages, at)
    ensures |at| == k <= |all| && at == all[|all| - k..]
  {
    hide PickedAt, Filter, Window, Last, Newest;
    var tellable := Filter(IsContribution(), messages);
    LastIsNewest(messages, k);
    PickedFacts(tellable, messages, all);
    var newest := PickNewest(tellable, messages, all, 8);
    PickedFacts(Window(messages), messages, newest);
    at := PickNewest(Window(messages), messages, newest, k);
    LastOfLast(all, newest, at);
  }

  // The tellable messages and, among them, those told.
  lemma {:induction false} WindowPicks(messages: seq<ChatMessage>, k: nat) returns (all: seq<nat>, at: seq<nat>)
    requires k <= |Window(messages)|
    ensures |Window(messages)| == (if |all| > 8 then 8 else |all|) && |all| == |Filter(IsContribution(), messages)|
    ensures PickedAt(Last(messages, k), messages, at) && |at| == k
    ensures forall i: nat :: i in all <==> i < |messages| && Tellable(messages[i])
    ensures forall i | i in at :: i in all
    ensures forall i | i in all && i !in at :: k < |all| && (at == [] || i < at[0])
    ensures k < |all| ==> exists i :: i in all && i !in at
  {
    hide PickedAt, Filter, Tellable, Window, Last;
    all := TellablePicks(messages);
    at := WindowSuffix(messages, all, k);
    LeftOut(Filter(IsContribution(), messages), messages, all, at);
  }

  /**
   * The window tells the newest tellable messages, oldest first, at most eight
   * and no longer a run of them than fits into 24000 characters with the note.
   * The note is there exactly when a tellable message is missing or a told one
   * was cut.
   */
  lemma {:induction false} WindowMeans(messages: seq<ChatMessage>, text: string, k: nat) returns (at: seq<nat>)
    requires LongestWindow(messages, text, k)
    ensures k <= |Window(messages)| && PickedAt(Last(messages, k), messages, at)
    ensures forall i: nat | i in at :: i < |messages| && Tellable(messages[i])
    ensures forall i: nat | i < |messages| && Tellable(messages[i]) && i !in at :: at == [] || i < at[0]
    ensures var note := "\n[Earlier or oversized contributions were truncated.]\n";
      var missing := exists i: nat :: i < |messages| && Tellable(messages[i]) && i !in at;
      var cut := exists m :: m in Last(messages, k) && |m.content| > 4000;
      && text == Headers.TrimRight(Headers.TrimLeft(Text(Last(messages, k)) + if missing || cut then note else ""))
      && |Text(Last(messages, k))| + |note| <= 24000
      && (missing && k != 8 ==> k < |Window(messages)| && |Text(Last(messages, k + 1))| + |note| > 24000)
  {
    hide PickedAt, Text, Filter, Tellable, Window;
    var all;
    all, at := WindowPicks(messages, k);
    var missing := exists i: nat :: i < |messages| && Tellable(messages[i]) && i !in at;
    assert missing <==> k < |all|;
    assert Shortened(messages, k) <==> missing || exists m :: m in Last(messages, k) && |m.content| > 4000;
  }

  // ---------------------------------------------------------------- the summary and the message

  function Contents(messages: seq<ChatMessage>): string {
    if messages == [] then "" else Contents(messages[..|messages| - 1]) + messages[|messages| - 1].content
  }

  lemma {:induction false} BytesOfContents(messages: seq<ChatMessage>)
    ensures TotalBytes(messages) == Headers.Bytes(Contents(messages))
  {
    hide Headers.Bytes;
    if messages == [] {
      Headers.NothingJoined();
    } else {
      var n := |messages| - 1;
      BytesOfContents(messages[..n]);
      Headers.BytesConcat(Contents(messages[..n]), messages[n].content);
    }
  }

  /**
   * A summary is asked for when there is a summarizer and a limit and the
   * contents, at four bytes a token, exceed the limit times the threshold; a
   * negative product is rounded up.
   */
  lemma {:induction false} SummaryWhen(messages: seq<ChatMessage>, present: bool, maxTokens: int, threshold: real)
    ensures WantsSummary(messages, present, maxTokens, threshold) <==>
      var tokens, limit := Headers.Bytes(Contents(messages)) / 4, maxTokens as real * threshold;
      && present && maxTokens > 0
      && if limit >= 0.0 then tokens as real > limit else tokens > 0 || limit <= -1.0
  {
    hide Headers.Bytes;
    BytesOfContents(messages);
    var tokens, limit := Headers.Bytes(Contents(messages)) / 4, maxTokens as real * threshold;
    if limit < 0.0 {
      assert (-limit).Floor as real <= -limit < (-limit).Floor as real + 1.0;
    }
  }

  /** A summary goes out whole when it fits with its heading and the note on cutting; otherwise it is cut so that they take 24000 characters. */
  lemma {:induction false} SummaryMeans(summary: string)
    ensures var (head, note) := ("Summary of earlier contributions:\n", "\n[Summary truncated.]");
      && (|head| + |summary| + |note| <= 24000 ==> SummaryText(summary) == head + summary)
      && (|head| + |summary| + |note| > 24000 ==>
            && |SummaryText(summary)| == 24000
            && SummaryText(summary)[..24000 - |note|] <= head + summary
            && SummaryText(summary)[24000 - |note|..] == note)
  {
    var text := SummaryText(summary);
    if |summary| > MAX_SUMMARY_RUNES {
      assert text == SUMMARY_PREFIX + summary[..MAX_SUMMARY_RUNES] + SUMMARY_MARKER;
    }
  }

  /** The message sent is the request under its heading, the context under its own, and the instruction. */
  lemma {:induction false} MessageMeans(request: string, context: string)
    ensures Canonical(request, context) ==
      "[Original user request]\n" + request + "\n\n[Previous group contributions]\n" + context + INSTRUCTION
  {}

  /** The context is the summary when one was asked for and came back with a text, whatever the window would tell, and never otherwise. */
  lemma {:induction false} ContextMeans(messages: seq<ChatMessage>, wanted: bool, summary: Option<string>, context: string)
    requires ContextOf(messages, wanted, summary, context)
    ensures wanted && summary.Some? && |summary.value| > 0 ==> context == SummaryText(summary.value)
    ensures !wanted || summary.None? || summary == Some("") ==> exists k :: LongestWindow(messages, context, k)
  {}
}
