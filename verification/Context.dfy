/** What an agent of a group is told: the messages it has missed, within a bounded window. */
module Context {
  import opened Prelude
  import Headers

  datatype ChatMessage = ChatMessage(
    role: string, content: string, agentId: string, userName: string, userEmail: string,
    broadcast: seq<string>, isError: bool)

  const MAX_CONTEXT_MESSAGES: nat := 10

  const MAX_CONTRIBUTIONS: nat := 8

  const MAX_CONTRIBUTION_RUNES: nat := 4000

  const MAX_CONTEXT_RUNES: nat := 24000

  function Filter<T>(keep: T -> bool, s: seq<T>): seq<T> {
    if s == [] then []
    else Filter(keep, s[..|s| - 1]) + if keep(s[|s| - 1]) then [s[|s| - 1]] else []
  }

  lemma {:induction false} FilterConcat<T>(keep: T -> bool, a: seq<T>, b: seq<T>)
    ensures Filter(keep, a + b) == Filter(keep, a) + Filter(keep, b)
  {
    if b == [] {
      assert a + b == a;
    } else {
      assert (a + b)[..|a + b| - 1] == a + b[..|b| - 1];
      FilterConcat(keep, a, b[..|b| - 1]);
    }
  }

  lemma {:induction false} NothingKept<T>(keep: T -> bool)
    ensures Filter(keep, []) == []
  {}

  lemma {:induction false} FilterOne<T>(keep: T -> bool, x: T)
    ensures Filter(keep, [x]) == if keep(x) then [x] else []
  {
    assert [x][..0] == [];
  }

  lemma {:induction false} FilterStep<T>(keep: T -> bool, s: seq<T>, i: nat)
    requires i < |s|
    ensures Filter(keep, s[..i + 1]) == Filter(keep, s[..i]) + if keep(s[i]) then [s[i]] else []
  {
    assert s[..i + 1][..i] == s[..i];
  }

  // At most the last n elements.
  function Newest<T>(s: seq<T>, n: nat): seq<T> {
    if |s| > n then s[|s| - n..] else s
  }

  // ---------------------------------------------------------------- what an agent has missed

  predicate Sendable(m: ChatMessage) {
    m.role != "system" && !m.isError
  }

  // The agent took part: a message of its own that is no error.
  predicate Success(m: ChatMessage, target: string) {
    m.agentId == target && !m.isError
  }

  // Another agent's message, or a user's that was not addressed to this agent.
  predicate Missed(m: ChatMessage, target: string) {
    && Sendable(m)
    && ((m.agentId != "" && m.agentId != target) || (m.role == "user" && m.agentId == "" && target !in m.broadcast))
  }

  function MissedBy(target: string): ChatMessage -> bool {
    m => Missed(m, target)
  }

  // One past the agent's last success.
  function Start(messages: seq<ChatMessage>, target: string): nat {
    if messages == [] then 0
    else if Success(messages[|messages| - 1], target) then |messages|
    else Start(messages[..|messages| - 1], target)
  }

  lemma {:induction false} StartExact(messages: seq<ChatMessage>, target: string)
    ensures var i := Start(messages, target);
      && i <= |messages|
      && (i > 0 ==> Success(messages[i - 1], target))
      && (forall k | i <= k < |messages| :: !Success(messages[k], target))
  {
    hide Success;
    if messages == [] {
    } else {
      StartExact(messages[..|messages| - 1], target);
    }
  }

  // All that the agent has missed since its last success.
  function Delta(messages: seq<ChatMessage>, target: string): seq<ChatMessage> {
    StartExact(messages, target);
    Filter(MissedBy(target), messages[Start(messages, target)..])
  }

  method HasSuccessfulResponse(messages: seq<ChatMessage>, after: nat, agentId: string) returns (found: bool)
    requires after < |messages|
    ensures found <==> exists j | after < j < |messages| :: Success(messages[j], agentId)
  {
    for j := after + 1 to |messages|
      invariant forall k | after < k < j :: !Success(messages[k], agentId)
    {
      if messages[j].agentId == agentId && !messages[j].isError {
        return true;
      }
    }
    return false;
  }

  /**
   * The search for the agent's last involvement: a broadcast counts only if the
   * agent succeeded after it, and then that success was found before, so the
   * agent's own last success alone decides.
   */
  method LastInvolved(messages: seq<ChatMessage>, target: string) returns (last: int)
    ensures last == Start(messages, target) - 1
  {
    assert messages[..|messages|] == messages;
    for i := |messages| downto 0
      invariant forall k | i <= k < |messages| :: !Success(messages[k], target)
      invariant Start(messages, target) == Start(messages[..i], target)
    {
      var m := messages[i];
      assert messages[..i + 1][..i] == messages[..i];
      if m.isError {
        continue;
      }
      if m.agentId == target {
        return i;
      }
      if target in m.broadcast {
        var answered := HasSuccessfulResponse(messages, i, target);
        if answered {
          return i;
        }
        continue;
      }
    }
    return -1;
  }

  method CalculateDelta(messages: seq<ChatMessage>, target: string) returns (delta: seq<ChatMessage>)
    ensures delta == Delta(messages, target)
  {
    var last := LastInvolved(messages, target);
    StartExact(messages, target);
    ghost var rest := messages[last + 1..];
    delta := [];
    for i := last + 1 to |messages|
      invariant delta == Filter(MissedBy(target), rest[..i - last - 1])
    {
      var m := messages[i];
      FilterStep(MissedBy(target), rest, i - last - 1);
      if m.role == "system" || m.isError {
        continue;
      }
      if m.agentId != "" && m.agentId != target {
        delta := delta + [m];
        continue;
      }
      if m.role == "user" && m.agentId == "" && m.broadcast != [] && target !in m.broadcast {
        delta := delta + [m];
        continue;
      }
      if m.role == "user" && m.agentId == "" && m.broadcast == [] {
        delta := delta + [m];
        continue;
      }
    }
    assert rest[..|rest|] == rest;
  }

  // ---------------------------------------------------------------- first contact

  // The latest message with this role and content.
  function LatestLike(messages: seq<ChatMessage>, m: ChatMessage): (i: Option<nat>)
    ensures i.Some? ==> i.value < |messages|
  {
    if messages == [] then None
    else
      var n := |messages| - 1;
      if messages[n].role == m.role && messages[n].content == m.content then Some(n) else LatestLike(messages[..n], m)
  }

  function Without<T>(s: seq<T>, i: Option<nat>): seq<T>
    requires i.Some? ==> i.value < |s|
  {
    if i.Some? then s[..i.value] + s[i.value + 1..] else s
  }

  function IsSendable(): ChatMessage -> bool {
    m => Sendable(m)
  }

  // The newest messages an agent without a session is told, the new message aside.
  function AllExceptLast(messages: seq<ChatMessage>, m: ChatMessage): seq<ChatMessage> {
    Newest(Filter(IsSendable(), Without(messages, LatestLike(messages, m))), MAX_CONTEXT_MESSAGES)
  }

  // What may be sent of the messages, one position skipped.
  function SendableExcept(messages: seq<ChatMessage>, skip: int): seq<ChatMessage> {
    if messages == [] then []
    else
      var n := |messages| - 1;
      SendableExcept(messages[..n], skip) + if n == skip || !Sendable(messages[n]) then [] else [messages[n]]
  }

  lemma {:induction false} WithoutOneMore<T>(s: seq<T>, skip: Option<nat>)
    requires s != [] && (skip.Some? ==> skip.value < |s| - 1)
    ensures Without(s, skip) == Without(s[..|s| - 1], skip) + [s[|s| - 1]]
  {
    var n := |s| - 1;
    assert s == s[..n] + [s[n]];
    if skip.Some? {
      assert s[skip.value + 1..] == s[..n][skip.value + 1..] + [s[n]];
      assert s[..skip.value] == s[..n][..skip.value];
    }
  }

  lemma {:induction false} SkipsNone(messages: seq<ChatMessage>, skip: nat)
    requires skip >= |messages|
    ensures SendableExcept(messages, skip) == Filter(IsSendable(), messages)
  {
    if messages == [] {
    } else {
      SkipsNone(messages[..|messages| - 1], skip);
    }
  }

  lemma {:induction false} ExceptIsFilter(messages: seq<ChatMessage>, skip: Option<nat>)
    requires skip.Some? ==> skip.value < |messages|
    ensures SendableExcept(messages, if skip.Some? then skip.value else -1) == Filter(IsSendable(), Without(messages, skip))
  {
    hide Sendable, Filter;
    if messages == [] {
      NothingKept(IsSendable());
      assert Without(messages, skip) == [];
    } else {
      var n := |messages| - 1;
      if skip == Some(n) {
        SkipsNone(messages[..n], n);
        assert Without(messages, skip) == messages[..n];
      } else {
        ExceptIsFilter(messages[..n], skip);
        WithoutOneMore(messages, skip);
        FilterConcat(IsSendable(), Without(messages[..n], skip), [messages[n]]);
        FilterOne(IsSendable(), messages[n]);
      }
    }
  }

  method LatestIndex(messages: seq<ChatMessage>, m: ChatMessage) returns (exclude: int)
    ensures exclude == match LatestLike(messages, m) case Some(i) => i case None => -1
  {
    assert messages[..|messages|] == messages;
    for i := |messages| downto 0
      invariant LatestLike(messages, m) == LatestLike(messages[..i], m)
    {
      assert messages[..i + 1][..i] == messages[..i];
      if messages[i].role == m.role && messages[i].content == m.content {
        return i;
      }
    }
    return -1;
  }

  method AllMessagesExceptLast(messages: seq<ChatMessage>, newMessage: ChatMessage) returns (result: seq<ChatMessage>)
    ensures result == AllExceptLast(messages, newMessage)
  {
    hide Filter, Without, LatestLike;
    var exclude := LatestIndex(messages, newMessage);
    result := [];
    for i := 0 to |messages|
      invariant result == SendableExcept(messages[..i], exclude)
    {
      assert messages[..i + 1][..i] == messages[..i];
      if i == exclude {
        continue;
      }
      var m := messages[i];
      if m.role == "system" || m.isError {
        continue;
      }
      result := result + [m];
    }
    assert messages[..|messages|] == messages;
    ExceptIsFilter(messages, LatestLike(messages, newMessage));
    if |result| > MAX_CONTEXT_MESSAGES {
      result := result[|result| - MAX_CONTEXT_MESSAGES..];
    }
  }

  // ---------------------------------------------------------------- the bounded window

  const MARKER := "\n[Earlier or oversized contributions were truncated.]\n"

  const BUDGET := MAX_CONTEXT_RUNES - |MARKER|

  function TrimSpace(s: string): string {
    Headers.TrimRight(Headers.TrimLeft(s))
  }

  // A message worth repeating to the others.
  predicate Contributes(m: ChatMessage) {
    Sendable(m) && m.agentId != "moderator" && TrimSpace(m.content) != ""
  }

  function IsContribution(): ChatMessage -> bool {
    m => Contributes(m)
  }

  function Speaker(m: ChatMessage): string {
    if m.role == "assistant" then "Agent[" + m.agentId + "]"
    else if m.userName != "" then "User[" + m.userName + "]"
    else if m.userEmail != "" then "User[" + m.userEmail + "]"
    else "User"
  }

  predicate Oversized(m: ChatMessage) {
    |m.content| > MAX_CONTRIBUTION_RUNES
  }

  function Line(m: ChatMessage): string {
    Speaker(m) + ": " + (if Oversized(m) then m.content[..MAX_CONTRIBUTION_RUNES] else m.content) + "\n"
  }

  function Text(messages: seq<ChatMessage>): string {
    if messages == [] then "" else Line(messages[0]) + Text(messages[1..])
  }

  // The contributions that are considered: the newest ones.
  function Window(messages: seq<ChatMessage>): seq<ChatMessage> {
    Newest(Filter(IsContribution(), messages), MAX_CONTRIBUTIONS)
  }

  // The k newest considered contributions.
  function Last(messages: seq<ChatMessage>, k: nat): seq<ChatMessage>
    requires k <= |Window(messages)|
  {
    Window(messages)[|Window(messages)| - k..]
  }

  // Something was left out or cut: an older contribution, one that did not fit, or the end of a long one.
  predicate Shortened(messages: seq<ChatMessage>, k: nat)
    requires k <= |Window(messages)|
  {
    || |Filter(IsContribution(), messages)| > MAX_CONTRIBUTIONS || k < |Window(messages)|
    || exists m | m in Last(messages, k) :: Oversized(m)
  }

  // The text tells the k newest contributions, and one more would not fit.
  ghost predicate LongestWindow(messages: seq<ChatMessage>, text: string, k: nat) {
    && k <= |Window(messages)|
    && |Text(Last(messages, k))| <= BUDGET
    && (k < |Window(messages)| ==> |Text(Last(messages, k + 1))| > BUDGET)
    && text == TrimSpace(Text(Last(messages, k)) + if Shortened(messages, k) then MARKER else "")
  }

  lemma {:induction false} TextConcat(a: seq<ChatMessage>, b: seq<ChatMessage>)
    ensures Text(a + b) == Text(a) + Text(b)
    decreases |a|
  {
    hide Line;
    if a == [] {
      assert a + b == b;
    } else {
      assert (a + b)[1..] == a[1..] + b;
      TextConcat(a[1..], b);
    }
  }

  lemma {:induction false} TextOne(m: ChatMessage)
    ensures Text([m]) == Line(m)
  {
    assert [m][1..] == [];
    assert Line(m) + "" == Line(m);
  }

  method FormatLine(m: ChatMessage) returns (line: string, long: bool)
    ensures line == Line(m) && long == Oversized(m)
  {
    var content := m.content;
    if |content| > MAX_CONTRIBUTION_RUNES {
      content := content[..MAX_CONTRIBUTION_RUNES];
      long := true;
    } else {
      long := false;
    }
    line := Speaker(m) + ": " + content + "\n";
  }

  method Contributions(messages: seq<ChatMessage>) returns (filtered: seq<ChatMessage>)
    ensures filtered == Filter(IsContribution(), messages)
  {
    hide TrimSpace;
    filtered := [];
    for i := 0 to |messages|
      invariant filtered == Filter(IsContribution(), messages[..i])
    {
      var m := messages[i];
      FilterStep(IsContribution(), messages, i);
      if m.role == "system" || m.isError || m.agentId == "moderator" || TrimSpace(m.content) == "" {
        continue;
      }
      filtered := filtered + [m];
    }
    assert messages[..|messages|] == messages;
  }

  lemma {:induction false} OneMoreLine(window: seq<ChatMessage>, i: nat)
    requires i < |window|
    ensures window[i..] == [window[i]] + window[i + 1..]
    ensures |Text(window[i..])| == |Line(window[i])| + |Text(window[i + 1..])|
  {
    hide Line;
    assert window[i..] == [window[i]] + window[i + 1..];
    TextOne(window[i]);
    TextConcat([window[i]], window[i + 1..]);
  }

  lemma {:induction false} NoText(messages: seq<ChatMessage>)
    requires messages == []
    ensures Text(messages) == ""
  {}

  // As many of the newest lines as fit, newest first.
  method TakeLines(window: seq<ChatMessage>) returns (lines: seq<string>, truncated: bool)
    ensures var k := |lines|;
      && k <= |window|
      && (forall j | 0 <= j < k :: lines[j] == Line(window[|window| - 1 - j]))
      && |Text(window[|window| - k..])| <= BUDGET
      && (k < |window| ==> |Text(window[|window| - k - 1..])| > BUDGET)
      && (truncated <==> k < |window| || exists m | m in window[|window| - k..] :: Oversized(m))
  {
    hide Line, Text, Oversized;
    var remaining := BUDGET;
    var n := |window|;
    lines, truncated := [], false;
    assert Text(window[n..]) == "" by { NoText(window[n..]); }
    for i := n downto 0
      invariant |lines| == n - i
      invariant forall j | 0 <= j < n - i :: lines[j] == Line(window[n - 1 - j])
      invariant remaining == BUDGET - |Text(window[i..])| && remaining >= 0
      invariant truncated <==> exists m | m in window[i..] :: Oversized(m)
    {
      OneMoreLine(window, i);
      var line, long := FormatLine(window[i]);
      truncated := truncated || long;
      if |line| > remaining {
        return lines, true;
      }
      lines := lines + [line];
      remaining := remaining - |line|;
    }
  }

  // The lines were collected newest first and are written oldest first.
  method WriteLines(lines: seq<string>, ghost of: seq<ChatMessage>) returns (text: string)
    requires |lines| == |of| && forall j | 0 <= j < |lines| :: lines[j] == Line(of[|of| - 1 - j])
    ensures text == Text(of)
  {
    hide Line;
    text := "";
    ghost var n := |of|;
    for i := |lines| downto 0
      invariant text == Text(of[..n - i])
    {
      text := text + lines[i];
      TextConcat(of[..n - 1 - i], [of[n - 1 - i]]);
      TextOne(of[n - 1 - i]);
      assert of[..n - i] == of[..n - 1 - i] + [of[n - 1 - i]];
    }
    assert of[..n] == of;
  }

  method NewestContributions(messages: seq<ChatMessage>) returns (window: seq<ChatMessage>, cut: bool)
    ensures window == Window(messages) && cut == (|Filter(IsContribution(), messages)| > MAX_CONTRIBUTIONS)
  {
    hide Filter;
    window := Contributions(messages);
    cut := |window| > MAX_CONTRIBUTIONS;
    if cut {
      window := window[|window| - MAX_CONTRIBUTIONS..];
    }
  }

  lemma {:induction false} WindowFound(messages: seq<ChatMessage>, text: string, k: nat, cut: bool, truncated: bool)
    requires k <= |Window(messages)|
    requires |Text(Last(messages, k))| <= BUDGET
    requires k < |Window(messages)| ==> |Text(Last(messages, k + 1))| > BUDGET
    requires cut == (|Filter(IsContribution(), messages)| > MAX_CONTRIBUTIONS)
    requires truncated <==> k < |Window(messages)| || exists m | m in Last(messages, k) :: Oversized(m)
    requires text == TrimSpace(Text(Last(messages, k)) + if cut || truncated then MARKER else "")
    ensures LongestWindow(messages, text, k)
  {
    hide Filter, Window, Last, Text, TrimSpace, Oversized;
  }

  method BuildContext(messages: seq<ChatMessage>) returns (text: string)
    ensures exists k :: LongestWindow(messages, text, k)
  {
    hide Line, TrimSpace, Filter, Text, Oversized, Window, LongestWindow;
    var window, cut := NewestContributions(messages);
    var lines, truncated := TakeLines(window);
    ghost var k := |lines|;
    text := WriteLines(lines, Last(messages, k));
    assert text + "" == text;
    if cut || truncated {
      text := text + MARKER;
    }
    text := TrimSpace(text);
    WindowFound(messages, text, k, cut, truncated);
  }

  lemma {:induction false} TrimLeftShorter(s: string)
    ensures |Headers.TrimLeft(s)| <= |s|
  {
    if s == "" {
    } else if Headers.Space(s[0]) {
      TrimLeftShorter(s[1..]);
    }
  }

  lemma {:induction false} TrimmedShorter(s: string)
    ensures |TrimSpace(s)| <= |s|
  {
    TrimLeftShorter(s);
    Headers.TrimmedRight(Headers.TrimLeft(s));
  }

  lemma {:induction false} LongerText(messages: seq<ChatMessage>, j: nat, k: nat)
    requires j <= k <= |Window(messages)|
    ensures |Text(Last(messages, j))| <= |Text(Last(messages, k))|
  {
    hide Window, Text;
    var w := Window(messages);
    assert Last(messages, k) == Last(messages, k)[..k - j] + Last(messages, j);
    TextConcat(Last(messages, k)[..k - j], Last(messages, j));
  }

  /**
   * The context keeps within its limits, and which contributions it tells is
   * determined: at most eight, the newest, and no longer run of them would fit.
   */
  lemma {:induction false} WindowIsBounded(messages: seq<ChatMessage>, text: string, k: nat)
    requires LongestWindow(messages, text, k)
    ensures |text| <= MAX_CONTEXT_RUNES && k <= MAX_CONTRIBUTIONS
    ensures forall j | 0 <= j <= |Window(messages)| :: |Text(Last(messages, j))| <= BUDGET <==> j <= k
  {
    hide TrimSpace, Text, Filter;
    var whole := Text(Last(messages, k)) + if Shortened(messages, k) then MARKER else "";
    TrimmedShorter(whole);
    forall j: nat | j <= |Window(messages)|
      ensures |Text(Last(messages, j))| <= BUDGET <==> j <= k
    {
      if j <= k {
        LongerText(messages, j, k);
      } else {
        LongerText(messages, k + 1, j);
      }
    }
  }

  lemma {:induction false} FilterKeepsAll<T>(keep: T -> bool, s: seq<T>)
    ensures |Filter(keep, s)| <= |s|
    ensures |Filter(keep, s)| == |s| <==> forall i | 0 <= i < |s| :: keep(s[i])
    ensures |Filter(keep, s)| == |s| ==> Filter(keep, s) == s
  {
    if s == [] {
    } else {
      var n := |s| - 1;
      FilterKeepsAll(keep, s[..n]);
      assert s == s[..n] + [s[n]];
      assert forall i | 0 <= i < n :: s[..n][i] == s[i];
    }
  }

  // The context tells all of these messages, none of them cut.
  predicate TellsAll(messages: seq<ChatMessage>, k: nat)
    requires k <= |Window(messages)|
  {
    Last(messages, k) == messages && !Shortened(messages, k)
  }

  // Few enough, short enough, and each of them worth repeating.
  predicate FitsWhole(messages: seq<ChatMessage>) {
    && |messages| <= MAX_CONTRIBUTIONS && |Text(messages)| <= BUDGET
    && forall i | 0 <= i < |messages| :: Contributes(messages[i]) && !Oversized(messages[i])
  }

  lemma {:induction false} WholeFits(messages: seq<ChatMessage>, k: nat)
    requires k <= |Window(messages)| && |Text(Last(messages, k))| <= BUDGET && TellsAll(messages, k)
    ensures FitsWhole(messages)
  {
    hide Text, Filter, Contributes, Oversized;
    FilterKeepsAll(IsContribution(), messages);
    assert |messages| == k <= |Window(messages)| <= |Filter(IsContribution(), messages)|;
    assert forall i | 0 <= i < |messages| :: messages[i] in Last(messages, k);
  }

  lemma {:induction false} FittingIsWhole(messages: seq<ChatMessage>, k: nat)
    requires k <= |Window(messages)| && (k < |Window(messages)| ==> |Text(Last(messages, k + 1))| > BUDGET)
    requires FitsWhole(messages)
    ensures TellsAll(messages, k)
  {
    hide Text, Filter, Contributes, Oversized;
    FilterKeepsAll(IsContribution(), messages);
    assert Window(messages) == messages && Last(messages, |messages|) == messages;
    if k < |messages| {
      LongerText(messages, k + 1, |messages|);
    }
  }

  /**
   * The context tells a whole catch-up exactly when it has at most eight
   * messages whose lines fit together, none is longer than the limit, and none
   * is blank, the moderator's, an error or a system message.
   */
  lemma {:induction false} TellsAllWhen(messages: seq<ChatMessage>, text: string, k: nat)
    requires LongestWindow(messages, text, k)
    ensures TellsAll(messages, k) <==> FitsWhole(messages)
    ensures TellsAll(messages, k) ==> text == TrimSpace(Text(messages))
  {
    hide TrimSpace, Text, Filter, FitsWhole, Window;
    if TellsAll(messages, k) {
      WholeFits(messages, k);
      assert Text(messages) + "" == Text(messages);
    }
    if FitsWhole(messages) {
      FittingIsWhole(messages, k);
    }
  }

  // ---------------------------------------------------------------- the prepared message

  const SUMMARY_PREFIX := "Summary of earlier contributions:\n"

  const SUMMARY_MARKER := "\n[Summary truncated.]"

  const MAX_SUMMARY_RUNES := MAX_CONTEXT_RUNES - |SUMMARY_PREFIX + SUMMARY_MARKER|

  function TotalBytes(messages: seq<ChatMessage>): nat {
    if messages == [] then 0 else TotalBytes(messages[..|messages| - 1]) + Headers.Bytes(messages[|messages| - 1].content)
  }

  method EstimateTokens(messages: seq<ChatMessage>) returns (tokens: nat)
    ensures tokens == TotalBytes(messages) / 4
  {
    var total := 0;
    for i := 0 to |messages|
      invariant total == TotalBytes(messages[..i])
    {
      assert messages[..i + 1][..i] == messages[..i];
      total := total + Headers.Bytes(messages[i].content);
    }
    assert messages[..|messages|] == messages;
    tokens := total / 4;
  }

  // Conversion to an integer drops the fraction, whatever the sign.
  function Truncate(x: real): int {
    if x >= 0.0 then x.Floor else -((-x).Floor)
  }

  // When a summary is asked for; present: there is a summarizer.
  predicate WantsSummary(messages: seq<ChatMessage>, present: bool, maxTokens: int, threshold: real) {
    present && maxTokens > 0 && TotalBytes(messages) / 4 > Truncate(maxTokens as real * threshold)
  }

  function SummaryText(summary: string): string {
    SUMMARY_PREFIX + if |summary| > MAX_SUMMARY_RUNES then summary[..MAX_SUMMARY_RUNES] + SUMMARY_MARKER else summary
  }

  const INSTRUCTION :=
    "\n\nContinue the group task using the original request and the contributions above. Complement, correct, or disagree when useful."

  function Canonical(request: string, context: string): string {
    "[Original user request]\n" + request + "\n\n[Previous group contributions]\n" + context + INSTRUCTION
  }

  // What the agent has to catch up on.
  function CatchUp(session: seq<ChatMessage>, target: string, m: ChatMessage, hasAgentSession: bool): seq<ChatMessage> {
    if hasAgentSession then Delta(session, target) else AllExceptLast(session, m)
  }

  // The context is the summary that was asked for and given, else the bounded window.
  ghost predicate ContextOf(messages: seq<ChatMessage>, wanted: bool, summary: Option<string>, context: string) {
    if wanted && summary.Some? && summary.value != "" then context == SummaryText(summary.value)
    else exists k :: LongestWindow(messages, context, k)
  }

  /** Whatever the messages and the summary, the context is within its limit. */
  lemma {:induction false} ContextIsBounded(messages: seq<ChatMessage>, wanted: bool, summary: Option<string>, context: string)
    requires ContextOf(messages, wanted, summary, context)
    ensures |context| <= MAX_CONTEXT_RUNES
  {
    hide LongestWindow;
    if !(wanted && summary.Some? && summary.value != "") {
      var k: nat :| LongestWindow(messages, context, k);
      WindowIsBounded(messages, context, k);
    }
  }

  lemma {:induction false} NothingToCatchUp(target: string, m: ChatMessage)
    ensures Delta([], target) == [] && AllExceptLast([], m) == []
  {}

  /** Where no summary was asked for and given, the context of a request is all of its catch-up exactly when that fits. */
  lemma {:induction false} WholeCatchUpWhen(messages: seq<ChatMessage>, wanted: bool, summary: Option<string>, context: string)
    requires ContextOf(messages, wanted, summary, context)
    requires !wanted || summary.None? || summary.value == ""
    ensures exists k :: LongestWindow(messages, context, k) && (TellsAll(messages, k) <==> FitsWhole(messages))
    ensures FitsWhole(messages) ==> context == TrimSpace(Text(messages))
  {
    var k: nat :| LongestWindow(messages, context, k);
    hide TellsAll, FitsWhole, Text, TrimSpace;
    TellsAllWhen(messages, context, k);
  }

  // The message for one agent; the summarizer's answer is None when it fails.
  method PrepareMessages(
      session: seq<ChatMessage>, target: string, newMessage: ChatMessage, hasAgentSession: bool, sendContext: bool,
      maxTokens: int, threshold: real, present: bool, summary: Option<string>)
    returns (message: ChatMessage, sent: bool)
    ensures sent <==> sendContext && CatchUp(session, target, newMessage, hasAgentSession) != []
    ensures !sent ==> message == newMessage
    ensures sent ==>
      var missed := CatchUp(session, target, newMessage, hasAgentSession);
      exists context ::
        && ContextOf(missed, WantsSummary(missed, present, maxTokens, threshold), summary, context)
        && |context| <= MAX_CONTEXT_RUNES
        && message == newMessage.(content := Canonical(newMessage.content, context))
  {
    hide Delta, AllExceptLast, Canonical, LongestWindow;
    if !sendContext {
      return newMessage, false;
    }
    if session == [] {
      NothingToCatchUp(target, newMessage);
      return newMessage, false;
    }
    var missed: seq<ChatMessage>;
    if !hasAgentSession {
      missed := AllMessagesExceptLast(session, newMessage);
    } else {
      missed := CalculateDelta(session, target);
    }
    if missed == [] {
      return newMessage, false;
    }
    var context := "";
    if present && maxTokens > 0 {
      var limit := Truncate(maxTokens as real * threshold);
      var estimate := EstimateTokens(missed);
      if estimate > limit && summary.Some? && summary.value != "" {
        context := SummaryText(summary.value);
      }
    }
    if context == "" {
      context := BuildContext(missed);
    }
    ContextIsBounded(missed, WantsSummary(missed, present, maxTokens, threshold), summary, context);
    return newMessage.(content := Canonical(newMessage.content, context)), true;
  }
}
