/** The in-memory transcript of a debate against what the session store holds. */
module Transcript {
  import opened Prelude
  import opened Turn

  // a can be obtained from b by leaving elements out.
  predicate Subseq(a: seq<Msg>, b: seq<Msg>) {
    a == [] ||
    (b != [] &&
     ((a[|a| - 1] == b[|b| - 1] && Subseq(a[..|a| - 1], b[..|b| - 1])) || Subseq(a, b[..|b| - 1])))
  }

  lemma {:induction false} SubseqIsShorter(a: seq<Msg>, b: seq<Msg>)
    requires Subseq(a, b)
    ensures |a| <= |b|
    decreases |b|
  {
    if a == [] {
    } else {
      if a[|a| - 1] == b[|b| - 1] && Subseq(a[..|a| - 1], b[..|b| - 1]) {
        SubseqIsShorter(a[..|a| - 1], b[..|b| - 1]);
      } else {
        SubseqIsShorter(a, b[..|b| - 1]);
      }
    }
  }

  lemma {:induction false} SubseqSelf(a: seq<Msg>)
    ensures Subseq(a, a)
  {
    if a == [] {
    } else {
      SubseqSelf(a[..|a| - 1]);
    }
  }

  lemma {:induction false} SubseqPicks(a: seq<Msg>, b: seq<Msg>) returns (at: seq<nat>)
    requires Subseq(a, b)
    ensures PickedAt(a, b, at)
  {
    hide PickedAt;
    if a == [] {
      at := [];
      assert PickedAt(a, b, at) by { NothingPicked<Msg>(); }
    } else if a[|a| - 1] == b[|b| - 1] && Subseq(a[..|a| - 1], b[..|b| - 1]) {
      at := SubseqPicks(a[..|a| - 1], b[..|b| - 1]);
      PickOneMore(a[..|a| - 1], b, at);
      assert a == a[..|a| - 1] + [b[|b| - 1]];
      at := at + [|b| - 1];
    } else {
      at := SubseqPicks(a, b[..|b| - 1]);
      PickOneMore(a, b, at);
    }
  }

  lemma {:induction false} PickedIsSubseq(a: seq<Msg>, b: seq<Msg>, at: seq<nat>)
    requires PickedAt(a, b, at)
    ensures Subseq(a, b)
    decreases |b|
  {
    if a != [] {
      var k, n := |a| - 1, |b| - 1;
      if at[k] == n {
        assert forall j | 0 <= j < k :: at[j] < at[k];
        PickedIsSubseq(a[..k], b[..n], at[..k]);
      } else {
        assert forall j | 0 <= j <= k :: at[j] <= at[k];
        PickedIsSubseq(a, b[..n], at);
      }
    }
  }

  /** To be a subsequence is to be the other list at some positions, in order. */
  lemma {:induction false} SubseqMeans(a: seq<Msg>, b: seq<Msg>)
    ensures Subseq(a, b) <==> exists at :: PickedAt(a, b, at)
  {
    hide Subseq, PickedAt;
    if Subseq(a, b) {
      var at := SubseqPicks(a, b);
    }
    if exists at :: PickedAt(a, b, at) {
      var at :| PickedAt(a, b, at);
      PickedIsSubseq(a, b, at);
    }
  }

  // ---------------------------------------------------------------- AddMessage and its deduplication

  const DEDUP_LOOKBACK: nat := 5

  // The most recent of the last `lookback` messages that is a user message with this content.
  function LatestMatch(stored: seq<Msg>, content: string, lookback: nat): (r: Option<nat>)
    ensures r.Some? ==> r.value < |stored| && stored[r.value].UserMsg?
  {
    if stored == [] || lookback == 0 then None
    else
      var n := |stored| - 1;
      if stored[n].UserMsg? && stored[n].content == content then Some(n)
      else LatestMatch(stored[..n], content, lookback - 1)
  }

  function Merge(existing: seq<string>, more: seq<string>): seq<string>
    decreases |more|
  {
    if more == [] then existing
    else Merge(if more[0] in existing then existing else existing + [more[0]], more[1..])
  }

  // The atomic script behind AddMessage: a recently repeated user message only merges its audience.
  function AddMessageScript(stored: seq<Msg>, m: Msg): seq<Msg> {
    if !m.UserMsg? then stored + [m]
    else match LatestMatch(stored, m.content, DEDUP_LOOKBACK)
      case None => stored + [m]
      case Some(i) => stored[i := UserMsg(stored[i].content, Merge(stored[i].broadcast, m.broadcast))]
  }

  /**
   * Resuming a session: memory equals the store, then the user message goes to
   * both. Memory stays a subsequence of the store exactly when the message does
   * not repeat one of the last five.
   */
  lemma {:induction false} UserMessageKeepsTranscript(stored: seq<Msg>, m: Msg)
    requires m.UserMsg?
    ensures Subseq(stored + [m], AddMessageScript(stored, m)) <==> LatestMatch(stored, m.content, DEDUP_LOOKBACK).None?
  {
    match LatestMatch(stored, m.content, DEDUP_LOOKBACK)
    case None => SubseqSelf(stored + [m]);
    case Some(i) =>
      if Subseq(stored + [m], AddMessageScript(stored, m)) {
        SubseqIsShorter(stored + [m], AddMessageScript(stored, m));
      }
  }

  // "yes" asked again is merged into the stored one, and memory has it twice.
  lemma {:induction false} RepeatedMessageParts()
    ensures var yes := UserMsg("yes", ["a"]);
      && AddMessageScript([yes], yes) == [yes]
      && !Subseq([yes] + [yes], AddMessageScript([yes], yes))
  {
    var yes := UserMsg("yes", ["a"]);
    assert LatestMatch([yes], "yes", DEDUP_LOOKBACK) == Some(0);
    assert Merge(["a"], ["a"]) == ["a"];
    assert [yes][0 := yes] == [yes];
    UserMessageKeepsTranscript([yes], yes);
  }

  // One of the last five stored messages, at this position, is the same user message.
  predicate Repeats(stored: seq<Msg>, m: Msg, i: nat) {
    m.UserMsg? && |stored| - 5 <= i < |stored| && stored[i].UserMsg? && stored[i].content == m.content
  }

  lemma {:induction false} LatestRepeat(stored: seq<Msg>, content: string, lookback: nat)
    ensures match LatestMatch(stored, content, lookback)
      case Some(i) =>
        && |stored| - lookback <= i && stored[i].content == content
        && forall j | i < j < |stored| :: !(stored[j].UserMsg? && stored[j].content == content)
      case None => forall j | 0 <= j < |stored| && |stored| - lookback <= j :: !(stored[j].UserMsg? && stored[j].content == content)
  {
    if stored == [] || lookback == 0 {
    } else {
      LatestRepeat(stored[..|stored| - 1], content, lookback - 1);
    }
  }

  lemma {:induction false} MergeMeans(existing: seq<string>, more: seq<string>)
    ensures existing <= Merge(existing, more)
    ensures forall id :: id in Merge(existing, more) <==> id in existing || id in more
    decreases |more|
  {
    if more == [] {
    } else {
      MergeMeans(if more[0] in existing then existing else existing + [more[0]], more[1..]);
      assert more == [more[0]] + more[1..];
    }
  }

  /**
   * A message is appended unless it repeats a user message among the last five.
   * Then the latest of these takes over the agents it was sent to, after its
   * own, and everything else stays.
   */
  lemma {:induction false} AddMessageMeans(stored: seq<Msg>, m: Msg)
    ensures var after := AddMessageScript(stored, m);
      if forall i | 0 <= i < |stored| :: !Repeats(stored, m, i) then after == stored + [m]
      else
        exists i: nat ::
          && Repeats(stored, m, i) && |after| == |stored|
          && (forall j | i < j < |stored| :: !Repeats(stored, m, j))
          && (forall j | 0 <= j < |stored| && j != i :: after[j] == stored[j])
          && after[i].UserMsg? && after[i].content == m.content
          && stored[i].broadcast <= after[i].broadcast
          && forall id :: id in after[i].broadcast <==> id in stored[i].broadcast || id in m.broadcast
  {
    if m.UserMsg? {
      LatestRepeat(stored, m.content, DEDUP_LOOKBACK);
      match LatestMatch(stored, m.content, DEDUP_LOOKBACK)
      case None =>
      case Some(i) =>
        MergeMeans(stored[i].broadcast, m.broadcast);
        assert Repeats(stored, m, i);
    }
  }

  // ---------------------------------------------------------------- the transcript along a run

  // What one step adds to memory and to the store.
  function NewlyRemembered(a: Act): seq<Msg> {
    if a.Remembered? then [a.rem] else []
  }

  function NewlyStored(a: Act): seq<Msg> {
    if a.Saved? && Took(a.fault) then [a.msg] else []
  }

  function StoredBy(acts: seq<Act>): seq<Msg> {
    if acts == [] then []
    else NewlyStored(acts[0]) + StoredBy(acts[1..])
  }

  function RememberedBy(acts: seq<Act>): seq<Msg> {
    if acts == [] then []
    else NewlyRemembered(acts[0]) + RememberedBy(acts[1..])
  }

  // pending: the message acknowledged by the latest save and not yet remembered; last: the latest remembered one.
  datatype Watch = Watch(pending: Option<Msg>, last: Option<Msg>)

  function WatchStep(w: Watch, a: Act): Option<Watch> {
    match a
    case Saved(m, f) => Some(Watch(if Acked(f) then Some(m) else None, w.last))
    case Remembered(m) => if w.pending == Some(m) then Some(Watch(None, Some(m))) else None
    case Mapped(_, _, _) => Some(w)
    case Sent(e) => if e.ModeratorText? && w.last != Some(ModeratorMsg(e.text)) then None else Some(w)
  }

  // Save-first discipline: remember only what was just saved, stream a moderator text only once remembered.
  function WatchAll(w: Watch, acts: seq<Act>): Option<Watch>
    decreases |acts|
  {
    if acts == [] then Some(w)
    else match WatchStep(w, acts[0])
      case None => None
      case Some(v) => WatchAll(v, acts[1..])
  }

  lemma {:induction false} WatchConcat(w: Watch, a: seq<Act>, b: seq<Act>)
    ensures WatchAll(w, a + b) == (match WatchAll(w, a) case None => None case Some(v) => WatchAll(v, b))
    decreases |a|
  {
    if a == [] {
      assert a + b == b;
    } else {
      assert (a + b)[1..] == a[1..] + b;
      match WatchStep(w, a[0])
      case None =>
      case Some(v) => WatchConcat(v, a[1..], b);
    }
  }

  lemma {:induction false} WatchPrefix(w: Watch, acts: seq<Act>, k: nat)
    requires WatchAll(w, acts).Some? && k <= |acts|
    ensures WatchAll(w, acts[..k]).Some?
  {
    assert acts == acts[..k] + acts[k..];
    WatchConcat(w, acts[..k], acts[k..]);
  }

  ghost predicate Agree(w: Watch, mem: seq<Msg>, stored: seq<Msg>) {
    && Subseq(mem, stored)
    && (w.pending.Some? ==> stored != [] && stored[|stored| - 1] == w.pending.value && Subseq(mem, stored[..|stored| - 1]))
  }

  lemma {:induction false} StepAgrees(w: Watch, a: Act, mem: seq<Msg>, stored: seq<Msg>)
    requires WatchStep(w, a).Some? && Agree(w, mem, stored)
    ensures Agree(WatchStep(w, a).value, mem + NewlyRemembered(a), stored + NewlyStored(a))
  {
    var mem', stored' := mem + NewlyRemembered(a), stored + NewlyStored(a);
    if a.Saved? && Took(a.fault) {
      assert stored'[..|stored'| - 1] == stored;
      assert mem' == mem;
    } else {
      assert stored' == stored;
      if a.Remembered? {
        assert mem'[..|mem'| - 1] == mem;
      } else {
        assert mem' == mem;
      }
    }
  }

  lemma {:induction false} AgreementHolds(w: Watch, mem: seq<Msg>, stored: seq<Msg>)
    requires Agree(w, mem, stored)
    ensures Subseq(mem + [], stored + [])
  {
    assert mem + [] == mem && stored + [] == stored;
  }

  lemma {:induction false} OneMore(a: Act, rest: seq<Act>, mem: seq<Msg>, stored: seq<Msg>)
    ensures mem + NewlyRemembered(a) + RememberedBy(rest) == mem + RememberedBy([a] + rest)
    ensures stored + NewlyStored(a) + StoredBy(rest) == stored + StoredBy([a] + rest)
  {
    assert ([a] + rest)[1..] == rest;
    assert mem + NewlyRemembered(a) + RememberedBy(rest) == mem + (NewlyRemembered(a) + RememberedBy(rest));
    assert stored + NewlyStored(a) + StoredBy(rest) == stored + (NewlyStored(a) + StoredBy(rest));
  }

  lemma {:induction false} StaysSubsequence(w: Watch, acts: seq<Act>, mem: seq<Msg>, stored: seq<Msg>)
    requires WatchAll(w, acts).Some? && Agree(w, mem, stored)
    ensures Subseq(mem + RememberedBy(acts), stored + StoredBy(acts))
    decreases |acts|
  {
    hide Subseq, Agree, WatchStep, NewlyRemembered, NewlyStored;
    if acts == [] {
      AgreementHolds(w, mem, stored);
    } else {
      var a := acts[0];
      StepAgrees(w, a, mem, stored);
      StaysSubsequence(WatchStep(w, a).value, acts[1..], mem + NewlyRemembered(a), stored + NewlyStored(a));
      OneMore(a, acts[1..], mem, stored);
      assert acts == [a] + acts[1..];
    }
  }

  /** Along any disciplined run the in-memory transcript is, at every point, a subsequence of the stored messages. */
  lemma {:induction false} TranscriptIsStored(acts: seq<Act>, k: nat, mem: seq<Msg>, stored: seq<Msg>)
    requires WatchAll(Watch(None, None), acts).Some? && k <= |acts| && Subseq(mem, stored)
    ensures Subseq(mem + RememberedBy(acts[..k]), stored + StoredBy(acts[..k]))
  {
    WatchPrefix(Watch(None, None), acts, k);
    StaysSubsequence(Watch(None, None), acts[..k], mem, stored);
  }

  lemma {:induction false} LastWasSaved(w: Watch, acts: seq<Act>, m: Msg) returns (j: nat)
    requires WatchAll(w, acts).Some?
    requires WatchAll(w, acts).value.last == Some(m) || WatchAll(w, acts).value.pending == Some(m)
    requires w.last != Some(m) && w.pending != Some(m)
    ensures j < |acts| && acts[j] == Saved(m, Works)
    decreases |acts|
  {
    var v := WatchStep(w, acts[0]).value;
    if acts[0] == Saved(m, Works) {
      j := 0;
    } else {
      var i := LastWasSaved(v, acts[1..], m);
      j := i + 1;
    }
  }

  /** A moderator text reaches the stream only after its save was acknowledged. */
  lemma {:induction false} ModeratorTextSavedFirst(acts: seq<Act>, i: nat) returns (j: nat)
    requires WatchAll(Watch(None, None), acts).Some?
    requires i < |acts| && acts[i].Sent? && acts[i].event.ModeratorText?
    ensures j < i && acts[j] == Saved(ModeratorMsg(acts[i].event.text), Works)
  {
    var w := Watch(None, None);
    WatchPrefix(w, acts, i);
    WatchPrefix(w, acts, i + 1);
    assert acts[..i + 1] == acts[..i] + [acts[i]];
    WatchConcat(w, acts[..i], [acts[i]]);
    j := LastWasSaved(w, acts[..i], ModeratorMsg(acts[i].event.text));
  }
}
