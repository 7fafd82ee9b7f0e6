/** Running the tool calls of a round concurrently changes nothing but the interleaving. */
module ToolLoopParallel {
  import opened Prelude
  import opened ToolLoop

  // ---------------------------------------------------------------- parallel mode refines sequential mode

  function Map<T>(f: nat -> T, s: seq<nat>): seq<T> {
    seq(|s|, i requires 0 <= i < |s| => f(s[i]))
  }

  // Taking the j-th element out of a sequence, seen through multisets.
  lemma {:induction false} TakeOut<T>(t: seq<T>, j: nat)
    requires j < |t|
    ensures multiset(t) == multiset{t[j]} + multiset(t[..j] + t[j + 1..])
  {
    assert t == t[..j] + ([t[j]] + t[j + 1..]);
  }

  lemma {:induction false} Cancel<T>(x: multiset<T>, a: multiset<T>, b: multiset<T>)
    requires x + a == x + b
    ensures a == b
  {
    assert a == (x + a) - x;
    assert b == (x + b) - x;
  }

  lemma {:induction false} MapTakeOut<T>(f: nat -> T, t: seq<nat>, j: nat)
    requires j < |t|
    ensures multiset(Map(f, t)) == multiset{f(t[j])} + multiset(Map(f, t[..j] + t[j + 1..]))
  {
    TakeOut(Map(f, t), j);
    assert Map(f, t)[..j] + Map(f, t)[j + 1..] == Map(f, t[..j] + t[j + 1..]);
  }

  lemma {:induction false} MapPermutation<T>(f: nat -> T, s: seq<nat>, t: seq<nat>)
    requires multiset(s) == multiset(t)
    ensures multiset(Map(f, s)) == multiset(Map(f, t))
    decreases |s|
  {
    if s == [] {
      assert |t| == |multiset(t)| == 0;
    } else {
      assert s[0] in multiset(t);
      var j :| 0 <= j < |t| && t[j] == s[0];
      TakeOut(s, 0);
      TakeOut(t, j);
      MapTakeOut(f, s, 0);
      MapTakeOut(f, t, j);
      Cancel(multiset{s[0]}, multiset(s[..0] + s[1..]), multiset(t[..j] + t[j + 1..]));
      MapPermutation(f, s[..0] + s[1..], t[..j] + t[j + 1..]);
    }
  }

  function EndOf(rs: seq<Resolved>, out: seq<string>): nat -> Event
    requires |out| == |rs|
  {
    (i: nat) => if i < |rs| then ToolEnd(rs[i].id, out[i]) else RunError("")
  }

  function NameOf(rs: seq<Resolved>): nat -> string {
    (i: nat) => if i < |rs| then rs[i].displayName else ""
  }

  function Names(ms: seq<Metric>): seq<string> {
    seq(|ms|, i requires 0 <= i < |ms| => ms[i].name)
  }

  lemma {:induction false} NamesConcat(a: seq<Metric>, b: seq<Metric>)
    ensures Names(a + b) == Names(a) + Names(b)
  {
  }

  lemma {:induction false} EndsAsMap(rs: seq<Resolved>, out: seq<string>, order: seq<nat>)
    requires |out| == |rs| && forall i | 0 <= i < |order| :: order[i] < |rs|
    ensures Ends(rs, out, order) == Map(EndOf(rs, out), order)
  {
  }

  lemma {:induction false} NamesAsMap(w: World, round: nat, rs: seq<Resolved>, order: seq<nat>)
    requires forall i | 0 <= i < |order| :: order[i] < |rs|
    ensures Names(Metrics(w, round, rs, order)) == Map(NameOf(rs), order)
  {
  }

  lemma {:induction false} Shuffle<T>(a: seq<T>, b: seq<T>, rest: seq<T>, c: seq<T>, d: seq<T>)
    requires multiset(rest) == multiset(c + d)
    ensures multiset((a + b) + rest) == multiset((a + c) + (b + d))
  {
  }

  lemma {:induction false} EndsFrom(rs: seq<Resolved>, out: seq<string>, i: nat)
    requires |out| == |rs| && i < |rs|
    ensures var ends := Ends(rs, out, Indices(0, |rs|));
      ends[i..] == [ToolEnd(rs[i].id, out[i])] + ends[i + 1..]
  {
    var ends := Ends(rs, out, Indices(0, |rs|));
    assert Indices(0, |rs|)[i] == i;
    assert ends[i] == ToolEnd(rs[i].id, out[i]);
  }

  lemma {:induction false} OneByOneEvents(rs: seq<Resolved>, out: seq<string>, i: nat)
    requires |out| == |rs| && i <= |rs|
    ensures multiset(OneByOne(rs, out, i)) == multiset(Starts(rs, i) + Ends(rs, out, Indices(0, |rs|))[i..])
    decreases |rs| - i
  {
    if i == |rs| {
    } else {
      hide Ends, Start;
      OneByOneEvents(rs, out, i + 1);
      var ends := Ends(rs, out, Indices(0, |rs|));
      EndsFrom(rs, out, i);
      Shuffle(Start(rs[i]), [ToolEnd(rs[i].id, out[i])], OneByOne(rs, out, i + 1), Starts(rs, i + 1), ends[i + 1..]);
    }
  }

  // Two loop states that differ at most in the order of their events and in tool timings.
  ghost predicate Agree(s: State, t: State) {
    && s.nextId == t.nextId && s.messages == t.messages && s.finalText == t.finalText && s.calls == t.calls
    && s.results == t.results && s.parts == t.parts && s.tokens == t.tokens && s.asked == t.asked
    && multiset(s.events) == multiset(t.events)
    && multiset(Names(s.metrics)) == multiset(Names(t.metrics))
  }

  lemma {:induction false} ToolEventsAgree(rs: seq<Resolved>, out: seq<string>, order: seq<nat>)
    requires |out| == |rs| && IsPermutation(order, |rs|)
    ensures multiset(Starts(rs, 0) + Ends(rs, out, order)) == multiset(OneByOne(rs, out, 0))
  {
    var plain := Indices(0, |rs|);
    PermutationMultiset(order, |rs|);
    EndsAsMap(rs, out, order);
    EndsAsMap(rs, out, plain);
    MapPermutation(EndOf(rs, out), order, plain);
    OneByOneEvents(rs, out, 0);
    assert Ends(rs, out, plain)[0..] == Ends(rs, out, plain);
  }

  lemma {:induction false} MetricsAgree(w: World, v: World, round: nat, rs: seq<Resolved>, order: seq<nat>)
    requires IsPermutation(order, |rs|)
    ensures multiset(Names(Metrics(w, round, rs, order))) == multiset(Names(Metrics(v, round, rs, Indices(0, |rs|))))
  {
    var plain := Indices(0, |rs|);
    PermutationMultiset(order, |rs|);
    NamesAsMap(w, round, rs, order);
    NamesAsMap(v, round, rs, plain);
    MapPermutation(NameOf(rs), order, plain);
  }

  lemma {:induction false} RunToolsAgree(w: World, d: (nat, nat) -> nat, p: Params, s: State, t: State, round: nat, rs: seq<Resolved>)
    requires ValidWorld(w) && p.parallel && Agree(s, t)
    ensures Agree(RunTools(w, p, s, round, rs), RunTools(w.(duration := d), p.(parallel := false), t, round, rs))
  {
    var v := w.(duration := d);
    var out, order := Execute(w, round, rs), w.completion(round, |rs|);
    assert Execute(v, round, rs) == out;
    ToolEventsAgree(rs, out, order);
    MetricsAgree(w, v, round, rs, order);
    NamesConcat(s.metrics, Metrics(w, round, rs, order));
    NamesConcat(t.metrics, Metrics(v, round, rs, Indices(0, |rs|)));
  }

  lemma {:induction false} AbsorbAgrees(w: World, v: World, s: State, t: State, rs: seq<Resolved>, out: seq<string>, i: nat)
    requires |out| == |rs| && i <= |rs| && Agree(s, t) && w.isJson == v.isJson
    ensures Agree(Absorb(w, s, rs, out, i), Absorb(v, t, rs, out, i))
    decreases |rs| - i
  {
    if i == |rs| {
    } else {
      AbsorbAgrees(w, v, AbsorbOne(w, s, rs[i], out[i]), AbsorbOne(v, t, rs[i], out[i]), rs, out, i + 1);
    }
  }

  lemma {:induction false} SayAgrees(s: State, t: State, text: string)
    requires Agree(s, t)
    ensures Agree(Say(s, text), Say(t, text))
  {
  }

  lemma {:induction false} ResolveIgnoresClock(w: World, d: (nat, nat) -> nat, round: nat, calls: seq<ToolCall>, i: nat, id: Id)
    requires i <= |calls|
    ensures ResolveCalls(w.(duration := d), round, calls, i, id) == ResolveCalls(w, round, calls, i, id)
    decreases |calls| - i
  {
    if i == |calls| {
    } else {
      ResolveIgnoresClock(w, d, round, calls, i + 1, id);
      ResolveIgnoresClock(w, d, round, calls, i + 1, id + 1);
    }
  }

  lemma {:induction false} AfterToolsAgrees(w: World, d: (nat, nat) -> nat, p: Params, s: State, t: State, round: nat, calls: seq<ToolCall>)
    requires ValidWorld(w) && p.parallel && Agree(s, t)
    ensures Agree(AfterTools(w, p, s, round, calls), AfterTools(w.(duration := d), p.(parallel := false), t, round, calls))
  {
    var v, q := w.(duration := d), p.(parallel := false);
    var rs := ResolveCalls(w, round, calls, 0, s.nextId);
    ResolveIgnoresClock(w, d, round, calls, 0, s.nextId);
    var s1, t1 := s.(nextId := s.nextId + |rs|), t.(nextId := t.nextId + |rs|);
    RunToolsAgree(w, d, p, s1, t1, round, rs);
    assert Execute(v, round, rs) == Execute(w, round, rs);
    AbsorbAgrees(w, v, RunTools(w, p, s1, round, rs), RunTools(v, q, t1, round, rs), rs, Execute(w, round, rs), 0);
  }

  lemma {:induction false} AfterRoundAgrees(w: World, d: (nat, nat) -> nat, p: Params, s: State, t: State, round: nat)
    requires ValidWorld(w) && p.parallel && Agree(s, t)
    ensures Agree(AfterRound(w, p, s, round), AfterRound(w.(duration := d), p.(parallel := false), t, round))
  {
    match w.chat(round, s.messages)
    case ChatError(m) =>
    case ChatOk(reply) =>
      if reply.calls == [] {
        if reply.text != "" {
          SayAgrees(Heard(s, reply).(finalText := reply.text), Heard(t, reply).(finalText := reply.text), reply.text);
        }
      } else {
        if reply.text != "" { SayAgrees(Heard(s, reply), Heard(t, reply), reply.text); }
        AfterToolsAgrees(w, d, p, Spoken(s, reply), Spoken(t, reply), round, reply.calls);
      }
  }

  lemma {:induction false} FinishAgrees(p: Params, s: State, t: State, rounds: nat)
    requires Agree(s, t)
    ensures Agree(Finish(p, s, rounds).state, Finish(p.(parallel := false), t, rounds).state)
  {
  }

  lemma {:induction false} RoundsAgree(w: World, d: (nat, nat) -> nat, p: Params, s: State, t: State, round: nat)
    requires ValidWorld(w) && p.parallel && round < MaxRounds(p) && Agree(s, t)
    ensures var a, b := Rounds(w, p, s, round), Rounds(w.(duration := d), p.(parallel := false), t, round);
      Agree(a.state, b.state) && a.rounds == b.rounds && a.error == b.error
    decreases MaxRounds(p) - round
  {
    hide AfterRound;
    var s1, t1 := AfterRound(w, p, s, round), AfterRound(w.(duration := d), p.(parallel := false), t, round);
    AfterRoundAgrees(w, d, p, s, t, round);
    match w.chat(round, s.messages)
    case ChatError(_) =>
    case ChatOk(reply) =>
      if reply.calls == [] || round + 1 == MaxRounds(p) {
        FinishAgrees(p, s1, t1, round + 1);
      } else {
        RoundsAgree(w, d, p, s1, t1, round + 1);
      }
  }

  /**
   * Parallel mode refines sequential mode: whatever order the goroutines
   * finish in and whatever the calls cost, the stored message, the
   * conversation, the tokens, the rounds and the outcome are those of the
   * sequential run, and both stream the same events, only interleaved.
   */
  lemma {:induction false} ParallelRefinesSequential(w: World, d: (nat, nat) -> nat, p: Params)
    requires ValidWorld(w) && p.parallel
    ensures var a, b := Run(w, p), Run(w.(duration := d), p.(parallel := false));
      && Agree(a.state, b.state) && a.rounds == b.rounds && a.error == b.error
      && Saved(a.state) == Saved(b.state) && Saves(a.state) == Saves(b.state)
  {
    RoundsAgree(w, d, p, Initial(p), Initial(p.(parallel := false)), 0);
  }
}
