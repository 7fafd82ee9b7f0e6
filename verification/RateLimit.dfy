/** Rate limiting per agent and user: token buckets behind a map whose idle entries are evicted. Times are in seconds. */
module RateLimit {
  import opened Prelude

  // ---------------------------------------------------------------- the token bucket

  datatype Bucket = Bucket(tokens: real, last: real)

  function Rate(rpm: int): real {
    rpm as real / 60.0
  }

  // Ten percent of the rate per minute, at least one; the division truncates, which only matters above ten.
  function Burst(rpm: int): int {
    if rpm / 10 < 1 then 1 else rpm / 10
  }

  function Refill(rpm: int, elapsed: real): real {
    if Rate(rpm) <= 0.0 then 0.0 else elapsed * Rate(rpm)
  }

  function Capped(rpm: int, tokens: real): real {
    if tokens > Burst(rpm) as real then Burst(rpm) as real else tokens
  }

  // The tokens in a bucket at time t.
  function Tokens(rpm: int, b: Bucket, t: real): real {
    Capped(rpm, b.tokens + Refill(rpm, if t < b.last then 0.0 else t - b.last))
  }

  // A refused request consumes nothing.
  function Take(rpm: int, b: Bucket, t: real): (bool, Bucket) {
    if Tokens(rpm, b, t) >= 1.0 then (true, Bucket(Tokens(rpm, b, t) - 1.0, t)) else (false, b)
  }

  function Full(rpm: int, t: real): Bucket {
    Bucket(Burst(rpm) as real, t)
  }

  // ---------------------------------------------------------------- the limiter

  datatype Entry = Entry(bucket: Bucket, lastUsed: real)

  type Limiters = map<string, map<string, Entry>>

  const IDLE: real := 600.0

  function Lookup(m: Limiters, agentId: string, userId: string): Option<Entry> {
    if agentId in m && userId in m[agentId] then Some(m[agentId][userId]) else None
  }

  function Install(m: Limiters, agentId: string, userId: string, e: Entry): Limiters {
    m[agentId := (if agentId in m then m[agentId] else map[])[userId := e]]
  }

  function AllowStep(rpm: int, m: Limiters, agentId: string, userId: string, now: real): (bool, Limiters) {
    var found := Lookup(m, agentId, userId);
    var b := if found.Some? then found.value.bucket else Full(rpm, now);
    var (ok, after) := Take(rpm, b, now);
    (ok, Install(m, agentId, userId, Entry(after, now)))
  }

  function Fresh(users: map<string, Entry>, cutoff: real): map<string, Entry> {
    map u | u in users && users[u].lastUsed >= cutoff :: users[u]
  }

  // One sweep: idle entries go, and agents left without entries.
  function Swept(m: Limiters, now: real): Limiters {
    map a | a in m && Fresh(m[a], now - IDLE) != map[] :: Fresh(m[a], now - IDLE)
  }

  class RateLimiter {
    const rpm: int
    var limiters: Limiters

    constructor (requestsPerMinute: int)
      ensures rpm == requestsPerMinute && limiters == map[]
    {
      rpm := requestsPerMinute;
      limiters := map[];
    }

    method GetLimiter(agentId: string, userId: string, now: real) returns (b: Bucket)
      modifies this
      ensures var found := Lookup(old(limiters), agentId, userId);
        && b == (if found.Some? then found.value.bucket else Full(rpm, now))
        && limiters == Install(old(limiters), agentId, userId, Entry(b, now))
    {
      if agentId in limiters {
        if userId in limiters[agentId] {
          b := limiters[agentId][userId].bucket;
          limiters := limiters[agentId := limiters[agentId][userId := Entry(b, now)]];
          return;
        }
      }
      if agentId !in limiters {
        limiters := limiters[agentId := map[]];
      }
      var burst := rpm / 10;
      if burst < 1 {
        burst := 1;
      }
      b := Bucket(burst as real, now);
      limiters := limiters[agentId := limiters[agentId][userId := Entry(b, now)]];
    }

    method Allow(agentId: string, userId: string, now: real) returns (ok: bool)
      modifies this
      ensures (ok, limiters) == AllowStep(rpm, old(limiters), agentId, userId, now)
    {
      var b := GetLimiter(agentId, userId, now);
      var after: Bucket;
      var tokens := Tokens(rpm, b, now);
      if tokens >= 1.0 {
        ok, after := true, Bucket(tokens - 1.0, now);
      } else {
        ok, after := false, b;
      }
      limiters := limiters[agentId := limiters[agentId][userId := Entry(after, now)]];
      assert limiters[agentId] == Install(old(limiters), agentId, userId, Entry(after, now))[agentId];
      assert limiters == Install(old(limiters), agentId, userId, Entry(after, now));
    }

    method EvictIdle(all: map<string, Entry>, cutoff: real) returns (users: map<string, Entry>)
      ensures users == Fresh(all, cutoff)
    {
      users := all;
      var ids := users.Keys;
      while ids != {}
        invariant ids <= all.Keys
        invariant forall u :: u in ids ==> u in users && users[u] == all[u]
        invariant forall u :: u !in ids ==>
          (u in users <==> u in Fresh(all, cutoff)) && (u in users ==> users[u] == all[u])
        decreases |ids|
      {
        var userId :| userId in ids;
        if users[userId].lastUsed < cutoff {
          users := users - {userId};
        }
        ids := ids - {userId};
      }
    }

    method Cleanup(now: real)
      modifies this
      ensures limiters == Swept(old(limiters), now)
    {
      hide Fresh;
      var cutoff := now - IDLE;
      ghost var before := limiters;
      var agents := limiters.Keys;
      while agents != {}
        invariant agents <= before.Keys
        invariant forall a :: a in agents ==> a in limiters && limiters[a] == before[a]
        invariant forall a :: a !in agents ==>
          (a in limiters <==> a in Swept(before, now)) && (a in limiters ==> limiters[a] == Swept(before, now)[a])
        decreases |agents|
      {
        var agentId :| agentId in agents;
        var users := EvictIdle(limiters[agentId], cutoff);
        if users == map[] {
          limiters := limiters - {agentId};
        } else {
          limiters := limiters[agentId := users];
        }
        agents := agents - {agentId};
      }
    }
  }

  // ---------------------------------------------------------------- histories of calls

  datatype Call = Request(agentId: string, userId: string, at: real) | Sweep(at: real)

  ghost predicate Nondecreasing(from: real, calls: seq<Call>) {
    && (forall i | 0 <= i < |calls| :: from <= calls[i].at)
    && (forall i, j | 0 <= i < j < |calls| :: calls[i].at <= calls[j].at)
  }

  // One call; a limiter that never evicts ignores sweeps.
  function CallStep(rpm: int, evicts: bool, m: Limiters, c: Call): (Option<bool>, Limiters) {
    match c
    case Request(a, u, at) =>
      var (ok, m') := AllowStep(rpm, m, a, u, at);
      (Some(ok), m')
    case Sweep(at) => (None, if evicts then Swept(m, at) else m)
  }

  function Answers(rpm: int, evicts: bool, m: Limiters, calls: seq<Call>): (r: seq<Option<bool>>)
    ensures |r| == |calls|
    decreases |calls|
  {
    if calls == [] then []
    else
      var (answer, m') := CallStep(rpm, evicts, m, calls[0]);
      [answer] + Answers(rpm, evicts, m', calls[1..])
  }

  // ---------------------------------------------------------------- what a key may still spend

  // The tokens of a key at time t; a key without entry is full.
  function Level(rpm: int, m: Limiters, agentId: string, userId: string, t: real): real {
    var found := Lookup(m, agentId, userId);
    if found.Some? then Tokens(rpm, found.value.bucket, t) else Burst(rpm) as real
  }

  predicate EntryOk(rpm: int, e: Entry, now: real) {
    && 0.0 <= e.bucket.tokens <= Burst(rpm) as real
    && e.bucket.last <= e.lastUsed <= now
  }

  ghost predicate Sound(rpm: int, m: Limiters, now: real) {
    forall a, u | Lookup(m, a, u).Some? :: EntryOk(rpm, Lookup(m, a, u).value, now)
  }

  lemma {:induction false} Distribute(a: real, b: real, r: real)
    ensures (a + b) * r == a * r + b * r
    ensures r >= 0.0 && a >= 0.0 ==> a * r >= 0.0
  {}

  // Waiting refills linearly up to the burst, whatever happened before.
  lemma {:induction false} TokensLater(rpm: int, b: Bucket, now: real, t: real)
    requires b.last <= now <= t
    ensures Tokens(rpm, b, t) == Capped(rpm, Tokens(rpm, b, now) + Refill(rpm, t - now))
  {
    Distribute(now - b.last, t - now, Rate(rpm));
    Distribute(t - now, 0.0, Rate(rpm));
    assert (now - b.last) + (t - now) == t - b.last;
  }

  lemma {:induction false} RefillNonnegative(rpm: int, elapsed: real)
    requires elapsed >= 0.0
    ensures Refill(rpm, elapsed) >= 0.0
  {
    Distribute(elapsed, 0.0, Rate(rpm));
  }

  lemma {:induction false} LevelLater(rpm: int, m: Limiters, a: string, u: string, now: real, t: real)
    requires Sound(rpm, m, now) && now <= t
    ensures Level(rpm, m, a, u, t) == Capped(rpm, Level(rpm, m, a, u, now) + Refill(rpm, t - now))
    ensures 0.0 <= Level(rpm, m, a, u, t) <= Burst(rpm) as real
  {
    RefillNonnegative(rpm, t - now);
    var found := Lookup(m, a, u);
    if found.Some? {
      assert EntryOk(rpm, found.value, now);
      RefillNonnegative(rpm, now - found.value.bucket.last);
      TokensLater(rpm, found.value.bucket, now, t);
    }
  }

  lemma {:induction false} LookupInstalled(m: Limiters, a: string, u: string, e: Entry, a': string, u': string)
    ensures Lookup(Install(m, a, u, e), a', u') == if a' == a && u' == u then Some(e) else Lookup(m, a', u')
  {}

  lemma {:induction false} LookupSwept(m: Limiters, now: real, a: string, u: string)
    ensures Lookup(Swept(m, now), a, u) ==
      if Lookup(m, a, u).Some? && Lookup(m, a, u).value.lastUsed >= now - IDLE then Lookup(m, a, u) else None
  {
    if a in m && u in m[a] && m[a][u].lastUsed >= now - IDLE {
      assert u in Fresh(m[a], now - IDLE);
    }
  }

  lemma {:induction false} RefillNothing(rpm: int)
    ensures Refill(rpm, 0.0) == 0.0
  {}

  // A request is granted exactly when its key has a token, and takes one from no other key.
  lemma {:induction false} AllowLevels(rpm: int, m: Limiters, a: string, u: string, now: real, a': string, u': string)
    requires Sound(rpm, m, now)
    ensures var (ok, m') := AllowStep(rpm, m, a, u, now);
      && (ok <==> Level(rpm, m, a, u, now) >= 1.0)
      && Level(rpm, m', a', u', now) == Level(rpm, m, a', u', now) - (if ok && a' == a && u' == u then 1.0 else 0.0)
  {
    LevelLater(rpm, m, a, u, now, now);
    var found := Lookup(m, a, u);
    var b := if found.Some? then found.value.bucket else Full(rpm, now);
    RefillNothing(rpm);
    assert Tokens(rpm, b, now) == Level(rpm, m, a, u, now);
    var (ok, after) := Take(rpm, b, now);
    LookupInstalled(m, a, u, Entry(after, now), a', u');
  }

  lemma {:induction false} AllowSound(rpm: int, m: Limiters, a: string, u: string, now: real)
    requires Sound(rpm, m, now)
    ensures Sound(rpm, AllowStep(rpm, m, a, u, now).1, now)
  {
    LevelLater(rpm, m, a, u, now, now);
    RefillNothing(rpm);
    var m' := AllowStep(rpm, m, a, u, now).1;
    var found := Lookup(m, a, u);
    var b := if found.Some? then found.value.bucket else Full(rpm, now);
    var after := Take(rpm, b, now).1;
    if found.Some? {
      assert EntryOk(rpm, found.value, now);
    }
    forall a', u' | Lookup(m', a', u').Some?
      ensures EntryOk(rpm, Lookup(m', a', u').value, now)
    {
      LookupInstalled(m, a, u, Entry(after, now), a', u');
    }
  }

  lemma {:induction false} SoundLater(rpm: int, m: Limiters, now: real, t: real)
    requires Sound(rpm, m, now) && now <= t
    ensures Sound(rpm, m, t)
  {
    forall a, u | Lookup(m, a, u).Some?
      ensures EntryOk(rpm, Lookup(m, a, u).value, t)
    {
      assert EntryOk(rpm, Lookup(m, a, u).value, now);
    }
  }

  lemma {:induction false} RefillAdds(rpm: int, x: real, y: real)
    requires x >= 0.0 && y >= 0.0
    ensures Refill(rpm, x + y) == Refill(rpm, x) + Refill(rpm, y)
    ensures Refill(rpm, x) >= 0.0 && Refill(rpm, y) >= 0.0
  {
    Distribute(x, y, Rate(rpm));
    Distribute(y, x, Rate(rpm));
  }

  lemma {:induction false} RefillIs(rpm: int, elapsed: real)
    requires rpm >= 1
    ensures Refill(rpm, elapsed) == rpm as real * elapsed / 60.0
  {}

  lemma {:induction false} IdleRefill(rpm: int, elapsed: real)
    requires rpm >= 1 && elapsed > IDLE
    ensures Refill(rpm, elapsed) >= Burst(rpm) as real
  {
    RefillAdds(rpm, elapsed - IDLE, IDLE);
    RefillIs(rpm, IDLE);
    assert Burst(rpm) <= rpm;
    assert (elapsed - IDLE) + IDLE == elapsed;
    hide Refill;
  }

  // Ten idle minutes always refill a bucket.
  lemma {:induction false} IdleIsFull(rpm: int, e: Entry, now: real)
    requires rpm >= 1 && EntryOk(rpm, e, now) && e.lastUsed < now - IDLE
    ensures Tokens(rpm, e.bucket, now) == Burst(rpm) as real
  {
    var elapsed := now - e.bucket.last;
    IdleRefill(rpm, elapsed);
    hide Refill, Burst;
  }

  lemma {:induction false} SweepLevels(rpm: int, m: Limiters, now: real, a: string, u: string)
    requires rpm >= 1 && Sound(rpm, m, now)
    ensures Level(rpm, Swept(m, now), a, u, now) == Level(rpm, m, a, u, now)
  {
    LookupSwept(m, now, a, u);
    if Lookup(m, a, u).Some? && Lookup(m, a, u).value.lastUsed < now - IDLE {
      IdleIsFull(rpm, Lookup(m, a, u).value, now);
    }
  }

  lemma {:induction false} SweepSound(rpm: int, m: Limiters, now: real)
    requires Sound(rpm, m, now)
    ensures Sound(rpm, Swept(m, now), now)
  {
    forall a, u | Lookup(Swept(m, now), a, u).Some?
      ensures EntryOk(rpm, Lookup(Swept(m, now), a, u).value, now)
    {
      LookupSwept(m, now, a, u);
      assert EntryOk(rpm, Lookup(m, a, u).value, now);
    }
  }

  // ---------------------------------------------------------------- eviction is invisible

  ghost predicate SameLevels(rpm: int, m: Limiters, n: Limiters, now: real) {
    forall a, u :: Level(rpm, m, a, u, now) == Level(rpm, n, a, u, now)
  }

  lemma {:induction false} StepSameLevels(rpm: int, m: Limiters, n: Limiters, now: real, c: Call)
    requires rpm >= 1 && Sound(rpm, m, now) && Sound(rpm, n, now) && SameLevels(rpm, m, n, now) && now <= c.at
    ensures CallStep(rpm, true, m, c).0 == CallStep(rpm, false, n, c).0
    ensures var m', n' := CallStep(rpm, true, m, c).1, CallStep(rpm, false, n, c).1;
      Sound(rpm, m', c.at) && Sound(rpm, n', c.at) && SameLevels(rpm, m', n', c.at)
  {
    hide Level, AllowStep, Swept, Sound;
    SoundLater(rpm, m, now, c.at);
    SoundLater(rpm, n, now, c.at);
    forall a, u
      ensures Level(rpm, m, a, u, c.at) == Level(rpm, n, a, u, c.at)
    {
      LevelLater(rpm, m, a, u, now, c.at);
      LevelLater(rpm, n, a, u, now, c.at);
    }
    var m', n' := CallStep(rpm, true, m, c).1, CallStep(rpm, false, n, c).1;
    match c {
      case Request(a, u, at) =>
        AllowSound(rpm, m, a, u, at);
        AllowSound(rpm, n, a, u, at);
        forall a', u'
          ensures Level(rpm, m', a', u', at) == Level(rpm, n', a', u', at)
          ensures AllowStep(rpm, m, a, u, at).0 == AllowStep(rpm, n, a, u, at).0
        {
          AllowLevels(rpm, m, a, u, at, a', u');
          AllowLevels(rpm, n, a, u, at, a', u');
        }
        AllowLevels(rpm, m, a, u, at, a, u);
        AllowLevels(rpm, n, a, u, at, a, u);
      case Sweep(at) =>
        SweepSound(rpm, m, at);
        forall a', u'
          ensures Level(rpm, m', a', u', at) == Level(rpm, n', a', u', at)
        {
          SweepLevels(rpm, m, at, a', u');
        }
    }
  }

  lemma {:induction false} SameAnswers(rpm: int, m: Limiters, n: Limiters, now: real, calls: seq<Call>)
    requires rpm >= 1 && Sound(rpm, m, now) && Sound(rpm, n, now) && SameLevels(rpm, m, n, now)
    requires Nondecreasing(now, calls)
    ensures Answers(rpm, true, m, calls) == Answers(rpm, false, n, calls)
    decreases |calls|
  {
    hide CallStep, Sound, SameLevels;
    if calls == [] {
    } else {
      StepSameLevels(rpm, m, n, now, calls[0]);
      assert Nondecreasing(calls[0].at, calls[1..]);
      SameAnswers(rpm, CallStep(rpm, true, m, calls[0]).1, CallStep(rpm, false, n, calls[0]).1, calls[0].at, calls[1..]);
    }
  }

  ghost predicate EvictionInvisible(rpm: int) {
    forall from, calls | Nondecreasing(from, calls) ::
      Answers(rpm, true, map[], calls) == Answers(rpm, false, map[], calls)
  }

  // One request, a sweep more than ten minutes later, and the same request again.
  function IdleAndBack(): seq<Call> {
    [Request("a", "u", 0.0), Sweep(601.0), Request("a", "u", 601.0)]
  }

  lemma {:induction false} AnswersOfThree(rpm: int, evicts: bool, m: Limiters, calls: seq<Call>)
    requires |calls| == 3
    ensures var (r0, m0) := CallStep(rpm, evicts, m, calls[0]);
      var (r1, m1) := CallStep(rpm, evicts, m0, calls[1]);
      Answers(rpm, evicts, m, calls) == [r0, r1, CallStep(rpm, evicts, m1, calls[2]).0]
  {
    hide CallStep;
    var m0 := CallStep(rpm, evicts, m, calls[0]).1;
    var m1 := CallStep(rpm, evicts, m0, calls[1]).1;
    var last := calls[1..][1..];
    assert last == [calls[2]] && last[1..] == [];
    assert Answers(rpm, evicts, m1, last) == [CallStep(rpm, evicts, m1, calls[2]).0];
    assert Answers(rpm, evicts, m0, calls[1..]) == [CallStep(rpm, evicts, m0, calls[1]).0] + Answers(rpm, evicts, m1, last);
  }

  // Without refill the evicting limiter forgets that the only token was spent.
  lemma {:induction false} WithoutRefill(rpm: int)
    requires rpm <= 0
    ensures Nondecreasing(0.0, IdleAndBack())
    ensures Answers(rpm, true, map[], IdleAndBack()) == [Some(true), None, Some(true)]
    ensures Answers(rpm, false, map[], IdleAndBack()) == [Some(true), None, Some(false)]
  {
    var calls := IdleAndBack();
    var spent: Limiters := Install(map[], "a", "u", Entry(Bucket(0.0, 0.0), 0.0));
    assert Burst(rpm) == 1 && Rate(rpm) <= 0.0;
    assert AllowStep(rpm, map[], "a", "u", 0.0) == (true, spent);
    LookupSwept(spent, 601.0, "a", "u");
    LookupInstalled(map[], "a", "u", Entry(Bucket(0.0, 0.0), 0.0), "a", "u");
    assert calls[1..] == [Sweep(601.0), Request("a", "u", 601.0)];
    assert calls[1..][1..] == [Request("a", "u", 601.0)];
    assert AllowStep(rpm, spent, "a", "u", 601.0).0 == false;
    assert AllowStep(rpm, Swept(spent, 601.0), "a", "u", 601.0).0 == true;
    AnswersOfThree(rpm, true, map[], calls);
    AnswersOfThree(rpm, false, map[], calls);
  }

  /** Evicting idle entries changes no answer of any history, exactly when the configured rate is positive. */
  lemma {:induction false} EvictionInvisibleWhen(rpm: int)
    ensures EvictionInvisible(rpm) <==> rpm >= 1
  {
    if rpm >= 1 {
      forall from, calls | Nondecreasing(from, calls)
        ensures Answers(rpm, true, map[], calls) == Answers(rpm, false, map[], calls)
      {
        SameAnswers(rpm, map[], map[], from, calls);
      }
      assert EvictionInvisible(rpm);
    } else {
      WithoutRefill(rpm);
      var calls := IdleAndBack();
      assert Nondecreasing(0.0, calls);
      assert Answers(rpm, true, map[], calls)[2] != Answers(rpm, false, map[], calls)[2];
      assert !EvictionInvisible(rpm);
    }
  }

  // ---------------------------------------------------------------- the rate over every window

  // How many requests of a key within [s, t] were granted.
  function Granted(calls: seq<Call>, answers: seq<Option<bool>>, a: string, u: string, s: real, t: real): nat
    requires |answers| == |calls|
    decreases |calls|
  {
    if calls == [] then 0
    else
      (if calls[0].Request? && calls[0].agentId == a && calls[0].userId == u && s <= calls[0].at <= t && answers[0] == Some(true)
       then 1 else 0)
      + Granted(calls[1..], answers[1..], a, u, s, t)
  }

  lemma {:induction false} NoneAfter(calls: seq<Call>, answers: seq<Option<bool>>, a: string, u: string, s: real, t: real, now: real)
    requires |answers| == |calls| && Nondecreasing(now, calls) && t < now
    ensures Granted(calls, answers, a, u, s, t) == 0
    decreases |calls|
  {
    if calls == [] {
    } else {
      NoneAfter(calls[1..], answers[1..], a, u, s, t, now);
    }
  }

  lemma {:induction false} BudgetStep(rpm: int, evicts: bool, m: Limiters, now: real, c: Call, a: string, u: string)
    requires rpm >= 1 && Sound(rpm, m, now) && now <= c.at
    ensures var (answer, m') := CallStep(rpm, evicts, m, c);
      && Sound(rpm, m', c.at)
      && Level(rpm, m', a, u, c.at) + (if c.Request? && c.agentId == a && c.userId == u && answer == Some(true) then 1.0 else 0.0)
           <= Level(rpm, m, a, u, now) + Refill(rpm, c.at - now)
  {
    hide Level, AllowStep, Swept, Sound, Refill;
    SoundLater(rpm, m, now, c.at);
    LevelLater(rpm, m, a, u, now, c.at);
    if c.Request? {
      AllowSound(rpm, m, c.agentId, c.userId, c.at);
      AllowLevels(rpm, m, c.agentId, c.userId, c.at, a, u);
    } else {
      SweepSound(rpm, m, c.at);
      SweepLevels(rpm, m, c.at, a, u);
    }
  }

  // From any sound state on, a key is granted no more than its level and the refill since.
  lemma {:induction false} Budget(rpm: int, evicts: bool, m: Limiters, now: real, calls: seq<Call>, a: string, u: string, s: real, t: real)
    requires rpm >= 1 && Sound(rpm, m, now) && Nondecreasing(now, calls) && now <= t
    ensures Granted(calls, Answers(rpm, evicts, m, calls), a, u, s, t) as real
      <= Level(rpm, m, a, u, now) + Refill(rpm, t - now)
    decreases |calls|
  {
    hide Refill, Level, CallStep, Sound;
    LevelLater(rpm, m, a, u, now, now);
    RefillAdds(rpm, t - now, 0.0);
    if calls == [] {
    } else {
      var c := calls[0];
      var (answer, m') := CallStep(rpm, evicts, m, c);
      var rest := Answers(rpm, evicts, m', calls[1..]);
      assert Answers(rpm, evicts, m, calls) == [answer] + rest;
      if c.at <= t {
        assert Nondecreasing(c.at, calls[1..]);
        BudgetStep(rpm, evicts, m, now, c, a, u);
        Budget(rpm, evicts, m', c.at, calls[1..], a, u, s, t);
        RefillAdds(rpm, c.at - now, t - c.at);
        assert (c.at - now) + (t - c.at) == t - now;
      } else {
        assert Nondecreasing(c.at, calls);
        NoneAfter(calls, Answers(rpm, evicts, m, calls), a, u, s, t, c.at);
      }
    }
  }

  // The bound for calls of which only those from s on count.
  lemma {:induction false} WindowFrom(
      rpm: int, evicts: bool, m: Limiters, now: real, calls: seq<Call>, a: string, u: string, s: real, t: real)
    requires rpm >= 1 && Sound(rpm, m, now) && Nondecreasing(now, calls) && s <= t
    ensures Granted(calls, Answers(rpm, evicts, m, calls), a, u, s, t) as real
      <= Burst(rpm) as real + Refill(rpm, t - s)
    decreases |calls|
  {
    hide Refill, Level, CallStep, Sound;
    RefillAdds(rpm, t - s, 0.0);
    if calls == [] {
    } else {
      var c := calls[0];
      if c.at < s {
        var (answer, m') := CallStep(rpm, evicts, m, c);
        BudgetStep(rpm, evicts, m, now, c, a, u);
        assert Answers(rpm, evicts, m, calls) == [answer] + Answers(rpm, evicts, m', calls[1..]);
        assert Nondecreasing(c.at, calls[1..]);
        WindowFrom(rpm, evicts, m', c.at, calls[1..], a, u, s, t);
      } else {
        var from := if now < s then s else now;
        assert Nondecreasing(from, calls);
        SoundLater(rpm, m, now, from);
        LevelLater(rpm, m, a, u, now, from);
        if t < from {
          NoneAfter(calls, Answers(rpm, evicts, m, calls), a, u, s, t, from);
        } else {
          Budget(rpm, evicts, m, from, calls, a, u, s, t);
          RefillAdds(rpm, from - s, t - from);
          assert (from - s) + (t - from) == t - s;
        }
      }
    }
  }

  lemma {:induction false} NothingYet(rpm: int, from: real)
    ensures Sound(rpm, map[], from)
  {}

  /**
   * Over every window of time, whatever else happens and with sweeps
   * interleaved, a key is granted at most the burst and the rate times the window.
   */
  lemma {:induction false} RateBound(rpm: int, evicts: bool, from: real, calls: seq<Call>, a: string, u: string, s: real, t: real)
    requires rpm >= 1 && Nondecreasing(from, calls) && s <= t
    ensures Granted(calls, Answers(rpm, evicts, map[], calls), a, u, s, t) as real
      <= Burst(rpm) as real + rpm as real * (t - s) / 60.0
  {
    hide Refill, Granted, Answers, Nondecreasing, Sound;
    NothingYet(rpm, from);
    WindowFrom(rpm, evicts, map[], from, calls, a, u, s, t);
    RefillIs(rpm, t - s);
  }

  /** With a rate of zero or less, sweeping breaks that bound too. */
  lemma {:induction false} NoBoundWithoutRefill(rpm: int)
    requires rpm <= 0
    ensures var calls := IdleAndBack();
      Granted(calls, Answers(rpm, true, map[], calls), "a", "u", 0.0, 601.0) as real
        > Burst(rpm) as real + rpm as real * 601.0 / 60.0
  {
    WithoutRefill(rpm);
    var calls, answers := IdleAndBack(), Answers(rpm, true, map[], IdleAndBack());
    assert calls[1..][1..][1..] == [];
    assert answers[1..] == [None, Some(true)] && answers[1..][1..] == [Some(true)];
    assert Granted(calls[1..][1..], answers[1..][1..], "a", "u", 0.0, 601.0) == 1;
  }
}
