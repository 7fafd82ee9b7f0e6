/**
 * One key of the rate limiter with its lookup, its installation and its taking
 * of a token as separate steps. The miss path does not look again under the
 * write lock, so requests that miss together each install a limiter.
 */
module RateLimitRace {
  import opened Prelude
  import opened RateLimit

  // A request that missed, one that holds the limiter it was given, or one that was answered.
  datatype Request = Missed | Holding(limiter: nat) | Answered

  // Every limiter ever installed, the one the map points to, and the requests under way.
  datatype State = State(limiters: seq<Bucket>, current: Option<nat>, requests: seq<Request>)

  datatype Step =
    | Look(at: real)
    | Put(request: nat, at: real)
    | Spend(request: nat, at: real)
    | Evict(at: real)

  // One step and the requests it grants; a step that does not apply does nothing.
  function Next(rpm: int, s: State, step: Step): (State, nat) {
    match step
    case Look(at) =>
      (s.(requests := s.requests + [if s.current.Some? then Holding(s.current.value) else Missed]), 0)
    case Put(r, at) =>
      if r >= |s.requests| || !s.requests[r].Missed? then (s, 0)
      else
        var n := |s.limiters|;
        (State(s.limiters + [Full(rpm, at)], Some(n), s.requests[r := Holding(n)]), 0)
    case Spend(r, at) =>
      if r >= |s.requests| || !s.requests[r].Holding? || s.requests[r].limiter >= |s.limiters| then (s, 0)
      else
        var i := s.requests[r].limiter;
        var (ok, after) := Take(rpm, s.limiters[i], at);
        (s.(limiters := s.limiters[i := after], requests := s.requests[r := Answered]), if ok then 1 else 0)
    case Evict(at) => (s.(current := None), 0)
  }

  function Final(rpm: int, s: State, steps: seq<Step>): State
    decreases |steps|
  {
    if steps == [] then s else Final(rpm, Next(rpm, s, steps[0]).0, steps[1..])
  }

  function Grants(rpm: int, s: State, steps: seq<Step>): nat
    decreases |steps|
  {
    if steps == [] then 0 else Next(rpm, s, steps[0]).1 + Grants(rpm, Next(rpm, s, steps[0]).0, steps[1..])
  }

  ghost predicate InTime(now: real, steps: seq<Step>) {
    && (forall i | 0 <= i < |steps| :: now <= steps[i].at)
    && (forall i, j | 0 <= i < j < |steps| :: steps[i].at <= steps[j].at)
  }

  predicate BucketOk(rpm: int, b: Bucket, now: real) {
    0.0 <= b.tokens <= Burst(rpm) as real && b.last <= now
  }

  ghost predicate AllOk(rpm: int, s: State, now: real) {
    forall i | 0 <= i < |s.limiters| :: BucketOk(rpm, s.limiters[i], now)
  }

  // The tokens of all limiters together.
  function Total(rpm: int, ls: seq<Bucket>, t: real): real {
    if ls == [] then 0.0 else Total(rpm, ls[..|ls| - 1], t) + Tokens(rpm, ls[|ls| - 1], t)
  }

  lemma {:induction false} TokensBounds(rpm: int, b: Bucket, now: real, t: real)
    requires rpm >= 1 && BucketOk(rpm, b, now) && now <= t
    ensures 0.0 <= Tokens(rpm, b, now) <= Burst(rpm) as real
    ensures Tokens(rpm, b, t) <= Tokens(rpm, b, now) + Refill(rpm, t - now)
  {
    RefillNonnegative(rpm, now - b.last);
    RefillNonnegative(rpm, t - now);
    TokensLater(rpm, b, now, t);
  }

  lemma {:induction false} Times(n: nat, x: real)
    ensures (n + 1) as real * x == n as real * x + x
    ensures x >= 0.0 ==> n as real * x >= 0.0
  {}

  lemma {:induction false} TotalBounds(rpm: int, ls: seq<Bucket>, now: real, t: real)
    requires rpm >= 1 && now <= t && forall i | 0 <= i < |ls| :: BucketOk(rpm, ls[i], now)
    ensures 0.0 <= Total(rpm, ls, now) <= |ls| as real * Burst(rpm) as real
    ensures Total(rpm, ls, t) <= Total(rpm, ls, now) + |ls| as real * Refill(rpm, t - now)
  {
    hide Refill, Tokens, BucketOk;
    if ls == [] {
    } else {
      var n := |ls| - 1;
      TotalBounds(rpm, ls[..n], now, t);
      TokensBounds(rpm, ls[n], now, t);
      Times(n, Burst(rpm) as real);
      Times(n, Refill(rpm, t - now));
    }
  }

  lemma {:induction false} TotalReplaced(rpm: int, ls: seq<Bucket>, i: nat, b: Bucket, t: real)
    requires i < |ls|
    ensures Total(rpm, ls[i := b], t) == Total(rpm, ls, t) - Tokens(rpm, ls[i], t) + Tokens(rpm, b, t)
  {
    hide Tokens;
    var n := |ls| - 1;
    if i < n {
      TotalReplaced(rpm, ls[..n], i, b, t);
      assert ls[i := b][..n] == ls[..n][i := b];
    } else {
      assert ls[i := b][..n] == ls[..n];
    }
  }

  lemma {:induction false} SpentBucket(rpm: int, b: Bucket, at: real)
    requires rpm >= 1 && BucketOk(rpm, b, at)
    ensures var (ok, after) := Take(rpm, b, at);
      BucketOk(rpm, after, at) && Tokens(rpm, after, at) == Tokens(rpm, b, at) - if ok then 1.0 else 0.0
  {
    TokensBounds(rpm, b, at, at);
    RefillNothing(rpm);
  }

  // A step turns at most one token into a grant, and only installing a limiter adds a full bucket.
  lemma {:induction false} StepBudget(rpm: int, s: State, step: Step)
    requires rpm >= 1 && AllOk(rpm, s, step.at)
    ensures var (t, granted) := Next(rpm, s, step);
      && AllOk(rpm, t, step.at)
      && |s.limiters| <= |t.limiters|
      && granted as real + Total(rpm, t.limiters, step.at)
           <= Total(rpm, s.limiters, step.at) + (|t.limiters| - |s.limiters|) as real * Burst(rpm) as real
  {
    hide Refill;
    var at := step.at;
    var (t, granted) := Next(rpm, s, step);
    if step.Put? && |t.limiters| > |s.limiters| {
      assert t.limiters[..|s.limiters|] == s.limiters;
      assert BucketOk(rpm, Full(rpm, at), at);
      TokensBounds(rpm, Full(rpm, at), at, at);
    } else if step.Spend? && t != s {
      var i := s.requests[step.request].limiter;
      var b := s.limiters[i];
      assert BucketOk(rpm, b, at);
      TokensBounds(rpm, b, at, at);
      TotalReplaced(rpm, s.limiters, i, t.limiters[i], at);
      SpentBucket(rpm, b, at);
    }
  }

  lemma {:induction false} LimitersGrow(rpm: int, s: State, steps: seq<Step>)
    ensures |s.limiters| <= |Final(rpm, s, steps).limiters|
    decreases |steps|
  {
    if steps == [] {
    } else {
      LimitersGrow(rpm, Next(rpm, s, steps[0]).0, steps[1..]);
    }
  }

  lemma {:induction false} Scale(m: nat, n: nat, x: real)
    requires m <= n && x >= 0.0
    ensures m as real * x <= n as real * x
  {}

  lemma {:induction false} Spread(n: nat, x: real, y: real)
    ensures n as real * (x + y) == n as real * x + n as real * y
  {}

  lemma {:induction false} Split(a: nat, b: nat, c: nat, x: real)
    requires a <= b <= c
    ensures (c - a) as real * x == (b - a) as real * x + (c - b) as real * x
  {}

  // n limiters worth of some amount.
  function Worth(n: int, x: real): real {
    n as real * x
  }

  lemma {:induction false} WorthFacts(m: nat, u: nat, n: nat, x: real, y: real, burst: real)
    requires m <= u <= n && x >= 0.0 && y >= 0.0
    ensures Worth(m, x) <= Worth(n, x)
    ensures Worth(n, x + y) == Worth(n, x) + Worth(n, y)
    ensures Worth(n - m, burst) == Worth(u - m, burst) + Worth(n - u, burst)
    ensures Worth(n, x) >= 0.0 && Worth(0, burst) == 0.0
  {
    Scale(m, n, x);
    Times(n, x);
    Spread(n, x, y);
    Split(m, u, n, burst);
  }

  // What may still be granted by time t to n limiters in the end, of which m exist now.
  function Budget(rpm: int, s: State, now: real, n: int, t: real): real {
    Total(rpm, s.limiters, now) + Worth(n, Refill(rpm, t - now)) + Worth(n - |s.limiters|, Burst(rpm) as real)
  }

  lemma {:induction false} TotalLater(rpm: int, s: State, now: real, t: real)
    requires rpm >= 1 && now <= t && AllOk(rpm, s, now)
    ensures 0.0 <= Total(rpm, s.limiters, now) <= Worth(|s.limiters|, Burst(rpm) as real)
    ensures Total(rpm, s.limiters, t) <= Total(rpm, s.limiters, now) + Worth(|s.limiters|, Refill(rpm, t - now))
  {
    TotalBounds(rpm, s.limiters, now, t);
  }

  lemma {:induction false} StepWorth(rpm: int, s: State, step: Step)
    requires rpm >= 1 && AllOk(rpm, s, step.at)
    ensures var (t, granted) := Next(rpm, s, step);
      && AllOk(rpm, t, step.at)
      && |s.limiters| <= |t.limiters|
      && granted as real + Total(rpm, t.limiters, step.at)
           <= Total(rpm, s.limiters, step.at) + Worth(|t.limiters| - |s.limiters|, Burst(rpm) as real)
  {
    StepBudget(rpm, s, step);
  }

  lemma {:induction false} LaterOk(rpm: int, s: State, now: real, t: real)
    requires AllOk(rpm, s, now) && now <= t
    ensures AllOk(rpm, s, t)
  {
    forall i | 0 <= i < |s.limiters|
      ensures BucketOk(rpm, s.limiters[i], t)
    {
      assert BucketOk(rpm, s.limiters[i], now);
    }
  }

  lemma {:induction false} BudgetShrinks(rpm: int, s: State, now: real, step: Step, n: nat, t: real)
    requires rpm >= 1 && AllOk(rpm, s, now) && now <= step.at <= t
    requires |Next(rpm, s, step).0.limiters| <= n
    ensures var (u, granted) := Next(rpm, s, step);
      AllOk(rpm, u, step.at) && granted as real + Budget(rpm, u, step.at, n, t) <= Budget(rpm, s, now, n, t)
  {
    var (u, granted) := Next(rpm, s, step);
    var x, y := Refill(rpm, step.at - now), Refill(rpm, t - step.at);
    LaterOk(rpm, s, now, step.at);
    TotalLater(rpm, s, now, step.at);
    StepWorth(rpm, s, step);
    RefillAdds(rpm, step.at - now, t - step.at);
    assert (step.at - now) + (t - step.at) == t - now;
    WorthFacts(|s.limiters|, |u.limiters|, n, x, y, Burst(rpm) as real);
    hide Next, Refill, Worth, Total, AllOk, Burst;
  }

  lemma {:induction false} NothingGranted(rpm: int, s: State, now: real, t: real)
    requires rpm >= 1 && AllOk(rpm, s, now) && now <= t
    ensures 0.0 <= Budget(rpm, s, now, |s.limiters|, t)
  {
    TotalLater(rpm, s, now, t);
    RefillNonnegative(rpm, t - now);
    WorthFacts(|s.limiters|, |s.limiters|, |s.limiters|, Refill(rpm, t - now), 0.0, Burst(rpm) as real);
  }

  lemma {:induction false} RaceBudget(rpm: int, s: State, now: real, steps: seq<Step>, t: real)
    requires rpm >= 1 && AllOk(rpm, s, now) && InTime(now, steps)
    requires now <= t && forall i | 0 <= i < |steps| :: steps[i].at <= t
    ensures var n := |Final(rpm, s, steps).limiters|;
      |s.limiters| <= n && Grants(rpm, s, steps) as real <= Budget(rpm, s, now, n, t)
    decreases |steps|
  {
    hide Next, Budget, AllOk;
    var n := |Final(rpm, s, steps).limiters|;
    if steps == [] {
      NothingGranted(rpm, s, now, t);
    } else {
      var u := Next(rpm, s, steps[0]).0;
      LimitersGrow(rpm, u, steps[1..]);
      LimitersGrow(rpm, s, steps);
      BudgetShrinks(rpm, s, now, steps[0], n, t);
      RaceBudget(rpm, u, steps[0].at, steps[1..], t);
    }
  }

  // What n buckets may give out over a window.
  function Ceiling(rpm: int, n: nat, window: real): real {
    Worth(n, Burst(rpm) as real + rpm as real * window / 60.0)
  }

  lemma {:induction false} BurstPositive(rpm: int)
    ensures Burst(rpm) >= 1
  {}

  lemma {:induction false} BudgetBound(rpm: int, s: State, now: real, n: nat, t: real)
    requires rpm >= 1 && AllOk(rpm, s, now) && now <= t && |s.limiters| <= n
    ensures Budget(rpm, s, now, n, t) <= Ceiling(rpm, n, t - now)
  {
    hide Worth, Total, Refill, Burst, AllOk;
    var m, burst, refill := |s.limiters|, Burst(rpm) as real, Refill(rpm, t - now);
    TotalLater(rpm, s, now, t);
    RefillIs(rpm, t - now);
    RefillNonnegative(rpm, t - now);
    BurstPositive(rpm);
    WorthFacts(0, m, n, refill, burst, burst);
    assert refill + burst == burst + rpm as real * (t - now) / 60.0;
  }

  /**
   * Even when lookups, installations, evictions and requests interleave freely,
   * a key is granted over any window at most as many bursts and refills as it
   * has had limiters.
   */
  lemma {:induction false} RaceBound(rpm: int, s: State, start: real, steps: seq<Step>, end: real)
    requires rpm >= 1 && AllOk(rpm, s, start) && InTime(start, steps)
    requires start <= end && forall i | 0 <= i < |steps| :: steps[i].at <= end
    ensures Grants(rpm, s, steps) as real
      <= Ceiling(rpm, |Final(rpm, s, steps).limiters|, end - start)
  {
    hide Ceiling, Budget;
    var n := |Final(rpm, s, steps).limiters|;
    RaceBudget(rpm, s, start, steps, end);
    BudgetBound(rpm, s, start, n, end);
  }

  lemma {:induction false} GrantsFirst(s: State, steps: seq<Step>)
    requires steps != []
    ensures Grants(1, s, steps) == Next(1, s, steps[0]).1 + Grants(1, Next(1, s, steps[0]).0, steps[1..])
  {}

  lemma {:induction false} GrantsOne(s: State, step: Step)
    ensures Grants(1, s, [step]) == Next(1, s, step).1
  {
    assert [step][1..] == [];
  }

  /** The count matters: two requests that miss together are both granted at once, though the burst is one. */
  lemma {:induction false} TwoMissesTwoLimiters()
    ensures var steps := [Look(0.0), Look(0.0), Put(0, 0.0), Put(1, 0.0), Spend(0, 0.0), Spend(1, 0.0)];
      && Burst(1) == 1
      && Grants(1, State([], None, []), steps) == 2
  {
    var steps := [Look(0.0), Look(0.0), Put(0, 0.0), Put(1, 0.0), Spend(0, 0.0), Spend(1, 0.0)];
    var s0 := State([], None, []);
    var full, spent := Full(1, 0.0), Bucket(0.0, 0.0);
    assert Take(1, full, 0.0) == (true, spent);
    var s1 := Next(1, s0, steps[0]).0;
    var s2 := Next(1, s1, steps[1]).0;
    var s3 := Next(1, s2, steps[2]).0;
    var s4 := Next(1, s3, steps[3]).0;
    var s5 := Next(1, s4, steps[4]).0;
    assert s2.requests == [Missed, Missed];
    assert s4.limiters == [full, full] && s4.requests == [Holding(0), Holding(1)];
    assert s5.limiters == [spent, full] && s5.requests == [Answered, Holding(1)];
    hide Next;
    assert steps[1..][1..][1..][1..][1..] == [steps[5]];
    assert Grants(1, s5, [steps[5]]) == 1 by { GrantsOne(s5, steps[5]); }
    GrantsFirst(s0, steps);
    GrantsFirst(s1, steps[1..]);
    GrantsFirst(s2, steps[1..][1..]);
    GrantsFirst(s3, steps[1..][1..][1..]);
    GrantsFirst(s4, steps[1..][1..][1..][1..]);
  }
}
