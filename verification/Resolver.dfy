/** The cache of LLM providers per role: reused while the role's current model is unchanged in six fields. */
module Resolver {
  import opened Prelude

  datatype Model = Model(
    id: string, providerId: string, provider: string, model: string, apiKey: string, endpoint: string,
    maxTokens: int, displayName: string)

  // A built provider remembers the model it was built from and which build it came from.
  datatype Provider = Provider(builtFrom: Model, traceName: Option<string>)

  const NUL := '\0'

  // The cache key before hashing; the hash is taken to be free of collisions.
  function Key(m: Model): string {
    m.id + [NUL] + m.providerId + [NUL] + m.provider + [NUL] + m.model + [NUL] + m.apiKey + [NUL] + m.endpoint
  }

  predicate SameKeyed(m: Model, n: Model) {
    && m.id == n.id && m.providerId == n.providerId && m.provider == n.provider
    && m.model == n.model && m.apiKey == n.apiKey && m.endpoint == n.endpoint
  }

  predicate NulFree(m: Model) {
    NUL !in m.id && NUL !in m.providerId && NUL !in m.provider && NUL !in m.model && NUL !in m.apiKey && NUL !in m.endpoint
  }

  datatype Cached = Cached(key: string, model: Model, provider: Provider)

  datatype Failure = NotConfigured | RepoError | BuildFailed

  datatype Resolved = Ok(model: Model, provider: Provider, rebuilt: bool) | Failed(failure: Failure)

  // One call: what the repository lists for the role (None: an error), whether building works, and how it is traced.
  datatype Call = Call(role: string, listed: Option<seq<Model>>, builds: bool, traced: bool, traceName: string)

  function Build(c: Call, m: Model): Provider {
    Provider(m, if c.traced then Some(c.traceName) else None)
  }

  function Resolve(cache: map<string, Cached>, c: Call): (map<string, Cached>, Resolved) {
    if c.listed.None? then (cache, Failed(RepoError))
    else if c.listed.value == [] then (cache, Failed(NotConfigured))
    else
      var m := c.listed.value[0];
      if c.role in cache && cache[c.role].key == Key(m) then (cache, Ok(cache[c.role].model, cache[c.role].provider, false))
      else if !c.builds then (cache, Failed(BuildFailed))
      else (cache[c.role := Cached(Key(m), m, Build(c, m))], Ok(m, Build(c, m), true))
  }

  function After(cache: map<string, Cached>, calls: seq<Call>): map<string, Cached> {
    if calls == [] then cache
    else Resolve(After(cache, calls[..|calls| - 1]), calls[|calls| - 1]).0
  }

  class LlmResolver {
    var cache: map<string, Cached>

    constructor ()
      ensures cache == map[]
    {
      cache := map[];
    }

    method ResolveRole(c: Call) returns (r: Resolved)
      modifies this
      ensures (cache, r) == Resolve(old(cache), c)
    {
      if c.listed.None? {
        return Failed(RepoError);
      }
      if |c.listed.value| == 0 {
        return Failed(NotConfigured);
      }
      var m := c.listed.value[0];
      var key := Key(m);
      if c.role in cache {
        var cached := cache[c.role];
        if cached.key == key {
          return Ok(cached.model, cached.provider, false);
        }
      }
      if !c.builds {
        return Failed(BuildFailed);
      }
      var provider := Provider(m, if c.traced then Some(c.traceName) else None);
      cache := cache[c.role := Cached(key, m, provider)];
      return Ok(m, provider, true);
    }

    method ResolveAll(calls: seq<Call>) returns (last: Option<Resolved>)
      modifies this
      ensures cache == After(old(cache), calls)
      ensures calls != [] ==> last == Some(Resolve(After(old(cache), calls[..|calls| - 1]), calls[|calls| - 1]).1)
    {
      last := None;
      for i := 0 to |calls|
        invariant cache == After(old(cache), calls[..i])
        invariant i > 0 ==> last == Some(Resolve(After(old(cache), calls[..i - 1]), calls[i - 1]).1)
      {
        assert calls[..i + 1][..i] == calls[..i];
        var r := ResolveRole(calls[i]);
        last := Some(r);
      }
      assert calls[..|calls|] == calls;
    }
  }

  // ---------------------------------------------------------------- the key

  // Two NUL-free heads before the first NUL are equal when the wholes are.
  lemma {:induction false} HeadsEqual(a: string, b: string, x: string, y: string)
    requires NUL !in a && NUL !in b && a + [NUL] + x == b + [NUL] + y
    ensures a == b && x == y
  {
    var s, t := a + [NUL] + x, b + [NUL] + y;
    assert s[|a|] == NUL && t[|b|] == NUL;
    assert |a| == |b|;
    assert a == s[..|a|] && b == t[..|b|];
    assert x == s[|a| + 1..] && y == t[|b| + 1..];
  }

  function Tail4(m: Model): string { m.apiKey + [NUL] + m.endpoint }

  function Tail3(m: Model): string { m.model + [NUL] + Tail4(m) }

  function Tail2(m: Model): string { m.provider + [NUL] + Tail3(m) }

  function Tail1(m: Model): string { m.providerId + [NUL] + Tail2(m) }

  lemma {:induction false} KeyFolds(m: Model)
    ensures Key(m) == m.id + [NUL] + Tail1(m)
  {
    assert Tail3(m) == m.model + [NUL] + m.apiKey + [NUL] + m.endpoint;
    assert Tail2(m) == m.provider + [NUL] + m.model + [NUL] + m.apiKey + [NUL] + m.endpoint;
    assert Tail1(m) == m.providerId + [NUL] + m.provider + [NUL] + m.model + [NUL] + m.apiKey + [NUL] + m.endpoint;
  }

  lemma {:induction false} SameFieldsSameKey(m: Model, n: Model)
    requires SameKeyed(m, n)
    ensures Key(m) == Key(n)
  {}

  /** Without NUL characters, keys are equal exactly when the six fields are. */
  lemma {:induction false} KeyIsExact(m: Model, n: Model)
    requires NulFree(m) && NulFree(n)
    ensures Key(m) == Key(n) <==> SameKeyed(m, n)
  {
    hide Key;
    if SameKeyed(m, n) {
      SameFieldsSameKey(m, n);
    }
    if Key(m) == Key(n) {
      KeyFolds(m);
      KeyFolds(n);
      HeadsEqual(m.id, n.id, Tail1(m), Tail1(n));
      HeadsEqual(m.providerId, n.providerId, Tail2(m), Tail2(n));
      HeadsEqual(m.provider, n.provider, Tail3(m), Tail3(n));
      HeadsEqual(m.model, n.model, Tail4(m), Tail4(n));
      HeadsEqual(m.apiKey, n.apiKey, m.endpoint, n.endpoint);
    }
  }

  /** A NUL inside a field shifts the boundaries: two different models share a key. */
  lemma {:induction false} NulBreaksKey()
    ensures var m := Model("a", "", "", "", "", "", 0, "");
      var n := Model("", "", "", "", "", "", 0, "");
      var p, q := m.(providerId := "b" + [NUL]), m.(providerId := "b", provider := [NUL]);
      Key(p) == Key(q) && !SameKeyed(p, q)
  {
    var m := Model("a", "", "", "", "", "", 0, "");
    var p, q := m.(providerId := "b" + [NUL]), m.(providerId := "b", provider := [NUL]);
    assert Key(p) == ['a', NUL, 'b', NUL, NUL, NUL, NUL, NUL];
    assert Key(q) == ['a', NUL, 'b', NUL, NUL, NUL, NUL, NUL];
  }

  // ---------------------------------------------------------------- any history of calls

  // The model that was current at the role's last successful call.
  function LastResolved(role: string, calls: seq<Call>): Option<Model> {
    if calls == [] then None
    else
      var n := |calls| - 1;
      var c := calls[n];
      if c.role == role && Resolve(After(map[], calls[..n]), c).1.Ok? then Some(c.listed.value[0])
      else LastResolved(role, calls[..n])
  }

  // The cache is keyed by the model of the role's last success and holds a provider built for that key.
  ghost predicate CacheOk(cache: map<string, Cached>, calls: seq<Call>) {
    forall role ::
      && (role in cache <==> LastResolved(role, calls).Some?)
      && (role in cache ==>
            && cache[role].key == Key(LastResolved(role, calls).value)
            && Key(cache[role].model) == cache[role].key
            && cache[role].provider.builtFrom == cache[role].model)
  }

  lemma {:induction false} HistoryOk(calls: seq<Call>)
    ensures CacheOk(After(map[], calls), calls)
  {
    hide Key;
    if calls == [] {
    } else {
      HistoryOk(calls[..|calls| - 1]);
    }
  }

  ghost predicate HistoryNulFree(calls: seq<Call>) {
    forall i, j | 0 <= i < |calls| && calls[i].listed.Some? && 0 <= j < |calls[i].listed.value| :: NulFree(calls[i].listed.value[j])
  }

  lemma {:induction false} OkIsListed(cache: map<string, Cached>, c: Call)
    requires Resolve(cache, c).1.Ok?
    ensures c.listed.Some? && c.listed.value != []
  {}

  lemma {:induction false} LastIsListed(role: string, calls: seq<Call>)
    requires HistoryNulFree(calls) && LastResolved(role, calls).Some?
    ensures NulFree(LastResolved(role, calls).value)
  {
    hide NulFree, Resolve, After;
    var n := |calls| - 1;
    var c := calls[n];
    if c.role == role && Resolve(After(map[], calls[..n]), c).1.Ok? {
      OkIsListed(After(map[], calls[..n]), c);
    } else {
      assert HistoryNulFree(calls[..n]);
      LastIsListed(role, calls[..n]);
    }
  }

  lemma {:induction false} SameKeyedSelf(m: Model)
    ensures SameKeyed(m, m)
  {}

  lemma {:induction false} CachedModelNulFree(calls: seq<Call>, role: string)
    requires HistoryNulFree(calls) && role in After(map[], calls)
    ensures NulFree(After(map[], calls)[role].model)
  {
    hide Key, NulFree;
    var n := |calls| - 1;
    var c := calls[n];
    assert HistoryNulFree(calls[..n]);
    if role in After(map[], calls[..n]) {
      CachedModelNulFree(calls[..n], role);
    }
  }

  /**
   * After any history, a successful resolution returns a model and a provider
   * that agree with the role's current first model on the six keyed fields, and
   * it rebuilds exactly when one of them changed since the role's last success.
   */
  lemma {:induction false} AgreesWithRebuilding(calls: seq<Call>, c: Call)
    requires HistoryNulFree(calls + [c])
    ensures var r := Resolve(After(map[], calls), c).1;
      r.Ok? ==>
        var current := c.listed.value[0];
        && SameKeyed(r.model, current) && SameKeyed(r.provider.builtFrom, current)
        && (r.rebuilt <==> LastResolved(c.role, calls).None? || !SameKeyed(LastResolved(c.role, calls).value, current))
  {
    hide Key, NulFree, SameKeyed;
    var cache := After(map[], calls);
    var r := Resolve(cache, c).1;
    if r.Ok? {
      HistoryOk(calls);
      var all := calls + [c];
      assert all[|calls|] == c;
      var current := c.listed.value[0];
      assert NulFree(current);
      SameKeyedSelf(current);
      if c.role in cache {
        forall i, j | 0 <= i < |calls| && calls[i].listed.Some? && 0 <= j < |calls[i].listed.value|
          ensures NulFree(calls[i].listed.value[j])
        {
          assert all[i] == calls[i];
        }
        LastIsListed(c.role, calls);
        KeyIsExact(LastResolved(c.role, calls).value, current);
        CachedModelNulFree(calls, c.role);
        KeyIsExact(cache[c.role].model, current);
      }
    }
  }

  /** A failed call, whatever failed, leaves the cache as it was. */
  lemma {:induction false} FailureKeepsCache(cache: map<string, Cached>, c: Call)
    ensures Resolve(cache, c).1.Failed? ==> Resolve(cache, c).0 == cache
    ensures forall role | role != c.role && role in cache :: role in Resolve(cache, c).0 && Resolve(cache, c).0[role] == cache[role]
  {}

  /** The token limit is not keyed: an edit of it alone is not seen until something keyed changes. */
  lemma {:induction false} TokenLimitIsStale(calls: seq<Call>, c: Call, limit: int)
    requires c.listed.Some? && c.listed.value != [] && Resolve(After(map[], calls), c).1.Ok?
    ensures var edited := c.(listed := Some([c.listed.value[0].(maxTokens := limit)]));
      var first := Resolve(After(map[], calls), c).1;
      var again := Resolve(After(map[], calls + [c]), edited).1;
      again.Ok? && !again.rebuilt && again.model.maxTokens == first.model.maxTokens
  {
    hide Key;
    assert (calls + [c])[..|calls|] == calls;
    assert Key(c.listed.value[0].(maxTokens := limit)) == Key(c.listed.value[0]) by {
      SameFieldsSameKey(c.listed.value[0].(maxTokens := limit), c.listed.value[0]);
    }
  }

  /**
   * One resolution, case by case: an unreadable list and an empty one fail in
   * their own way, a kept key returns the cached pair whether or not building
   * works, and otherwise the first model is built, traced if tracing is on, and
   * replaces the role's entry.
   */
  lemma {:induction false} ResolutionMeans(cache: map<string, Cached>, c: Call)
    ensures var (after, r) := Resolve(cache, c);
      && (c.listed == None ==> r == Failed(RepoError))
      && (c.listed == Some([]) ==> r == Failed(NotConfigured))
      && (c.listed.Some? && |c.listed.value| > 0 ==>
            var m := c.listed.value[0];
            var kept := c.role in cache && cache[c.role].key == Key(m);
            var built := Provider(m, if c.traced then Some(c.traceName) else None);
            && (kept ==> after == cache && r == Ok(cache[c.role].model, cache[c.role].provider, false))
            && (!kept && !c.builds ==> r == Failed(BuildFailed))
            && (!kept && c.builds ==> r == Ok(m, built, true) && c.role in after && after[c.role] == Cached(Key(m), m, built)))
  {}
}
