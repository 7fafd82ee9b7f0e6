/** One request and one sweep of the rate limiter in plain numbers. */
module RateLimitLaws {
  import opened Prelude
  import opened RateLimit

  // The bucket size: a tenth of the requests per minute, and at least one.
  function Size(rpm: int): real {
    if rpm < 20 then 1.0 else (rpm / 10) as real
  }

  // The tokens a key has at a time: a full bucket at first, then what it had and a sixtieth of the rate per second since.
  function Available(rpm: int, found: Option<Entry>, now: real): real {
    match found
    case None => Size(rpm)
    case Some(e) =>
      var since := if now > e.bucket.last then now - e.bucket.last else 0.0;
      var filled := e.bucket.tokens + if rpm > 0 then since * (rpm as real / 60.0) else 0.0;
      if filled < Size(rpm) then filled else Size(rpm)
  }

  lemma {:induction false} FreshIsFull(rpm: int, now: real)
    ensures Tokens(rpm, Full(rpm, now), now) == Size(rpm)
  {
    assert now - now == 0.0 && 0.0 * Rate(rpm) == 0.0;
  }

  /**
   * A request is granted exactly with a token available, and then takes one. A
   * refused one takes nothing and keeps the bucket, or leaves a full one behind
   * for a key seen first. Either way the key counts as used now, and no other
   * key changes.
   */
  lemma {:induction false} AllowMeans(rpm: int, m: Limiters, agentId: string, userId: string, now: real)
    ensures var found := if agentId in m && userId in m[agentId] then Some(m[agentId][userId]) else None;
      var (ok, after) := AllowStep(rpm, m, agentId, userId, now);
      && (ok <==> Available(rpm, found, now) >= 1.0)
      && agentId in after && userId in after[agentId]
      && after[agentId][userId].lastUsed == now
      && after[agentId][userId].bucket == (
           if ok then Bucket(Available(rpm, found, now) - 1.0, now)
           else if found.Some? then found.value.bucket else Bucket(Size(rpm), now))
      && (forall a, u | a != agentId || u != userId ::
            (a in after && u in after[a] <==> a in m && u in m[a]) && (a in after && u in after[a] ==> after[a][u] == m[a][u]))
  {
    var rate := rpm as real / 60.0;
    assert Size(rpm) == Burst(rpm) as real;
    assert rpm > 0 <==> Rate(rpm) > 0.0;
    var found := Lookup(m, agentId, userId);
    var b := if found.Some? then found.value.bucket else Full(rpm, now);
    assert Tokens(rpm, b, now) == Available(rpm, found, now) by {
      FreshIsFull(rpm, now);
    }
  }

  /** A sweep keeps exactly the entries used within the last ten minutes, as they are, and the agents that have one. */
  lemma {:induction false} SweepMeans(m: Limiters, now: real, agentId: string, userId: string)
    ensures var after := Swept(m, now);
      && (agentId in after && userId in after[agentId] <==>
            agentId in m && userId in m[agentId] && m[agentId][userId].lastUsed >= now - 600.0)
      && (agentId in after && userId in after[agentId] ==> after[agentId][userId] == m[agentId][userId])
      && (agentId in after ==> after[agentId] != map[])
  {
    if agentId in m {
      var kept := Fresh(m[agentId], now - 600.0);
      assert kept != map[] <==> exists u :: u in kept;
      assert userId in kept <==> userId in m[agentId] && m[agentId][userId].lastUsed >= now - 600.0;
    }
  }
}
