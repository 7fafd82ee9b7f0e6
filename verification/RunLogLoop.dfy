/** What the read loop delivers and why it stops, told from the responses and the client's writes alone. */
module RunLogLoop {
  import opened Prelude
  import opened Turn
  import opened RunLog

  // The events the responses offer, up to the first response that ends the loop.
  function Offered(responses: seq<Response>): seq<(nat, Event)> {
    if responses == [] then []
    else match responses[0]
      case Events(batch) => batch + Offered(responses[1..])
      case Expired(active) => if active then Offered(responses[1..]) else []
      case ReadFailed => []
  }

  // Why the loop ends once all of them are delivered: the run is inactive, the read failed, or time is up.
  function Exhausted(responses: seq<Response>): Why {
    if responses == [] then Disconnected
    else match responses[0]
      case Events(_) => Exhausted(responses[1..])
      case Expired(active) => if active then Exhausted(responses[1..]) else Inactive
      case ReadFailed => Disconnected
  }

  function Positions(offered: seq<(nat, Event)>): seq<nat> {
    seq(|offered|, i requires 0 <= i < |offered| => offered[i].0)
  }

  // None of these events ends a run.
  predicate NoneEnds(offered: seq<(nat, Event)>) {
    forall k | 0 <= k < |offered| :: !offered[k].1.RunFinished? && !offered[k].1.RunError?
  }

  predicate LastEnds(offered: seq<(nat, Event)>) {
    offered != [] && (offered[|offered| - 1].1.RunFinished? || offered[|offered| - 1].1.RunError?)
  }

  // What becomes of a reader that is handed these events one by one.
  ghost predicate HandedOver(rd: Reader, offered: seq<(nat, Event)>, writes: nat -> bool, t: Reader, n: nat) {
    && n <= |offered| && t.pending == []
    && t.delivered == rd.delivered + Positions(offered[..n])
    && (forall k | |rd.delivered| <= k < |t.delivered| :: writes(k))
    && t.cursor == (if n == 0 then rd.cursor else offered[n - 1].0 + 1)
    && match t.phase
       case Open => n == |offered| && NoneEnds(offered)
       case Left(why) =>
         if why == SawTerminal then n > 0 && NoneEnds(offered[..n - 1]) && LastEnds(offered[..n])
         else why == Disconnected && n < |offered| && NoneEnds(offered[..n]) && !writes(|t.delivered|)
       case _ => false
  }

  lemma {:induction false} OneHandedOver(rd: Reader, x: (nat, Event), writes: nat -> bool) returns (n: nat)
    requires rd.phase.Open? && rd.pending == []
    ensures HandedOver(rd, [x], writes, Handed(rd.(pending := [x.0]), x.1, writes(|rd.delivered|)), n)
  {
    n := if writes(|rd.delivered|) then 1 else 0;
    assert [x][..n] == (if n == 1 then [x] else []);
    assert Positions([x]) == [x.0] && rd.delivered + Positions([]) == rd.delivered;
  }

  lemma {:induction false} NoneHandedOver(rd: Reader, writes: nat -> bool)
    requires rd.phase.Open? && rd.pending == []
    ensures HandedOver(rd, [], writes, rd, 0)
  {
    assert rd.delivered + Positions([]) == rd.delivered;
  }

  lemma {:induction false} NoneEndsConcat(a: seq<(nat, Event)>, b: seq<(nat, Event)>)
    ensures NoneEnds(a + b) <==> NoneEnds(a) && NoneEnds(b)
    ensures b != [] ==> (LastEnds(a + b) <==> LastEnds(b))
    ensures Positions(a + b) == Positions(a) + Positions(b)
  {
    if NoneEnds(a + b) {
      assert forall k | 0 <= k < |a| :: a[k] == (a + b)[k];
      assert forall k | 0 <= k < |b| :: b[k] == (a + b)[|a| + k];
    }
  }

  lemma {:induction false} NoPositions()
    ensures Positions([]) == [] && NoneEnds([]) && !LastEnds([])
  {}

  lemma {:induction false} HandedOverConcat(
      rd: Reader, a: seq<(nat, Event)>, t: Reader, m: nat, b: seq<(nat, Event)>, u: Reader, n: nat, writes: nat -> bool)
    requires HandedOver(rd, a, writes, t, m)
    requires if t.phase.Open? then HandedOver(t, b, writes, u, n) else u == t && n == 0
    ensures HandedOver(rd, a + b, writes, u, m + n)
  {
    hide NoneEnds, LastEnds, Positions;
    if t.phase.Open? {
      assert a[..m] == a;
      assert (a + b)[..m + n] == a + b[..n];
      NoneEndsConcat(a, b[..n]);
      if n > 0 {
        assert (a + b)[..m + n - 1] == a + b[..n - 1];
        NoneEndsConcat(a, b[..n - 1]);
      } else {
        assert b[..0] == [];
        NoPositions();
      }
      if n == |b| {
        assert b[..n] == b;
      }
    } else {
      assert (a + b)[..m] == a[..m];
      if m > 0 {
        assert (a + b)[..m - 1] == a[..m - 1];
      }
    }
  }

  lemma {:induction false} HandedOverClears(rd: Reader, offered: seq<(nat, Event)>, writes: nat -> bool, t: Reader, n: nat)
    requires HandedOver(rd, offered, writes, t, n)
    ensures t.pending == []
  {}

  lemma {:induction false} ServedHandsOver(rd: Reader, batch: seq<(nat, Event)>, writes: nat -> bool) returns (n: nat)
    requires rd.phase.Open? && rd.pending == []
    ensures HandedOver(rd, batch, writes, Served(rd, batch, writes), n)
    decreases |batch|
  {
    hide HandedOver, Handed;
    if batch == [] {
      n := 0;
      NoneHandedOver(rd, writes);
    } else {
      var next := Handed(rd.(pending := [batch[0].0]), batch[0].1, writes(|rd.delivered|));
      var first := OneHandedOver(rd, batch[0], writes);
      HandedOverClears(rd, [batch[0]], writes, next, first);
      assert [batch[0]] + batch[1..] == batch;
      var rest := 0;
      if next.phase.Open? {
        rest := ServedHandsOver(next, batch[1..], writes);
      }
      HandedOverConcat(rd, [batch[0]], next, first, batch[1..], Served(next, batch[1..], writes), rest, writes);
      n := first + rest;
    }
  }

  lemma {:induction false} ReplayedStops(rd: Reader, responses: seq<Response>, writes: nat -> bool) returns (u: Reader, n: nat)
    requires rd.phase.Open? && rd.pending == []
    ensures HandedOver(rd, Offered(responses), writes, u, n)
    ensures Replayed(rd, responses, writes) == if u.phase.Open? then u.(phase := Left(Exhausted(responses))) else u
    decreases |responses|
  {
    hide HandedOver, Served;
    u, n := rd, 0;
    if responses == [] {
      NoneHandedOver(rd, writes);
    } else {
      match responses[0] {
        case Events(batch) =>
          var t := Served(rd, batch, writes);
          var m := ServedHandsOver(rd, batch, writes);
          HandedOverClears(rd, batch, writes, t, m);
          u := t;
          if t.phase.Open? {
            u, n := ReplayedStops(t, responses[1..], writes);
          }
          HandedOverConcat(rd, batch, t, m, Offered(responses[1..]), u, n, writes);
          n := m + n;
        case Expired(active) =>
          if active {
            u, n := ReplayedStops(rd, responses[1..], writes);
          } else {
            NoneHandedOver(rd, writes);
          }
        case ReadFailed =>
          NoneHandedOver(rd, writes);
      }
    }
  }

  lemma {:induction false} ExhaustedQuietly(responses: seq<Response>)
    ensures Exhausted(responses) == Inactive || Exhausted(responses) == Disconnected
  {
    if responses == [] {
    } else {
      ExhaustedQuietly(responses[1..]);
    }
  }

  /**
   * What the loop delivers are the first of the offered events, each written to
   * the client: up to and including the first RUN_FINISHED or RUN_ERROR, up to
   * the first failed write, or all of them, in which case the run is inactive
   * or the read ended.
   */
  lemma {:induction false} ReplayMeans(responses: seq<Response>, writes: nat -> bool, cursor: nat, delivered: seq<nat>, why: Why)
    requires Replayed(Reader(Open, 0, [], []), responses, writes) == Reader(Left(why), cursor, [], delivered)
    ensures var offered, n := Offered(responses), |delivered|;
      && n <= |offered| && delivered == Positions(offered[..n])
      && (forall k | 0 <= k < n :: writes(k))
      && cursor == (if n == 0 then 0 else offered[n - 1].0 + 1)
      && match why
         case SawTerminal => n > 0 && NoneEnds(offered[..n - 1]) && LastEnds(offered[..n])
         case _ =>
           && NoneEnds(offered[..n])
           && if n < |offered| then !writes(n) && why == Disconnected else why == Exhausted(responses)
  {
    hide Replayed, Offered, Exhausted;
    var rd, offered := Reader(Open, 0, [], []), Offered(responses);
    var u, n := ReplayedStops(rd, responses, writes);
    ExhaustedQuietly(responses);
    assert u.delivered == delivered && u.cursor == cursor;
    assert [] + Positions(offered[..n]) == Positions(offered[..n]);
    assert offered[..|offered|] == offered;
  }
}
