/** Per-turn failures of a moderated debate: error trees and the kinds read back from them. */
module TurnErrors {
  import opened Prelude

  datatype Kind = Agent | Persistence | Mapping

  datatype Cause = DeadlineExceeded | MaxTurnsReached | Other(message: string)

  // Leaf: an error value; Tagged: NewTurnError; Joined: errors.Join; Wrapped: fmt.Errorf with %w.
  datatype Err = Leaf(cause: Cause) | Tagged(kind: Kind, inner: Err) | Joined(errs: seq<Err>) | Wrapped(inner: Err)

  function NewTurnError(kind: Kind, err: Option<Err>): Option<Err> {
    match err
    case None => None
    case Some(e) => Some(Tagged(kind, e))
  }

  // errors.Join of two errors: nil only when both are.
  function Join(a: Option<Err>, b: Option<Err>): Option<Err> {
    match (a, b)
    case (None, None) => None
    case (Some(x), None) => Some(Joined([x]))
    case (None, Some(y)) => Some(Joined([y]))
    case (Some(x), Some(y)) => Some(Joined([x, y]))
  }

  predicate Is(e: Err, c: Cause) {
    match e
    case Leaf(x) => x == c
    case Tagged(_, inner) => Is(inner, c)
    case Wrapped(inner) => Is(inner, c)
    case Joined(errs) => exists i | 0 <= i < |errs| :: Is(errs[i], c)
  }

  predicate Has(e: Err, k: Kind) {
    match e
    case Leaf(_) => false
    case Tagged(kind, inner) => kind == k || Has(inner, k)
    case Wrapped(inner) => Has(inner, k)
    case Joined(errs) => exists i | 0 <= i < |errs| :: Has(errs[i], k)
  }

  predicate HasTurnFailure(err: Option<Err>, k: Kind) {
    err.Some? && Has(err.value, k)
  }

  function TurnErrorKind(err: Option<Err>): Option<Kind> {
    if HasTurnFailure(err, Persistence) then Some(Persistence)
    else if HasTurnFailure(err, Mapping) then Some(Mapping)
    else if err.Some? then Some(Agent)
    else None
  }

  function Kept(err: Option<Err>, ks: seq<Kind>): seq<Kind> {
    if ks == [] then []
    else
      var n := |ks| - 1;
      Kept(err, ks[..n]) + if HasTurnFailure(err, ks[n]) then [ks[n]] else []
  }

  function KindsOf(err: Option<Err>): seq<Kind> {
    Kept(err, [Agent, Persistence, Mapping])
  }

  method TurnErrorKinds(err: Option<Err>) returns (kinds: seq<Kind>)
    ensures kinds == KindsOf(err)
  {
    kinds := [];
    var all := [Agent, Persistence, Mapping];
    for i := 0 to 3
      invariant kinds == Kept(err, all[..i])
    {
      assert all[..i + 1] == all[..i] + [all[i]];
      if HasTurnFailure(err, all[i]) {
        kinds := kinds + [all[i]];
      }
    }
    assert all[..3] == all;
  }

  datatype TurnResult = TurnResult(agentId: string, text: string, err: Option<Err>, failureKind: Option<Kind>, failureKinds: seq<Kind>)

  // How Debate records one turn.
  function Record(agentId: string, text: string, err: Option<Err>): TurnResult {
    if err.Some? then TurnResult(agentId, text, err, TurnErrorKind(err), KindsOf(err))
    else TurnResult(agentId, text, None, None, [])
  }

  predicate HasFailure(r: TurnResult, k: Kind) {
    k in r.failureKinds || r.failureKind == Some(k)
  }

  lemma {:induction false} KeptKeepsExactly(err: Option<Err>, ks: seq<Kind>, k: Kind)
    ensures k in Kept(err, ks) <==> k in ks && HasTurnFailure(err, k)
  {
    if ks == [] {
    } else {
      var n := |ks| - 1;
      KeptKeepsExactly(err, ks[..n], k);
      assert ks == ks[..n] + [ks[n]];
    }
  }

  /** A recorded turn reports a kind exactly when its error carries it; an error carrying no storage failure counts as the agent's. */
  lemma {:induction false} RecordedFailures(agentId: string, text: string, err: Option<Err>, k: Kind)
    ensures HasFailure(Record(agentId, text, err), k) <==>
      HasTurnFailure(err, k) ||
      (k == Agent && err.Some? && !HasTurnFailure(err, Persistence) && !HasTurnFailure(err, Mapping))
    ensures var r := Record(agentId, text, err); r.agentId == agentId && r.text == text && r.err == err
  {
    KeptKeepsExactly(err, [Agent, Persistence, Mapping], k);
  }

  /** Joining keeps every failure of both sides and invents none. */
  lemma {:induction false} JoinKeepsKinds(a: Option<Err>, b: Option<Err>, k: Kind)
    ensures HasTurnFailure(Join(a, b), k) <==> HasTurnFailure(a, k) || HasTurnFailure(b, k)
    ensures Join(a, b).None? <==> a.None? && b.None?
  {
    if a.Some? && b.Some? {
      assert Join(a, b).value.errs[0] == a.value && Join(a, b).value.errs[1] == b.value;
    } else if a.Some? || b.Some? {
      assert Join(a, b).value.errs[0] == (if a.Some? then a.value else b.value);
    }
  }

  // An error with everything it wraps.
  function Nodes(e: Err): set<Err> {
    {e} + match e
      case Leaf(_) => {}
      case Tagged(_, inner) => Nodes(inner)
      case Wrapped(inner) => Nodes(inner)
      case Joined(errs) => set i, x | 0 <= i < |errs| && x in Nodes(errs[i]) :: x
  }

  /** An error is a cause, or carries a kind, exactly when something it wraps, at any depth and on any branch, is it. */
  lemma {:induction false} CarriesWhatItWraps(e: Err, c: Cause, k: Kind)
    ensures Is(e, c) <==> Leaf(c) in Nodes(e)
    ensures Has(e, k) <==> exists x :: x in Nodes(e) && x.Tagged? && x.kind == k
  {
    match e {
      case Leaf(_) =>
      case Tagged(kind, inner) =>
        CarriesWhatItWraps(inner, c, k);
        assert e in Nodes(e);
      case Wrapped(inner) => CarriesWhatItWraps(inner, c, k);
      case Joined(errs) =>
        forall i | 0 <= i < |errs|
          ensures Is(errs[i], c) <==> Leaf(c) in Nodes(errs[i])
          ensures Has(errs[i], k) <==> exists x :: x in Nodes(errs[i]) && x.Tagged? && x.kind == k
        {
          CarriesWhatItWraps(errs[i], c, k);
        }
    }
  }

  /** The kinds of a turn in their order, and its one kind: a storage failure first, the agent's when there is no other. */
  lemma {:induction false} KindsMean(err: Option<Err>)
    ensures err.None? ==> KindsOf(err) == [] && TurnErrorKind(err) == None
    ensures err.Some? ==>
      var (a, p, m) := (Has(err.value, Agent), Has(err.value, Persistence), Has(err.value, Mapping));
      && KindsOf(err) == (if a then [Agent] else []) + (if p then [Persistence] else []) + (if m then [Mapping] else [])
      && TurnErrorKind(err) == Some(if p then Persistence else if m then Mapping else Agent)
  {
    var all := [Agent, Persistence, Mapping];
    assert all[..2] == [Agent, Persistence] && all[..2][..1] == [Agent] && [Agent][..0] == [];
    assert Kept(err, [Agent]) == Kept(err, []) + if HasTurnFailure(err, Agent) then [Agent] else [];
    assert Kept(err, all[..2]) == Kept(err, [Agent]) + if HasTurnFailure(err, Persistence) then [Persistence] else [];
    assert Kept(err, all) == Kept(err, all[..2]) + if HasTurnFailure(err, Mapping) then [Mapping] else [];
  }
}
