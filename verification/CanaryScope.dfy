/**
 What one canary permit authorizes (`_canary_permit_scope_mismatches` of `application/execution.py`):
 every failing leg is reported, none hides another.
 */
module CanaryScope {
  import opened ExecutionEvents

  datatype CanaryPermit = CanaryPermit(
    validUntil: int, accountRef: string, server: string, symbol: string, entryType: EntryType,
    agent: nat, assignment: nat, strategyArtifact: string, maxRiskFraction: real)

  /** The request, the account and the configuration a permit is held against. */
  datatype Facts = Facts(
    now: int, accountRef: string, server: string, symbol: string, entryType: EntryType,
    agent: nat, assignment: nat, strategyArtifact: string, riskFraction: real)

  datatype Mismatch =
    | NotFound | Expired | WrongAccount | WrongServer | WrongSymbol | WrongEntryType
    | WrongAgent | WrongAssignment | WrongArtifact | RiskFractionExceeded

  /** Whether one leg fails; a missing permit fails that leg alone. */
  predicate Fails(permit: Option<CanaryPermit>, f: Facts, m: Mismatch) {
    match permit
    case None => m == NotFound
    case Some(p) =>
      match m
      case NotFound => false
      case Expired => f.now > p.validUntil
      case WrongAccount => p.accountRef != f.accountRef
      case WrongServer => p.server != f.server
      case WrongSymbol => p.symbol != f.symbol
      case WrongEntryType => p.entryType != f.entryType
      case WrongAgent => p.agent != f.agent
      case WrongAssignment => p.assignment != f.assignment
      case WrongArtifact => p.strategyArtifact != f.strategyArtifact
      case RiskFractionExceeded => f.riskFraction > p.maxRiskFraction
  }

  /** The permit covers the request: same account, server, symbol, entry type, agent, assignment and
      artifact, in time, and no more risk than allowed. */
  predicate Covers(permit: Option<CanaryPermit>, f: Facts) {
    && permit.Some? && f.now <= permit.value.validUntil && f.riskFraction <= permit.value.maxRiskFraction
    && permit.value == CanaryPermit(permit.value.validUntil, f.accountRef, f.server, f.symbol, f.entryType,
                                    f.agent, f.assignment, f.strategyArtifact, permit.value.maxRiskFraction)
  }

  lemma CoversExactlyWhenNoneFails(permit: Option<CanaryPermit>, f: Facts)
    ensures Covers(permit, f) <==> forall m :: !Fails(permit, f, m)
  {
    if permit.None? {
      assert Fails(permit, f, NotFound);
    } else if !Covers(permit, f) {
      assert Fails(permit, f, Expired) || Fails(permit, f, WrongAccount) || Fails(permit, f, WrongServer)
             || Fails(permit, f, WrongSymbol) || Fails(permit, f, WrongEntryType) || Fails(permit, f, WrongAgent)
             || Fails(permit, f, WrongAssignment) || Fails(permit, f, WrongArtifact)
                || Fails(permit, f, RiskFractionExceeded);
    }
  }

  method Note(reasons: seq<Mismatch>, fails: bool, m: Mismatch) returns (r: seq<Mismatch>)
    ensures forall x :: x in r <==> x in reasons || (fails && x == m)
  {
    r := if fails then reasons + [m] else reasons;
  }

  /** The legs about time, account and instrument. */
  method BrokerLegs(p: CanaryPermit, f: Facts) returns (reasons: seq<Mismatch>)
    ensures forall m :: m in reasons <==>
                          m in {Expired, WrongAccount, WrongServer, WrongSymbol, WrongEntryType} && Fails(Some(p), f, m)
  {
    reasons := Note([], f.now > p.validUntil, Expired);
    reasons := Note(reasons, p.accountRef != f.accountRef, WrongAccount);
    reasons := Note(reasons, p.server != f.server, WrongServer);
    reasons := Note(reasons, p.symbol != f.symbol, WrongSymbol);
    reasons := Note(reasons, p.entryType != f.entryType, WrongEntryType);
  }

  /** The legs about agent, strategy and risk. */
  method AgentLegs(before: seq<Mismatch>, p: CanaryPermit, f: Facts) returns (reasons: seq<Mismatch>)
    ensures forall m :: m in reasons <==>
                          m in before || (m in {WrongAgent, WrongAssignment, WrongArtifact, RiskFractionExceeded}
                                          && Fails(Some(p), f, m))
  {
    reasons := Note(before, p.agent != f.agent, WrongAgent);
    reasons := Note(reasons, p.assignment != f.assignment, WrongAssignment);
    reasons := Note(reasons, p.strategyArtifact != f.strategyArtifact, WrongArtifact);
    reasons := Note(reasons, f.riskFraction > p.maxRiskFraction, RiskFractionExceeded);
  }

  /** Every failing leg and no other; nothing exactly when the permit covers the request. */
  method ScopeMismatches(permit: Option<CanaryPermit>, f: Facts) returns (reasons: seq<Mismatch>)
    ensures forall m :: m in reasons <==> Fails(permit, f, m)
    ensures reasons == [] <==> Covers(permit, f)
  {
    CoversExactlyWhenNoneFails(permit, f);
    if permit.None? { return [NotFound]; }
    reasons := BrokerLegs(permit.value, f);
    reasons := AgentLegs(reasons, permit.value, f);
    assert reasons == [] <==> forall m :: m !in reasons by {
      if reasons != [] { assert reasons[0] in reasons; }
    }
  }
}
