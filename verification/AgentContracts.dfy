/**
 The values that cross the Agent Gateway (`agent_gateway/contracts.py`, `evidence.py`, `errors.py`,
 `events.py`).  A fingerprint is an injective function of the fields it lists, so it is modelled by
 those fields.
 */
module AgentContracts {
  import opened ExecutionEvents

  type AgentId = nat
  type AssignmentId = nat
  type ContextId = nat
  type OutcomeId = nat
  type MarketSnapshotId = nat
  type Time = int  // seconds

  const HOUR: Time := 3600

  datatype AgentStatus = Active | Suspended | Retired

  /** `details` stands for the fields no check reads. */
  datatype AgentIdentity = AgentIdentity(agentId: AgentId, status: AgentStatus, details: nat)

  datatype TradingAssignment = TradingAssignment(
    assignmentId: AssignmentId,
    allowedAgentId: AgentId,
    symbol: string,
    strategyArtifactHash: string,
    validFrom: Time,
    validUntil: Time,
    maxProposalsPerHour: nat,
    riskMin: real,
    riskMax: real,
    evidenceRequired: bool,
    details: nat)

  predicate ValidAssignment(a: TradingAssignment) {
    a.validFrom < a.validUntil && 0 < a.maxProposalsPerHour && 0.0 < a.riskMin <= a.riskMax <= 1.0
    && 1 <= |a.strategyArtifactHash| <= 128
  }

  /** Derived from the symbol and the instant alone. */
  datatype SnapshotId = ContextSnapshot(symbol: string, at: Time) | ForeignSnapshot(id: nat)

  datatype MarketContext = MarketContext(market: MarketSnapshotId, specVersion: string, session: nat, quality: nat)

  datatype Evidence = Evidence(id: SnapshotId, symbol: string, at: Time, observed: MarketContext)

  /** Everything in a bundle but its id: exactly what its content hash lists. */
  datatype BundleContent = BundleContent(
    assignmentId: AssignmentId,
    observed: MarketContext,
    portfolioHash: string,
    snapshot: SnapshotId,
    hints: nat,
    issuedAt: Time,
    expiresAt: Time)

  datatype ContextBundle = ContextBundle(contextId: ContextId, content: BundleContent)

  /** What an agent may put where a content hash belongs. */
  datatype ContextHash = HashOf(content: BundleContent) | NoSuchHash(text: string)

  datatype Side = Buy | Sell

  /** Everything in a proposal but its id: exactly what its fingerprint lists. */
  datatype ProposalContent = ProposalContent(
    agentId: AgentId,
    assignmentId: AssignmentId,
    contextHash: ContextHash,
    strategyArtifactHash: string,
    side: Side,
    entryType: EntryType,
    referencePrice: real,
    stopLoss: real,
    takeProfit: real,
    confidence: real,
    riskFraction: real,
    reasonCodes: seq<string>,
    evidenceRefs: seq<nat>,
    submittedAt: Time,
    expiresAt: Time)

  datatype TradeProposal = TradeProposal(proposalId: OutcomeId, content: ProposalContent)

  /** Every price is positive, and stop and target lie on opposite sides of the reference. */
  predicate PricesFit(side: Side, reference: real, stop: real, target: real) {
    match side
    case Buy => 0.0 < stop < reference < target
    case Sell => 0.0 < target < reference < stop
  }

  /** The constructor's validators. */
  predicate ValidProposal(c: ProposalContent) {
    && PricesFit(c.side, c.referencePrice, c.stopLoss, c.takeProfit)
    && c.submittedAt < c.expiresAt && 0.0 < c.riskFraction <= 1.0 && 0.0 <= c.confidence <= 1.0
  }

  datatype NoTradeContent = NoTradeContent(
    agentId: AgentId, assignmentId: AssignmentId, contextHash: ContextHash, reasonCodes: seq<string>, decidedAt: Time)

  datatype NoTradeDecision = NoTradeDecision(decisionId: OutcomeId, content: NoTradeContent)

  datatype Fingerprint = ProposalPrint(proposal: ProposalContent) | NoTradePrint(decision: NoTradeContent)

  function AgentOf(f: Fingerprint): AgentId {
    match f case ProposalPrint(p) => p.agentId case NoTradePrint(d) => d.agentId
  }

  function AssignmentOf(f: Fingerprint): AssignmentId {
    match f case ProposalPrint(p) => p.assignmentId case NoTradePrint(d) => d.assignmentId
  }

  function ContextOf(f: Fingerprint): ContextHash {
    match f case ProposalPrint(p) => p.contextHash case NoTradePrint(d) => d.contextHash
  }

  /** The platform's own order intent; `intentId` is derived injectively from the proposal id. */
  datatype TradeIntent = TradeIntent(
    intentId: OutcomeId,
    strategyId: string,
    strategyVersion: string,
    symbol: string,
    side: Side,
    createdAt: Time,
    expiresAt: Time,
    entryType: EntryType,
    referencePrice: real,
    stopLoss: real,
    takeProfit: real,
    confidence: real,
    reasonCodes: seq<string>,
    riskFraction: real,
    snapshot: SnapshotId)

  predicate ValidIntent(i: TradeIntent) {
    && i.createdAt < i.expiresAt && i.reasonCodes != [] && 1 <= |i.strategyVersion| <= 128
    && PricesFit(i.side, i.referencePrice, i.stopLoss, i.takeProfit)
    && 0.0 < i.riskFraction <= 1.0 && 0.0 <= i.confidence <= 1.0
  }

  datatype Reason =
    | UnknownAssignment | AssignmentNotOwned | AssignmentNotValidAtTime | StrategyArtifactMismatch
    | RateLimitExceeded | RiskFractionOutOfBand | MissingReasonCodes | MissingRequiredEvidence
    | ProposalExpired | UnknownContext | ContextAssignmentMismatch | ContextExpired

  datatype GatewayError =
    | UnknownAgent | BadCredential | AgentNotActive | Impersonation
    | AssignmentConflict | ContextConflict | UnknownFeatureSnapshot | DecisionConflict | EventConflict
    | UnclaimedOutcome | AssertionFailed | InvalidBundle

  datatype EventKind = Received | Accepted | Rejected

  datatype OutcomeEvent = OutcomeEvent(kind: EventKind, at: Time, reason: Option<Reason>)

  datatype Reply =
    | Done
    | Issued(bundle: ContextBundle)
    | Verdict(outcomeId: OutcomeId, accepted: bool, reason: Option<Reason>, intent: Option<TradeIntent>)
    | Raised(error: GatewayError)
    | Interrupted
}
