/**
 The Agent Gateway as a state machine over its stores (`agent_gateway/gateway.py` over the in-memory
 `agent_gateway/stores.py`): what one call does to the stores and what it answers, including a
 submission that is interrupted after its claim or after its RECEIVED event.
 */
module GatewayMachine {
  import opened ExecutionEvents
  import opened AgentContracts

  datatype StoredOutcome = StoredOutcome(
    agentId: AgentId, assignmentId: AssignmentId, fingerprint: Fingerprint, claimedAt: Time, events: seq<OutcomeEvent>)

  datatype Stores = Stores(
    identities: map<AgentId, AgentIdentity>,
    credentials: map<AgentId, string>,
    assignments: map<AssignmentId, TradingAssignment>,
    byId: map<ContextId, ContextBundle>,
    byHash: map<ContextHash, ContextBundle>,
    evidence: map<SnapshotId, Evidence>,
    outcomes: map<OutcomeId, StoredOutcome>)

  const EMPTY_STORES: Stores := Stores(map[], map[], map[], map[], map[], map[], map[])

  /** Where a submission is cut off. */
  datatype Cut = Whole | AfterClaim | AfterReceived

  datatype Call =
    | RegisterIdentity(identity: AgentIdentity, secret: string)
    | IssueAssignment(assignment: TradingAssignment)
    | IssueBundle(bundle: ContextBundle)
    | PublishContext(contextId: ContextId, assignmentId: AssignmentId, symbol: string, observed: MarketContext,
                     portfolioHash: string, hints: nat, now: Time, validity: Time)
    | Submit(agentId: AgentId, secret: string, id: OutcomeId, mark: Fingerprint, now: Time, cut: Cut)

  /** Arguments that the value constructors accept. */
  predicate WellFormed(c: Call) {
    match c
    case IssueAssignment(a) => ValidAssignment(a)
    case IssueBundle(b) => b.content.issuedAt < b.content.expiresAt
    case Submit(_, _, _, mark, _, _) => mark.ProposalPrint? ==> ValidProposal(mark.proposal)
    case _ => true
  }

  // ---------------------------------------------------------------------------------------------
  // The stores
  // ---------------------------------------------------------------------------------------------

  function Lookup<K, V>(m: map<K, V>, k: K): Option<V> {
    if k in m then Some(m[k]) else None
  }

  /** The outcomes of an assignment claimed at or after an instant, whatever became of them. */
  function ClaimedSince(outcomes: map<OutcomeId, StoredOutcome>, a: AssignmentId, since: Time): set<OutcomeId> {
    set id | id in outcomes && outcomes[id].assignmentId == a && since <= outcomes[id].claimedAt
  }

  function EventOf(events: seq<OutcomeEvent>, kind: EventKind): Option<OutcomeEvent> {
    if events == [] then None else if events[0].kind == kind then Some(events[0]) else EventOf(events[1..], kind)
  }

  /** The first verdict among the events. */
  function Settlement(events: seq<OutcomeEvent>): Option<OutcomeEvent> {
    if events == [] then None else if events[0].kind != Received then Some(events[0]) else Settlement(events[1..])
  }

  datatype Appended = Ok(stores: Stores) | Fail(error: GatewayError)

  /** Append-once per (outcome, kind): equal content converges, different content raises; the time is
      not content. */
  function AppendEvent(s: Stores, id: OutcomeId, kind: EventKind, at: Time, reason: Option<Reason>): Appended {
    if id !in s.outcomes then Fail(UnclaimedOutcome)
    else
      var o := s.outcomes[id];
      var existing := EventOf(o.events, kind);
      if existing.Some? then (if existing.value.reason == reason then Ok(s) else Fail(EventConflict))
      else Ok(s.(outcomes := s.outcomes[id := o.(events := o.events + [OutcomeEvent(kind, at, reason)])]))
  }

  function Claimed(s: Stores, id: OutcomeId, mark: Fingerprint, now: Time): Stores {
    if id in s.outcomes then s
    else s.(outcomes := s.outcomes[id := StoredOutcome(AgentOf(mark), AssignmentOf(mark), mark, now, [])])
  }

  // ---------------------------------------------------------------------------------------------
  // The checks
  // ---------------------------------------------------------------------------------------------

  function AuthError(s: Stores, agentId: AgentId, secret: string): Option<GatewayError> {
    if agentId !in s.identities then Some(UnknownAgent)
    else if Lookup(s.credentials, agentId) != Some(secret) then Some(BadCredential)
    else if s.identities[agentId].status != Active then Some(AgentNotActive)
    else None
  }

  function ScopeReason(a: Option<TradingAssignment>, agentId: AgentId, now: Time): Option<Reason> {
    if a.None? then Some(UnknownAssignment)
    else if a.value.allowedAgentId != agentId then Some(AssignmentNotOwned)
    else if !(a.value.validFrom <= now <= a.value.validUntil) then Some(AssignmentNotValidAtTime)
    else None
  }

  function ContextReason(s: Stores, a: TradingAssignment, h: ContextHash, now: Time): Option<Reason> {
    if h !in s.byHash then Some(UnknownContext)
    else if s.byHash[h].content.assignmentId != a.assignmentId then Some(ContextAssignmentMismatch)
    else if now >= s.byHash[h].content.expiresAt then Some(ContextExpired)
    else None
  }

  function ProposalReason(s: Stores, agentId: AgentId, p: ProposalContent, now: Time): Option<Reason> {
    var found := Lookup(s.assignments, p.assignmentId);
    var scope := ScopeReason(found, agentId, now);
    if scope.Some? then scope
    else
      var a := found.value;
      if p.strategyArtifactHash != a.strategyArtifactHash then Some(StrategyArtifactMismatch)
      else if |ClaimedSince(s.outcomes, a.assignmentId, now - HOUR)| > a.maxProposalsPerHour
        then Some(RateLimitExceeded)
      else if !(a.riskMin <= p.riskFraction <= a.riskMax) then Some(RiskFractionOutOfBand)
      else if p.reasonCodes == [] then Some(MissingReasonCodes)
      else if a.evidenceRequired && p.evidenceRefs == [] then Some(MissingRequiredEvidence)
      else if now >= p.expiresAt then Some(ProposalExpired)
      else ContextReason(s, a, p.contextHash, now)
  }

  function NoTradeReason(s: Stores, agentId: AgentId, d: NoTradeContent, now: Time): Option<Reason> {
    var found := Lookup(s.assignments, d.assignmentId);
    var scope := ScopeReason(found, agentId, now);
    if scope.Some? then scope else ContextReason(s, found.value, d.contextHash, now)
  }

  function Evaluation(s: Stores, agentId: AgentId, mark: Fingerprint, now: Time): Option<Reason> {
    match mark
    case ProposalPrint(p) => ProposalReason(s, agentId, p, now)
    case NoTradePrint(d) => NoTradeReason(s, agentId, d, now)
  }

  /** `None` where the source would fail its assertion that assignment and bundle exist. */
  function IntentFor(s: Stores, id: OutcomeId, p: ProposalContent): Option<TradeIntent> {
    if p.assignmentId !in s.assignments || p.contextHash !in s.byHash then None
    else
      var a := s.assignments[p.assignmentId];
      Some(TradeIntent(
             id, "external_agent", a.strategyArtifactHash, a.symbol, p.side, p.submittedAt, p.expiresAt, p.entryType,
             p.referencePrice, p.stopLoss, p.takeProfit, p.confidence, p.reasonCodes, p.riskFraction,
             s.byHash[p.contextHash].content.snapshot))
  }

  function AcceptedVerdict(s: Stores, id: OutcomeId, mark: Fingerprint): Reply {
    match mark
    case NoTradePrint(_) => Verdict(id, true, None, None)
    case ProposalPrint(p) =>
      var intent := IntentFor(s, id, p);
      if intent.None? then Raised(AssertionFailed) else Verdict(id, true, None, intent)
  }

  // ---------------------------------------------------------------------------------------------
  // One call
  // ---------------------------------------------------------------------------------------------

  function Replayed(s: Stores, id: OutcomeId, mark: Fingerprint, settled: OutcomeEvent): Reply {
    if settled.kind == EventKind.Rejected then Verdict(id, false, settled.reason, None)
      else AcceptedVerdict(s, id, mark)
  }

  function Settled(s: Stores, agentId: AgentId, id: OutcomeId, mark: Fingerprint, now: Time): (Stores, Reply) {
    var reason := Evaluation(s, agentId, mark, now);
    var reply := if reason.Some? then Verdict(id, false, reason, None) else AcceptedVerdict(s, id, mark);
    if reply.Raised? then (s, reply)
    else
      match AppendEvent(s, id, if reason.Some? then EventKind.Rejected else Accepted, now, reason)
      case Fail(e) => (s, Raised(e))
      case Ok(s') => (s', reply)
  }

  /** From a claim held by this content and not settled. */
  function Resumed(s: Stores, agentId: AgentId, id: OutcomeId, mark: Fingerprint, now: Time, cut: Cut)
    : (Stores, Reply)
  {
    if cut == AfterClaim then (s, Interrupted)
    else
      match AppendEvent(s, id, Received, now, None)
      case Fail(e) => (s, Raised(e))
      case Ok(s') => if cut == AfterReceived then (s', Interrupted) else Settled(s', agentId, id, mark, now)
  }

  function SubmitStep(s: Stores, agentId: AgentId, secret: string, id: OutcomeId, mark: Fingerprint, now: Time,
                      cut: Cut)
    : (Stores, Reply)
  {
    var auth := AuthError(s, agentId, secret);
    if auth.Some? then (s, Raised(auth.value))
    else if AgentOf(mark) != agentId then (s, Raised(Impersonation))
    else if id in s.outcomes && s.outcomes[id].fingerprint != mark then (s, Raised(DecisionConflict))
    else if id in s.outcomes && Settlement(s.outcomes[id].events).Some? then
      (s, Replayed(s, id, mark, Settlement(s.outcomes[id].events).value))
    else Resumed(Claimed(s, id, mark, now), agentId, id, mark, now, cut)
  }

  function BundleIssued(s: Stores, b: ContextBundle): (Stores, Reply) {
    if b.content.snapshot !in s.evidence then (s, Raised(UnknownFeatureSnapshot))
    else if b.contextId in s.byId then
      (s, if s.byId[b.contextId].content == b.content then Issued(b) else Raised(ContextConflict))
    else
      (s.(byId := s.byId[b.contextId := b], byHash := s.byHash[HashOf(b.content) := b]), Issued(b))
  }

  /** The first recording of a snapshot id wins. */
  function EvidenceRecorded(s: Stores, e: Evidence): Stores {
    if e.id in s.evidence then s else s.(evidence := s.evidence[e.id := e])
  }

  function PublishedBundle(c: Call): ContextBundle
    requires c.PublishContext?
  {
    ContextBundle(c.contextId,
                  BundleContent(c.assignmentId, c.observed, c.portfolioHash, ContextSnapshot(c.symbol, c.now),
                                c.hints, c.now, c.now + c.validity))
  }

  /** Evidence first; a bundle that its constructor refuses leaves the evidence behind. */
  function Published(s: Stores, c: Call): (Stores, Reply)
    requires c.PublishContext?
  {
    var s' := EvidenceRecorded(s, Evidence(ContextSnapshot(c.symbol, c.now), c.symbol, c.now, c.observed));
    if c.now + c.validity <= c.now then (s', Raised(InvalidBundle)) else BundleIssued(s', PublishedBundle(c))
  }

  /** The calls that no agent can reach. */
  function Administer(s: Stores, c: Call): (Stores, Reply)
    requires !c.Submit?
  {
    match c
    case RegisterIdentity(i, secret) =>
      (s.(identities := s.identities[i.agentId := i], credentials := s.credentials[i.agentId := secret]), Done)
    case IssueAssignment(a) =>
      if a.assignmentId !in s.assignments then (s.(assignments := s.assignments[a.assignmentId := a]), Done)
      else (s, if s.assignments[a.assignmentId] == a then Done else Raised(AssignmentConflict))
    case IssueBundle(b) => BundleIssued(s, b)
    case PublishContext(_, _, _, _, _, _, _, _) => Published(s, c)
  }

  function Step(s: Stores, c: Call): (Stores, Reply) {
    if c.Submit? then SubmitStep(s, c.agentId, c.secret, c.id, c.mark, c.now, c.cut) else Administer(s, c)
  }

  ghost predicate IsGatewayRun(ss: seq<Stores>, calls: seq<Call>) {
    && |ss| == |calls| + 1 && ss[0] == EMPTY_STORES
    && forall i {:trigger calls[i]} :: 0 <= i < |calls| ==> WellFormed(calls[i]) && ss[i + 1] == Step(ss[i], calls[i]).0
  }

  // ---------------------------------------------------------------------------------------------
  // The invariant
  // ---------------------------------------------------------------------------------------------

  /** Empty, RECEIVED, or RECEIVED and exactly one verdict. */
  predicate GoodEvents(es: seq<OutcomeEvent>) {
    && |es| <= 2
    && (|es| > 0 ==> es[0].kind == Received && es[0].reason.None?)
    && (|es| > 1 ==> es[1].kind != Received && (es[1].kind == EventKind.Rejected <==> es[1].reason.Some?))
  }

  predicate IsSettled(o: StoredOutcome) {
    |o.events| == 2
  }

  predicate IsAccepted(o: StoredOutcome) {
    |o.events| == 2 && o.events[1].kind == Accepted
  }

  /** What acceptance has checked against tables that never change their entries. */
  predicate Grounded(s: Stores, f: Fingerprint) {
    && AssignmentOf(f) in s.assignments && s.assignments[AssignmentOf(f)].allowedAgentId == AgentOf(f)
    && ContextOf(f) in s.byHash && s.byHash[ContextOf(f)].content.assignmentId == AssignmentOf(f)
    && (f.ProposalPrint? ==>
          && ValidProposal(f.proposal) && f.proposal.reasonCodes != []
          && f.proposal.strategyArtifactHash == s.assignments[AssignmentOf(f)].strategyArtifactHash)
  }

  predicate GoodOutcome(s: Stores, o: StoredOutcome) {
    && GoodEvents(o.events) && o.agentId == AgentOf(o.fingerprint) && o.assignmentId == AssignmentOf(o.fingerprint)
    && (o.fingerprint.ProposalPrint? ==> ValidProposal(o.fingerprint.proposal))
    && (IsAccepted(o) ==> Grounded(s, o.fingerprint))
  }

  ghost predicate GoodAssignments(assignments: map<AssignmentId, TradingAssignment>) {
    forall a :: a in assignments ==> assignments[a].assignmentId == a && ValidAssignment(assignments[a])
  }

  ghost predicate GoodEvidence(evidence: map<SnapshotId, Evidence>) {
    forall e :: e in evidence ==> evidence[e].id == e
  }

  ghost predicate GoodHashes(byHash: map<ContextHash, ContextBundle>, evidence: map<SnapshotId, Evidence>) {
    forall h :: h in byHash ==> h == HashOf(byHash[h].content) && byHash[h].content.snapshot in evidence
  }

  ghost predicate GoodIds(byId: map<ContextId, ContextBundle>, byHash: map<ContextHash, ContextBundle>) {
    forall c :: c in byId ==> HashOf(byId[c].content) in byHash
  }

  ghost predicate GoodTables(s: Stores) {
    GoodAssignments(s.assignments) && GoodEvidence(s.evidence) && GoodHashes(s.byHash, s.evidence)
      && GoodIds(s.byId, s.byHash)
  }

  ghost predicate Good(s: Stores) {
    GoodTables(s) && forall id :: id in s.outcomes ==> GoodOutcome(s, s.outcomes[id])
  }

  /** What no call ever takes back. */
  ghost predicate EntriesKept<K, V(!new)>(m: map<K, V>, m': map<K, V>) {
    forall k :: k in m ==> k in m' && m'[k] == m[k]
  }

  ghost predicate HashesKept(m: map<ContextHash, ContextBundle>, m': map<ContextHash, ContextBundle>) {
    forall h :: h in m ==> h in m' && m'[h].content == m[h].content
  }

  ghost predicate TablesKept(s: Stores, s': Stores) {
    && EntriesKept(s.assignments, s'.assignments) && EntriesKept(s.evidence, s'.evidence)
    && HashesKept(s.byHash, s'.byHash) && EntriesKept(s.byId, s'.byId)
  }

  ghost predicate OutcomesKept(s: Stores, s': Stores) {
    forall id :: id in s.outcomes ==>
      && id in s'.outcomes && s'.outcomes[id] == s.outcomes[id].(events := s'.outcomes[id].events)
      && s.outcomes[id].events <= s'.outcomes[id].events
  }

  ghost predicate Kept(s: Stores, s': Stores) {
    TablesKept(s, s') && OutcomesKept(s, s')
  }

  lemma KeptIsTransitive(a: Stores, b: Stores, c: Stores)
    requires Kept(a, b) && Kept(b, c)
    ensures Kept(a, c)
  {
  }

  /** Changing tables in a way that keeps entries, and no outcome, stays good. */
  lemma TableChangeIsGood(s: Stores, s': Stores)
    requires Good(s) && GoodTables(s') && TablesKept(s, s') && s'.outcomes == s.outcomes
    ensures Good(s') && Kept(s, s')
  {
  }

  lemma SettlementOfGood(es: seq<OutcomeEvent>)
    requires GoodEvents(es)
    ensures Settlement(es) == if |es| == 2 then Some(es[1]) else None
    ensures EventOf(es, Received) == if |es| > 0 then Some(es[0]) else None
    ensures |es| < 2 ==> EventOf(es, Accepted).None? && EventOf(es, EventKind.Rejected).None?
  {
    if |es| > 0 {
      assert es[1..] == if |es| == 2 then [es[1]] else [];
    }
  }

  /** Replacing one outcome by one with more events. */
  lemma OutcomeChangeIsGood(s: Stores, id: OutcomeId, o: StoredOutcome)
    requires Good(s) && GoodOutcome(s, o)
    requires id in s.outcomes ==> o == s.outcomes[id].(events := o.events) && s.outcomes[id].events <= o.events
    ensures Good(s.(outcomes := s.outcomes[id := o])) && Kept(s, s.(outcomes := s.outcomes[id := o]))
  {
    var s' := s.(outcomes := s.outcomes[id := o]);
    forall x | x in s'.outcomes ensures GoodOutcome(s', s'.outcomes[x]) {
      if x != id { assert GoodOutcome(s, s.outcomes[x]); }
    }
  }

  lemma ClaimIsGood(s: Stores, id: OutcomeId, mark: Fingerprint, now: Time)
    requires Good(s) && (mark.ProposalPrint? ==> ValidProposal(mark.proposal))
    ensures Good(Claimed(s, id, mark, now)) && Kept(s, Claimed(s, id, mark, now))
  {
    if id !in s.outcomes {
      OutcomeChangeIsGood(s, id, StoredOutcome(AgentOf(mark), AssignmentOf(mark), mark, now, []));
    }
  }

  /** On an unsettled outcome RECEIVED never conflicts. */
  lemma ReceiveIsGood(s: Stores, id: OutcomeId, now: Time)
    requires Good(s) && id in s.outcomes && !IsSettled(s.outcomes[id])
    ensures var r := AppendEvent(s, id, Received, now, None);
            && r.Ok? && Good(r.stores) && Kept(s, r.stores) && id in r.stores.outcomes
               && |r.stores.outcomes[id].events| == 1
            && r.stores.(outcomes := s.outcomes) == s && r.stores.outcomes.Keys == s.outcomes.Keys
            && (forall x :: x in s.outcomes ==>
                              r.stores.outcomes[x] == s.outcomes[x].(events := r.stores.outcomes[x].events))
  {
    var o := s.outcomes[id];
    assert GoodOutcome(s, o);
    SettlementOfGood(o.events);
    if o.events == [] {
      OutcomeChangeIsGood(s, id, o.(events := o.events + [OutcomeEvent(Received, now, None)]));
    } else {
      assert s.outcomes[id := o] == s.outcomes;
    }
  }

  /** A passed evaluation has established everything acceptance relies on. */
  lemma AcceptanceIsGrounded(s: Stores, agentId: AgentId, mark: Fingerprint, now: Time)
    requires Good(s) && AgentOf(mark) == agentId && (mark.ProposalPrint? ==> ValidProposal(mark.proposal))
    requires Evaluation(s, agentId, mark, now).None?
    ensures Grounded(s, mark)
  {
  }

  lemma GroundedReply(s: Stores, id: OutcomeId, mark: Fingerprint)
    requires Good(s) && Grounded(s, mark)
    ensures var reply := AcceptedVerdict(s, id, mark);
            && reply.Verdict? && reply.accepted && reply.outcomeId == id && reply.reason.None?
            && (reply.intent.Some? <==> mark.ProposalPrint?)
            && (reply.intent.Some? ==> ValidIntent(reply.intent.value) && reply.intent.value.snapshot in s.evidence)
  {
  }

  /** Settling a received outcome: the verdict is the present evaluation, and nothing conflicts. */
  lemma SettleIsGood(s: Stores, agentId: AgentId, id: OutcomeId, mark: Fingerprint, now: Time)
    requires Good(s) && id in s.outcomes && s.outcomes[id].fingerprint == mark && AgentOf(mark) == agentId
    requires |s.outcomes[id].events| == 1
    ensures var (s', reply) := Settled(s, agentId, id, mark, now);
            var reason := Evaluation(s, agentId, mark, now);
            && Good(s') && Kept(s, s')
            && id in s'.outcomes && s'.outcomes == s.outcomes[id := s'.outcomes[id]]
            && s'.outcomes[id].events ==
               s.outcomes[id].events
                 + [OutcomeEvent(if reason.Some? then EventKind.Rejected else Accepted, now, reason)]
            && reply.Verdict? && reply.outcomeId == id && reply.reason == reason && reply.accepted == reason.None?
            && reply == (if reason.Some? then Verdict(id, false, reason, None) else AcceptedVerdict(s, id, mark))
  {
    var o, reason := s.outcomes[id], Evaluation(s, agentId, mark, now);
    assert GoodOutcome(s, o);
    SettlementOfGood(o.events);
    if reason.None? {
      AcceptanceIsGrounded(s, agentId, mark, now);
      GroundedReply(s, id, mark);
    }
    OutcomeChangeIsGood(s, id,
                        o.(events := o.events
                           + [OutcomeEvent(if reason.Some? then EventKind.Rejected else Accepted, now, reason)]));
  }
}
