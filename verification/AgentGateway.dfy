/**
 The gateway itself, in the source's own form: an object whose methods read and update its stores, with
 the two counting and searching loops of `agent_gateway/stores.py`.  Every public method keeps the
 invariant, takes nothing back, and is one step of the machine, so the guarantees about runs hold of it.
 */
module AgentGateway {
  import opened ExecutionEvents
  import opened AgentContracts
  import opened GatewayMachine
  import opened GatewayGuarantees

  class Gateway {
    var identities: map<AgentId, AgentIdentity>
    var credentials: map<AgentId, string>
    var assignments: map<AssignmentId, TradingAssignment>
    var byId: map<ContextId, ContextBundle>
    var byHash: map<ContextHash, ContextBundle>
    var evidence: map<SnapshotId, Evidence>
    var outcomes: map<OutcomeId, StoredOutcome>

    constructor ()
      ensures Valid() && State() == EMPTY_STORES
    {
      identities, credentials, assignments := map[], map[], map[];
      byId, byHash, evidence, outcomes := map[], map[], map[], map[];
    }

    function State(): Stores
      reads this
    {
      Stores(identities, credentials, assignments, byId, byHash, evidence, outcomes)
    }

    /** Events in order, outcomes consistent with their fingerprints, acceptances grounded in assignments and
        bundles, bundles in recorded evidence. */
    ghost predicate Valid()
      reads this
    {
      Good(State())
    }

    // -------------------------------------------------------------------------------------------
    // Administration
    // -------------------------------------------------------------------------------------------

    method RegisterAgent(identity: AgentIdentity, secret: string)
      requires Valid()
      modifies this
      ensures State() == Step(old(State()), RegisterIdentity(identity, secret)).0
      ensures Valid() && Kept(old(State()), State())
      ensures identity.agentId in identities && identities[identity.agentId] == identity
      ensures identity.agentId in credentials && credentials[identity.agentId] == secret
      ensures forall a :: a != identity.agentId ==>
                            && Lookup(identities, a) == Lookup(old(identities), a)
                            && Lookup(credentials, a) == Lookup(old(credentials), a)
    {
      identities := identities[identity.agentId := identity];
      credentials := credentials[identity.agentId := secret];
      StepIsGood(old(State()), RegisterIdentity(identity, secret));
    }

    /** The answer is Done exactly when afterwards the assignment registered under this id has this content; a
        registered assignment never changes. */
    method RegisterAssignment(assignment: TradingAssignment) returns (reply: Reply)
      requires Valid() && ValidAssignment(assignment)
      modifies this`assignments
      ensures (State(), reply) == Step(old(State()), IssueAssignment(assignment))
      ensures Valid() && Kept(old(State()), State())
      ensures assignment.assignmentId in assignments
      ensures reply == if assignments[assignment.assignmentId] == assignment then Done else Raised(AssignmentConflict)
      ensures assignments.Keys == old(assignments.Keys) + {assignment.assignmentId}
    {
      StepIsGood(State(), IssueAssignment(assignment));
      if assignment.assignmentId in assignments {
        return if assignments[assignment.assignmentId] == assignment then Done else Raised(AssignmentConflict);
      }
      assignments := assignments[assignment.assignmentId := assignment];
      reply := Done;
    }

    /** A content hash leads to this content, and on to recorded evidence. */
    predicate Resolves(content: BundleContent)
      reads this
    {
      && HashOf(content) in byHash && byHash[HashOf(content)].content == content
      && content.snapshot in evidence
    }

    /** A bundle is handed out exactly when its evidence is recorded and its id is free or already stands for
        this content; both its id and its hash then resolve to this content.  Otherwise nothing changes. */
    method IssueContextBundle(bundle: ContextBundle) returns (reply: Reply)
      requires Valid()
      modifies this`byId, this`byHash
      ensures (State(), reply) == BundleIssued(old(State()), bundle)
      ensures Valid() && Kept(old(State()), State())
      ensures reply.Issued? <==> bundle.content.snapshot in evidence
                                 && bundle.contextId in byId && byId[bundle.contextId].content == bundle.content
      ensures reply.Issued? ==> reply.bundle == bundle && Resolves(bundle.content)
      ensures !reply.Issued? ==> State() == old(State())
    {
      IssueIsGood(State(), bundle);
      if bundle.content.snapshot !in evidence {
        return Raised(UnknownFeatureSnapshot);
      }
      if bundle.contextId in byId {
        return if byId[bundle.contextId].content == bundle.content then Issued(bundle) else Raised(ContextConflict);
      }
      byId := byId[bundle.contextId := bundle];
      byHash := byHash[HashOf(bundle.content) := bundle];
      reply := Issued(bundle);
    }

    /** The evidence is recorded before the bundle that refers to it is even constructed, and stays when the
        bundle is refused; the first observation of a symbol at an instant is the one recorded.  A bundle that
        is handed out resolves to what was asked for and is valid for a while. */
    method Publish(contextId: ContextId, assignmentId: AssignmentId, symbol: string, observed: MarketContext,
                   portfolioHash: string, hints: nat, now: Time, validity: Time) returns (reply: Reply)
      requires Valid()
      modifies this`evidence, this`byId, this`byHash
      ensures (State(), reply) ==
              Step(old(State()), PublishContext(contextId, assignmentId, symbol, observed, portfolioHash, hints, now,
                                                validity))
      ensures Valid() && Kept(old(State()), State())
      ensures ContextSnapshot(symbol, now) in evidence
      ensures ContextSnapshot(symbol, now) !in old(evidence) ==>
                evidence[ContextSnapshot(symbol, now)] == Evidence(ContextSnapshot(symbol, now), symbol, now, observed)
      ensures reply.Issued? ==>
                var c := BundleContent(assignmentId, observed, portfolioHash, ContextSnapshot(symbol, now), hints, now,
                                       now + validity);
                reply.bundle == ContextBundle(contextId, c) && Resolves(c) && c.issuedAt < c.expiresAt
      ensures !reply.Issued? ==> byId == old(byId) && byHash == old(byHash)
      ensures reply == Raised(InvalidBundle) <==> validity <= 0
    {
      hide Good, Kept;
      var id := ContextSnapshot(symbol, now);
      RecordingIsGood(State(), Evidence(id, symbol, now, observed));
      if id !in evidence {
        evidence := evidence[id := Evidence(id, symbol, now, observed)];
      }
      if now + validity <= now {
        return Raised(InvalidBundle);
      }
      ghost var recorded := State();
      reply := IssueContextBundle(
        ContextBundle(contextId, BundleContent(assignmentId, observed, portfolioHash, id, hints, now, now + validity)));
      KeptIsTransitive(old(State()), recorded, State());
    }

    // -------------------------------------------------------------------------------------------
    // The outcome store
    // -------------------------------------------------------------------------------------------

    /** Inserts the claim unless it exists; equal content is a retry, other content a conflict. */
    method ClaimOutcome(id: OutcomeId, mark: Fingerprint, now: Time) returns (claimed: bool, conflict: bool)
      modifies this`outcomes
      ensures conflict <==> id in old(outcomes) && old(outcomes)[id].fingerprint != mark
      ensures claimed <==> id !in old(outcomes)
      ensures State() == if conflict then old(State()) else Claimed(old(State()), id, mark, now)
    {
      if id in outcomes {
        return false, outcomes[id].fingerprint != mark;
      }
      outcomes := outcomes[id := StoredOutcome(AgentOf(mark), AssignmentOf(mark), mark, now, [])];
      claimed, conflict := true, false;
    }

    /** Every claimed outcome of the assignment in the window, counted one by one. */
    method CountClaimedSince(assignmentId: AssignmentId, since: Time) returns (count: nat)
      ensures count == |ClaimedSince(outcomes, assignmentId, since)|
    {
      count := 0;
      var rest := outcomes.Keys;
      ghost var counted: set<OutcomeId> := {};
      while rest != {}
        invariant rest <= outcomes.Keys && count == |counted|
        invariant counted == ClaimedSince(outcomes, assignmentId, since) - rest
        decreases |rest|
      {
        var id :| id in rest;
        if outcomes[id].assignmentId == assignmentId && since <= outcomes[id].claimedAt {
          count := count + 1;
          counted := counted + {id};
        }
        rest := rest - {id};
      }
    }

    /** The first verdict recorded for an outcome. */
    method SettlementFor(id: OutcomeId) returns (settled: Option<OutcomeEvent>)
      ensures settled == if id in outcomes then Settlement(outcomes[id].events) else None
    {
      if id !in outcomes { return None; }
      var events := outcomes[id].events;
      for i := 0 to |events|
        invariant Settlement(events) == Settlement(events[i..])
      {
        if events[i].kind != Received {
          return Some(events[i]);
        }
      }
      settled := None;
    }

    /** The first event of one kind. */
    method ExistingEvent(events: seq<OutcomeEvent>, kind: EventKind) returns (found: Option<OutcomeEvent>)
      ensures found == EventOf(events, kind)
    {
      for i := 0 to |events|
        invariant EventOf(events, kind) == EventOf(events[i..], kind)
      {
        if events[i].kind == kind {
          return Some(events[i]);
        }
      }
      found := None;
    }

    method Record(id: OutcomeId, kind: EventKind, at: Time, reason: Option<Reason>)
      returns (error: Option<GatewayError>)
      modifies this`outcomes
      ensures var r := AppendEvent(old(State()), id, kind, at, reason);
              match r
              case Ok(s) => error == None && State() == s
              case Fail(e) => error == Some(e) && State() == old(State())
    {
      if id !in outcomes { return Some(UnclaimedOutcome); }
      var existing := ExistingEvent(outcomes[id].events, kind);
      if existing.Some? {
        return if existing.value.reason == reason then None else Some(EventConflict);
      }
      outcomes := outcomes[id := outcomes[id].(events := outcomes[id].events + [OutcomeEvent(kind, at, reason)])];
      error := None;
    }

    // -------------------------------------------------------------------------------------------
    // Submissions
    // -------------------------------------------------------------------------------------------

    method EvaluateProposal(agentId: AgentId, p: ProposalContent, now: Time) returns (reason: Option<Reason>)
      ensures reason == ProposalReason(State(), agentId, p, now)
    {
      var found := Lookup(assignments, p.assignmentId);
      var count := 0;
      if found.Some? {
        count := CountClaimedSince(found.value.assignmentId, now - HOUR);
      }
      reason := ScopeReason(found, agentId, now);
      if reason.Some? { return; }
      var a := found.value;
      if p.strategyArtifactHash != a.strategyArtifactHash { return Some(StrategyArtifactMismatch); }
      if count > a.maxProposalsPerHour { return Some(RateLimitExceeded); }
      if !(a.riskMin <= p.riskFraction <= a.riskMax) { return Some(RiskFractionOutOfBand); }
      if p.reasonCodes == [] { return Some(MissingReasonCodes); }
      if a.evidenceRequired && p.evidenceRefs == [] { return Some(MissingRequiredEvidence); }
      if now >= p.expiresAt { return Some(ProposalExpired); }
      reason := ContextReason(State(), a, p.contextHash, now);
    }

    method Settle(id: OutcomeId, reason: Option<Reason>, accepted: Reply, now: Time) returns (reply: Reply)
      requires reason.None? ==> !accepted.Raised?
      modifies this`outcomes
      ensures var r := AppendEvent(old(State()), id, if reason.Some? then EventKind.Rejected else Accepted, now,
                                   reason);
              match r
              case Ok(s) => State() == s
                && reply == (if reason.Some? then Verdict(id, false, reason, None) else accepted)
              case Fail(e) => State() == old(State()) && reply == Raised(e)
    {
      var error := Record(id, if reason.Some? then EventKind.Rejected else Accepted, now, reason);
      if error.Some? { return Raised(error.value); }
      reply := if reason.Some? then Verdict(id, false, reason, None) else accepted;
    }

    /** Claim, then replay a verdict or go on as far as RECEIVED; `open` says that evaluation follows. */
    method Receive(agentId: AgentId, secret: string, id: OutcomeId, mark: Fingerprint, now: Time, cut: Cut)
      returns (open: bool, reply: Reply)
      modifies this`outcomes
      ensures !open ==> (State(), reply) == SubmitStep(old(State()), agentId, secret, id, mark, now, cut)
      ensures open ==>
                SubmitStep(old(State()), agentId, secret, id, mark, now, cut)
                == Settled(State(), agentId, id, mark, now)
    {
      open := false;
      var auth := AuthError(State(), agentId, secret);
      if auth.Some? { return false, Raised(auth.value); }
      if AgentOf(mark) != agentId { return false, Raised(Impersonation); }
      var claimed, conflict := ClaimOutcome(id, mark, now);
      if conflict { return false, Raised(DecisionConflict); }
      if !claimed {
        var settled := SettlementFor(id);
        if settled.Some? { return false, Replayed(State(), id, mark, settled.value); }
      }
      if cut == AfterClaim { return false, Interrupted; }
      var error := Record(id, Received, now, None);
      if error.Some? { return false, Raised(error.value); }
      if cut == AfterReceived { return false, Interrupted; }
      return true, Interrupted;
    }

    /** The record holds this very submission and its verdict. */
    predicate Holds(id: OutcomeId, mark: Fingerprint, reply: Reply)
      reads this
      requires reply.Verdict?
    {
      && id in outcomes && outcomes[id].fingerprint == mark && IsSettled(outcomes[id])
      && (reply.accepted <==> IsAccepted(outcomes[id])) && reply.reason == outcomes[id].events[1].reason
    }

    lemma SubmissionKeepsValid(c: Call)
      requires Valid() && WellFormed(c) && c.Submit?
      ensures var (s', reply) := Step(State(), c);
              && Good(s') && Kept(State(), s') && !IsInternal(reply)
              && (reply.Verdict? ==>
                    && c.id in s'.outcomes && s'.outcomes[c.id].fingerprint == c.mark && IsSettled(s'.outcomes[c.id])
                    && (reply.accepted <==> IsAccepted(s'.outcomes[c.id]))
                    && reply.reason == s'.outcomes[c.id].events[1].reason)
    {
      hide Step;
      StepIsGood(State(), c);
      if Step(State(), c).1.Verdict? {
        VerdictIsRecorded(State(), c);
        VerdictOfRecord(Step(State(), c).0, c.id);
      }
    }

    method SubmitTradeProposal(agentId: AgentId, secret: string, proposal: TradeProposal, now: Time, cut: Cut)
      returns (reply: Reply)
      requires Valid() && ValidProposal(proposal.content)
      modifies this`outcomes
      ensures (State(), reply) ==
              Step(old(State()), Submit(agentId, secret, proposal.proposalId, ProposalPrint(proposal.content), now,
                                        cut))
      ensures Valid() && Kept(old(State()), State()) && !IsInternal(reply)
      ensures reply.Verdict? ==> Holds(proposal.proposalId, ProposalPrint(proposal.content), reply)
    {
      ghost var call := Submit(agentId, secret, proposal.proposalId, ProposalPrint(proposal.content), now, cut);
      SubmissionKeepsValid(call);
      var open;
      open, reply := Receive(agentId, secret, proposal.proposalId, ProposalPrint(proposal.content), now, cut);
      if !open { return; }
      var reason := EvaluateProposal(agentId, proposal.content, now);
      var accepted := Done;
      if reason.None? {
        accepted := AcceptedVerdict(State(), proposal.proposalId, ProposalPrint(proposal.content));
        if accepted.Raised? { return accepted; }
      }
      reply := Settle(proposal.proposalId, reason, accepted, now);
    }

    method SubmitNoTrade(agentId: AgentId, secret: string, decision: NoTradeDecision, now: Time, cut: Cut)
      returns (reply: Reply)
      requires Valid()
      modifies this`outcomes
      ensures (State(), reply) ==
              Step(old(State()), Submit(agentId, secret, decision.decisionId, NoTradePrint(decision.content), now, cut))
      ensures Valid() && Kept(old(State()), State()) && !IsInternal(reply)
      ensures reply.Verdict? ==> Holds(decision.decisionId, NoTradePrint(decision.content), reply)
    {
      ghost var call := Submit(agentId, secret, decision.decisionId, NoTradePrint(decision.content), now, cut);
      SubmissionKeepsValid(call);
      var open;
      open, reply := Receive(agentId, secret, decision.decisionId, NoTradePrint(decision.content), now, cut);
      if !open { return; }
      var reason := NoTradeReason(State(), agentId, decision.content, now);
      reply := Settle(decision.decisionId, reason, Verdict(decision.decisionId, true, None, None), now);
    }
  }
}
