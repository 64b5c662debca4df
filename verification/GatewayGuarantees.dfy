/**
 What every run of gateway calls guarantees: verdicts are recorded once and replayed for ever, nothing
 internal ever fails, evidence precedes and outlives what refers to it, and atomic submissions respect
 the hourly limit in every window.
 */
module GatewayGuarantees {
  import opened ExecutionEvents
  import opened AgentContracts
  import opened GatewayMachine

  predicate IsInternal(r: Reply) {
    r.Raised? && r.error in {EventConflict, UnclaimedOutcome, AssertionFailed}
  }

  lemma EvaluationIgnoresEvents(s: Stores, s': Stores, agentId: AgentId, mark: Fingerprint, now: Time)
    requires s'.(outcomes := s.outcomes) == s && s'.outcomes.Keys == s.outcomes.Keys
    requires forall x :: x in s.outcomes ==> s'.outcomes[x] == s.outcomes[x].(events := s'.outcomes[x].events)
    ensures Evaluation(s', agentId, mark, now) == Evaluation(s, agentId, mark, now)
  {
    forall a, since ensures ClaimedSince(s'.outcomes, a, since) == ClaimedSince(s.outcomes, a, since) {
    }
  }

  /** The verdict a settling call gives, and the record it leaves. */
  ghost predicate SettledAfresh(s: Stores, s': Stores, reply: Reply, agentId: AgentId, id: OutcomeId,
                                mark: Fingerprint, now: Time) {
    var reason := Evaluation(s, agentId, mark, now);
    && id in s'.outcomes && s'.outcomes.Keys == s.outcomes.Keys + {id} && IsSettled(s'.outcomes[id])
    && (forall x :: x in s.outcomes && x != id ==> s'.outcomes[x] == s.outcomes[x])
    && (id in s.outcomes ==> s'.outcomes[id] == s.outcomes[id].(events := s'.outcomes[id].events))
    && (IsAccepted(s'.outcomes[id]) <==> reason.None?) && s'.outcomes[id].events[1].reason == reason
    && reply == (if reason.Some? then Verdict(id, false, reason, None) else AcceptedVerdict(s, id, mark))
    && reply.Verdict? && reply.outcomeId == id && reply.reason == reason && reply.accepted == reason.None?
  }

  /** From a claim of this very content without a verdict: the call settles it by the present
      evaluation, whoever claimed it and whenever. */
  lemma UnsettledClaimIsEvaluatedAfresh(s: Stores, agentId: AgentId, id: OutcomeId, mark: Fingerprint, now: Time)
    requires Good(s) && id in s.outcomes && s.outcomes[id].fingerprint == mark && AgentOf(mark) == agentId
    requires !IsSettled(s.outcomes[id])
    ensures var (s', reply) := Resumed(s, agentId, id, mark, now, Whole);
            Good(s') && Kept(s, s') && SettledAfresh(s, s', reply, agentId, id, mark, now)
  {
    ReceiveIsGood(s, id, now);
    var s1 := AppendEvent(s, id, Received, now, None).stores;
    EvaluationIgnoresEvents(s, s1, agentId, mark, now);
    SettleIsGood(s1, agentId, id, mark, now);
    var (s', reply) := Settled(s1, agentId, id, mark, now);
    KeptIsTransitive(s, s1, s');
    ReceivedChangesOnlyThatOutcome(s, id, now);
    assert SettledAfresh(s, s', reply, agentId, id, mark, now) by {
      SettlingChain(s, s1, s', reply, agentId, id, mark, now);
    }
  }

  lemma SettlingChain(s: Stores, s1: Stores, s': Stores, reply: Reply, agentId: AgentId, id: OutcomeId,
                      mark: Fingerprint, now: Time)
    requires id in s.outcomes && s1.(outcomes := s.outcomes) == s && s1.outcomes.Keys == s.outcomes.Keys
    requires forall x :: x in s.outcomes && x != id ==> s1.outcomes[x] == s.outcomes[x]
    requires s1.outcomes[id] == s.outcomes[id].(events := s1.outcomes[id].events) && |s1.outcomes[id].events| == 1
    requires Evaluation(s1, agentId, mark, now) == Evaluation(s, agentId, mark, now)
    requires var reason := Evaluation(s1, agentId, mark, now);
             && id in s'.outcomes && s'.outcomes == s1.outcomes[id := s'.outcomes[id]]
             && s'.outcomes[id] == s1.outcomes[id].(events := s1.outcomes[id].events
                                                    + [OutcomeEvent(if reason.Some? then EventKind.Rejected
                                                                    else Accepted, now, reason)])
             && reply.Verdict? && reply.outcomeId == id && reply.reason == reason && reply.accepted == reason.None?
             && reply == (if reason.Some? then Verdict(id, false, reason, None) else AcceptedVerdict(s1, id, mark))
    ensures SettledAfresh(s, s', reply, agentId, id, mark, now)
  {
  }

  lemma ReceivedChangesOnlyThatOutcome(s: Stores, id: OutcomeId, now: Time)
    requires id in s.outcomes && AppendEvent(s, id, Received, now, None).Ok?
    ensures var s1 := AppendEvent(s, id, Received, now, None).stores;
            && id in s1.outcomes && s1.outcomes[id] == s.outcomes[id].(events := s1.outcomes[id].events)
            && forall x :: x in s.outcomes && x != id ==> x in s1.outcomes && s1.outcomes[x] == s.outcomes[x]
  {
  }

  /** A settled outcome answers an identical resubmission from its record, and nothing changes. */
  lemma SettledIsReplayed(s: Stores, id: OutcomeId)
    requires Good(s) && id in s.outcomes && IsSettled(s.outcomes[id])
    ensures var o := s.outcomes[id];
            && Settlement(o.events) == Some(o.events[1])
            && Replayed(s, id, o.fingerprint, o.events[1])
               == (if IsAccepted(o) then AcceptedVerdict(s, id, o.fingerprint)
                   else Verdict(id, false, o.events[1].reason, None))
            && Replayed(s, id, o.fingerprint, o.events[1]).Verdict?
  {
    var o := s.outcomes[id];
    assert GoodOutcome(s, o);
    SettlementOfGood(o.events);
    if IsAccepted(o) {
      GroundedReply(s, id, o.fingerprint);
    }
  }

  /** How far a resumed submission got. */
  lemma ResumedIsGood(s: Stores, agentId: AgentId, id: OutcomeId, mark: Fingerprint, now: Time, cut: Cut)
    requires Good(s) && id in s.outcomes && s.outcomes[id].fingerprint == mark && AgentOf(mark) == agentId
    requires !IsSettled(s.outcomes[id])
    ensures var (s', reply) := Resumed(s, agentId, id, mark, now, cut);
            Good(s') && Kept(s, s') && !IsInternal(reply) && s'.outcomes.Keys == s.outcomes.Keys
  {
    if cut == Whole {
      UnsettledClaimIsEvaluatedAfresh(s, agentId, id, mark, now);
    } else if cut == AfterReceived {
      ReceiveIsGood(s, id, now);
    }
  }

  lemma SubmitIsGood(s: Stores, c: Call)
    requires Good(s) && WellFormed(c) && c.Submit?
    ensures Good(Step(s, c).0) && Kept(s, Step(s, c).0) && !IsInternal(Step(s, c).1)
  {
    var untouched := c.id in s.outcomes && (IsSettled(s.outcomes[c.id]) || s.outcomes[c.id].fingerprint != c.mark);
    if AuthError(s, c.agentId, c.secret).Some? || AgentOf(c.mark) != c.agentId {
    } else if untouched {
      SettledIsReplayedOrRefused(s, c);
    } else {
      UnsettledSubmission(s, c);
      ClaimIsGood(s, c.id, c.mark, c.now);
      var s1 := Claimed(s, c.id, c.mark, c.now);
      ResumedIsGood(s1, c.agentId, c.id, c.mark, c.now, c.cut);
      KeptIsTransitive(s, s1, Step(s, c).0);
    }
  }

  lemma SettledIsReplayedOrRefused(s: Stores, c: Call)
    requires Good(s) && c.Submit? && AuthError(s, c.agentId, c.secret).None? && AgentOf(c.mark) == c.agentId
    requires c.id in s.outcomes && (IsSettled(s.outcomes[c.id]) || s.outcomes[c.id].fingerprint != c.mark)
    ensures Step(s, c).0 == s && !IsInternal(Step(s, c).1)
  {
    if s.outcomes[c.id].fingerprint == c.mark {
      SettledIsReplayed(s, c.id);
    }
  }

  lemma UnsettledSubmission(s: Stores, c: Call)
    requires Good(s) && c.Submit? && AuthError(s, c.agentId, c.secret).None? && AgentOf(c.mark) == c.agentId
    requires c.id in s.outcomes ==> !IsSettled(s.outcomes[c.id]) && s.outcomes[c.id].fingerprint == c.mark
    ensures var s1 := Claimed(s, c.id, c.mark, c.now);
            && Step(s, c) == Resumed(s1, c.agentId, c.id, c.mark, c.now, c.cut)
            && c.id in s1.outcomes && s1.outcomes[c.id].fingerprint == c.mark && !IsSettled(s1.outcomes[c.id])
  {
    if c.id in s.outcomes {
      assert GoodOutcome(s, s.outcomes[c.id]);
      SettlementOfGood(s.outcomes[c.id].events);
    }
  }

  lemma IssueIsGood(s: Stores, b: ContextBundle)
    requires Good(s)
    ensures Good(BundleIssued(s, b).0) && Kept(s, BundleIssued(s, b).0)
  {
    var s' := BundleIssued(s, b).0;
    if s' != s {
      assert s'.byHash == s.byHash[HashOf(b.content) := b] && s'.byId == s.byId[b.contextId := b];
      assert GoodTables(s');
      assert forall h :: h in s.byHash ==> s'.byHash[h].content == s.byHash[h].content;
      TableChangeIsGood(s, s');
    }
  }

  /** One call keeps the invariant, takes nothing back, and raises nothing internal: neither a
      conflicting event, nor an unclaimed outcome, nor a failed assertion. */
  lemma StepIsGood(s: Stores, c: Call)
    requires Good(s) && WellFormed(c)
    ensures Good(Step(s, c).0) && Kept(s, Step(s, c).0) && !IsInternal(Step(s, c).1)
  {
    match c
    case Submit(_, _, _, _, _, _) => SubmitIsGood(s, c);
    case PublishContext(_, _, _, _, _, _, _, _) => PublishIsGood(s, c);
    case IssueBundle(b) => IssueIsGood(s, b);
    case IssueAssignment(_) => AdministrationIsGood(s, c);
    case RegisterIdentity(_, _) => AdministrationIsGood(s, c);
  }

  lemma EvidenceGrows(byHash: map<ContextHash, ContextBundle>, m: map<SnapshotId, Evidence>, e: Evidence)
    requires GoodHashes(byHash, m) && GoodEvidence(m) && e.id !in m
    ensures GoodHashes(byHash, m[e.id := e]) && GoodEvidence(m[e.id := e]) && EntriesKept(m, m[e.id := e])
  {
  }

  lemma RecordingIsGood(s: Stores, e: Evidence)
    requires Good(s)
    ensures Good(EvidenceRecorded(s, e)) && Kept(s, EvidenceRecorded(s, e))
  {
    var s' := EvidenceRecorded(s, e);
    if e.id in s.evidence {
      KeptIsReflexive(s);
    } else {
      EvidenceGrows(s.byHash, s.evidence, e);
      assert s' == s.(evidence := s.evidence[e.id := e]);
      assert GoodTables(s') && TablesKept(s, s');
      TableChangeIsGood(s, s');
    }
  }

  lemma KeptIsReflexive(s: Stores)
    ensures Kept(s, s)
  {
  }

  lemma PublishIsGood(s: Stores, c: Call)
    requires Good(s) && c.PublishContext?
    ensures Good(Published(s, c).0) && Kept(s, Published(s, c).0) && !IsInternal(Published(s, c).1)
  {
    var e := Evidence(ContextSnapshot(c.symbol, c.now), c.symbol, c.now, c.observed);
    var s1 := EvidenceRecorded(s, e);
    RecordingIsGood(s, e);
    IssueIsGood(s1, PublishedBundle(c));
    KeptIsTransitive(s, s1, BundleIssued(s1, PublishedBundle(c)).0);
    assert Published(s, c).0 == s1 || Published(s, c).0 == BundleIssued(s1, PublishedBundle(c)).0;
  }

  lemma AdministrationIsGood(s: Stores, c: Call)
    requires Good(s) && WellFormed(c) && (c.IssueAssignment? || c.RegisterIdentity?)
    ensures Good(Step(s, c).0) && Kept(s, Step(s, c).0) && !IsInternal(Step(s, c).1)
  {
    TableChangeIsGood(s, Step(s, c).0);
  }

  lemma {:induction false} RunsAreGood(ss: seq<Stores>, calls: seq<Call>, k: nat)
    requires IsGatewayRun(ss, calls) && k < |ss|
    ensures Good(ss[k])
    decreases k
  {
    if k == 0 {
    } else {
      RunsAreGood(ss, calls, k - 1);
      StepIsGood(ss[k - 1], calls[k - 1]);
    }
  }

  lemma {:induction false} RunsTakeNothingBack(ss: seq<Stores>, calls: seq<Call>, i: nat, j: nat)
    requires IsGatewayRun(ss, calls) && i <= j < |ss|
    ensures Kept(ss[i], ss[j])
    decreases j
  {
    if i == j {
      KeptIsReflexive(ss[i]);
    } else {
      RunsTakeNothingBack(ss, calls, i, j - 1);
      RunsAreGood(ss, calls, j - 1);
      StepIsGood(ss[j - 1], calls[j - 1]);
      KeptIsTransitive(ss[i], ss[j - 1], ss[j]);
    }
  }

  // ---------------------------------------------------------------------------------------------
  // Replay
  // ---------------------------------------------------------------------------------------------

  /** An accepted verdict reads only what no call takes back. */
  lemma VerdictIsStable(s: Stores, s': Stores, id: OutcomeId)
    requires Good(s) && Good(s') && Kept(s, s') && id in s.outcomes && IsSettled(s.outcomes[id])
    ensures id in s'.outcomes && s'.outcomes[id] == s.outcomes[id]
    ensures Replayed(s', id, s.outcomes[id].fingerprint, s.outcomes[id].events[1])
            == Replayed(s, id, s.outcomes[id].fingerprint, s.outcomes[id].events[1])
  {
    var o, o' := s.outcomes[id], s'.outcomes[id];
    assert GoodOutcome(s, o) && GoodOutcome(s', o');
    assert o'.events == o.events;
  }

  /** The record a verdict leaves. */
  lemma VerdictIsRecorded(s: Stores, c: Call)
    requires Good(s) && WellFormed(c) && c.Submit? && Step(s, c).1.Verdict?
    ensures var (s', reply) := Step(s, c);
            && c.id in s'.outcomes && s'.outcomes[c.id].fingerprint == c.mark && IsSettled(s'.outcomes[c.id])
            && reply == Replayed(s', c.id, c.mark, s'.outcomes[c.id].events[1])
  {
    if c.id in s.outcomes && IsSettled(s.outcomes[c.id]) {
      SettledIsReplayed(s, c.id);
    } else {
      UnsettledSubmission(s, c);
      FreshVerdictIsRecorded(s, c);
    }
  }

  /** What a recorded verdict says when it is given again. */
  lemma VerdictOfRecord(s: Stores, id: OutcomeId)
    requires Good(s) && id in s.outcomes && IsSettled(s.outcomes[id])
    ensures var o := s.outcomes[id];
            var reply := Replayed(s, id, o.fingerprint, o.events[1]);
            reply.Verdict? && (reply.accepted <==> IsAccepted(o)) && reply.reason == o.events[1].reason
  {
    var o := s.outcomes[id];
    assert GoodOutcome(s, o);
    if IsAccepted(o) {
      GroundedReply(s, id, o.fingerprint);
    }
  }

  lemma FreshVerdictIsRecorded(s: Stores, c: Call)
    requires Good(s) && WellFormed(c) && c.Submit? && AgentOf(c.mark) == c.agentId
    requires c.id in s.outcomes ==> !IsSettled(s.outcomes[c.id]) && s.outcomes[c.id].fingerprint == c.mark
    requires Step(s, c) == Resumed(Claimed(s, c.id, c.mark, c.now), c.agentId, c.id, c.mark, c.now, c.cut)
    requires Step(s, c).1.Verdict?
    ensures var (s', reply) := Step(s, c);
            && c.cut == Whole && c.id in s'.outcomes && s'.outcomes[c.id].fingerprint == c.mark
               && IsSettled(s'.outcomes[c.id])
            && reply == Replayed(s', c.id, c.mark, s'.outcomes[c.id].events[1])
  {
    var s1 := Claimed(s, c.id, c.mark, c.now);
    ClaimIsGood(s, c.id, c.mark, c.now);
    WholeUnlessInterrupted(s1, c.agentId, c.id, c.mark, c.now, c.cut);
    UnsettledClaimIsEvaluatedAfresh(s1, c.agentId, c.id, c.mark, c.now);
    var s' := Step(s, c).0;
    SettledIsReplayed(s', c.id);
    if IsAccepted(s'.outcomes[c.id]) {
      AcceptanceIsGrounded(s1, c.agentId, c.mark, c.now);
      KeptTablesSameVerdict(s1, s', c.id, c.mark);
    }
  }

  lemma WholeUnlessInterrupted(s: Stores, agentId: AgentId, id: OutcomeId, mark: Fingerprint, now: Time, cut: Cut)
    requires Resumed(s, agentId, id, mark, now, cut).1.Verdict?
    ensures cut == Whole
  {
  }

  lemma KeptTablesSameVerdict(s: Stores, s': Stores, id: OutcomeId, mark: Fingerprint)
    requires TablesKept(s, s') && Grounded(s, mark)
    ensures AcceptedVerdict(s', id, mark) == AcceptedVerdict(s, id, mark)
  {
  }

  /** The answer to a repetition of `c` in state `t`. */
  function AnswerAgain(s: Stores, c: Call, t: Stores, again: Call): (Stores, Reply)
    requires again.Submit?
  {
    var auth := AuthError(t, again.agentId, again.secret);
    (t, if auth.Some? then Raised(auth.value)
        else if again.agentId != AgentOf(again.mark) then Raised(Impersonation)
        else Step(s, c).1)
  }

  /** `t` is any state after the one, `s'`, that the answered call left. */
  lemma ReplayedLater(s: Stores, c: Call, s': Stores, t: Stores, again: Call)
    requires Good(s) && WellFormed(c) && c.Submit? && s' == Step(s, c).0 && Step(s, c).1.Verdict?
    requires Good(s') && Good(t) && Kept(s', t)
    requires again.Submit? && again.id == c.id && again.mark == c.mark
    ensures Step(t, again) == AnswerAgain(s, c, t, again)
  {
    if AuthError(t, again.agentId, again.secret).None? && again.agentId == AgentOf(again.mark) {
      VerdictIsRecorded(s, c);
      VerdictIsStable(s', t, c.id);
      SettledIsReplayed(t, c.id);
    }
  }

  /** Once a submission was answered with a verdict, the identical submission gets, after any further
      calls by anyone and at any time, exactly the same verdict, reason and intent, unless the caller
      fails authentication; and it changes nothing. */
  lemma VerdictsAreReplayedForEver(ss: seq<Stores>, calls: seq<Call>, i: nat, j: nat, again: Call)
    requires IsGatewayRun(ss, calls) && i < j < |ss| && calls[i].Submit? && Step(ss[i], calls[i]).1.Verdict?
    requires again.Submit? && again.id == calls[i].id && again.mark == calls[i].mark
    ensures Step(ss[j], again) == AnswerAgain(ss[i], calls[i], ss[j], again)
  {
    hide Step, Good, Kept;
    RunsAreGood(ss, calls, i);
    RunsAreGood(ss, calls, i + 1);
    RunsAreGood(ss, calls, j);
    RunsTakeNothingBack(ss, calls, i + 1, j);
    ReplayedLater(ss[i], calls[i], ss[i + 1], ss[j], again);
  }

  /** In every reachable state the events of an outcome are empty, RECEIVED, or RECEIVED and exactly one
      verdict, and no call a run may make next raises anything internal. */
  lemma OutcomesAreWellOrdered(ss: seq<Stores>, calls: seq<Call>, k: nat, next: Call)
    requires IsGatewayRun(ss, calls) && k < |ss| && WellFormed(next)
    ensures forall id :: id in ss[k].outcomes ==> GoodEvents(ss[k].outcomes[id].events)
    ensures !IsInternal(Step(ss[k], next).1)
  {
    RunsAreGood(ss, calls, k);
    StepIsGood(ss[k], next);
    forall id | id in ss[k].outcomes ensures GoodEvents(ss[k].outcomes[id].events) {
      assert GoodOutcome(ss[k], ss[k].outcomes[id]);
    }
  }

  // ---------------------------------------------------------------------------------------------
  // What a first submission is accepted for
  // ---------------------------------------------------------------------------------------------

  /** The assignment is the agent's and valid, the artifact is the assigned one, fewer proposals than the
      limit were claimed in the last hour, the risk is in band, reasons and demanded evidence are given,
      and neither the proposal nor the context issued for this assignment has expired. */
  predicate Admissible(s: Stores, p: ProposalContent, now: Time) {
    && p.assignmentId in s.assignments && p.contextHash in s.byHash
    && var a, b := s.assignments[p.assignmentId], s.byHash[p.contextHash].content;
       && a.allowedAgentId == p.agentId && a.validFrom <= now <= a.validUntil
       && a.strategyArtifactHash == p.strategyArtifactHash
       && |ClaimedSince(s.outcomes, p.assignmentId, now - HOUR)| < a.maxProposalsPerHour
       && a.riskMin <= p.riskFraction <= a.riskMax
       && p.reasonCodes != [] && (a.evidenceRequired ==> p.evidenceRefs != [])
       && now < p.expiresAt && b.assignmentId == p.assignmentId && now < b.expiresAt
  }

  /** The intent is the proposal, under the assignment's symbol and artifact and the bundle's snapshot. */
  predicate IsIntentFor(i: TradeIntent, id: OutcomeId, p: ProposalContent, a: TradingAssignment, b: BundleContent) {
    && i.intentId == id && i.strategyId == "external_agent" && i.symbol == a.symbol
    && i.strategyVersion == a.strategyArtifactHash == p.strategyArtifactHash
    && i.snapshot == b.snapshot && i.side == p.side && i.entryType == p.entryType
    && (i.referencePrice, i.stopLoss, i.takeProfit) == (p.referencePrice, p.stopLoss, p.takeProfit)
    && (i.riskFraction, i.confidence, i.reasonCodes) == (p.riskFraction, p.confidence, p.reasonCodes)
    && (i.createdAt, i.expiresAt) == (p.submittedAt, p.expiresAt)
  }

  /** Only a registered, active agent with its current secret, speaking for itself, changes anything or
      gets a verdict. */
  lemma OnlyTheAuthenticatedAgentIsHeard(s: Stores, c: Call)
    requires c.Submit? && (Step(s, c).0 != s || Step(s, c).1.Verdict? || Step(s, c).1.Interrupted?)
    ensures c.agentId in s.identities && s.identities[c.agentId].status == Active
    ensures c.agentId in s.credentials && s.credentials[c.agentId] == c.secret && AgentOf(c.mark) == c.agentId
  {
    hide Resumed, Replayed;
  }

  /** The count the check sees includes the submission itself. */
  lemma ClaimCountsItself(s: Stores, id: OutcomeId, mark: Fingerprint, now: Time)
    requires id !in s.outcomes
    ensures |ClaimedSince(Claimed(s, id, mark, now).outcomes, AssignmentOf(mark), now - HOUR)|
            == |ClaimedSince(s.outcomes, AssignmentOf(mark), now - HOUR)| + 1
  {
    var before := ClaimedSince(s.outcomes, AssignmentOf(mark), now - HOUR);
    var after := ClaimedSince(Claimed(s, id, mark, now).outcomes, AssignmentOf(mark), now - HOUR);
    assert after == before + {id};
  }

  lemma EvaluationAdmits(s: Stores, id: OutcomeId, p: ProposalContent, now: Time)
    requires Good(s) && id !in s.outcomes
    ensures Evaluation(Claimed(s, id, ProposalPrint(p), now), p.agentId, ProposalPrint(p), now).None?
            <==> Admissible(s, p, now)
  {
    ClaimCountsItself(s, id, ProposalPrint(p), now);
  }

  /** A proposal submitted whole for the first time by its authenticated agent is accepted exactly when it
      is admissible, and then answered with its own intent. */
  lemma FirstSubmissionIsAcceptedExactlyWhen(s: Stores, c: Call)
    requires Good(s) && WellFormed(c) && c.Submit? && c.cut == Whole && c.mark.ProposalPrint? && c.id !in s.outcomes
    requires AuthError(s, c.agentId, c.secret).None? && AgentOf(c.mark) == c.agentId
    ensures var reply, p := Step(s, c).1, c.mark.proposal;
            && reply.Verdict? && reply.outcomeId == c.id && (reply.accepted <==> Admissible(s, p, c.now))
            && (reply.accepted ==>
                  && reply.intent.Some? && p.assignmentId in s.assignments && p.contextHash in s.byHash
                  && IsIntentFor(reply.intent.value, c.id, p, s.assignments[p.assignmentId],
                                 s.byHash[p.contextHash].content))
            && (!reply.accepted ==> reply.reason.Some? && reply.intent.None?)
  {
    hide Step, Resumed;
    var p := c.mark.proposal;
    var s1 := Claimed(s, c.id, c.mark, c.now);
    UnsettledSubmission(s, c);
    ClaimIsGood(s, c.id, c.mark, c.now);
    UnsettledClaimIsEvaluatedAfresh(s1, c.agentId, c.id, c.mark, c.now);
    EvaluationAdmits(s, c.id, p, c.now);
  }

  // ---------------------------------------------------------------------------------------------
  // Evidence
  // ---------------------------------------------------------------------------------------------

  lemma IssuedEvidenceIsThere(s: Stores, c: Call)
    requires Step(s, c).1.Issued?
    ensures c.IssueBundle? || c.PublishContext?
    ensures Step(s, c).1.bundle.content.snapshot in Step(s, c).0.evidence
    ensures c.IssueBundle? ==> Step(s, c).1.bundle.content.snapshot in s.evidence
  {
    if c.Submit? {
      SubmitIssuesNothing(s, c);
    }
  }

  lemma SubmitIssuesNothing(s: Stores, c: Call)
    requires c.Submit?
    ensures !Step(s, c).1.Issued?
  {
  }

  predicate SameTables(s: Stores, s': Stores) {
    s'.(outcomes := s.outcomes) == s
  }

  lemma SettledKeepsTables(s: Stores, agentId: AgentId, id: OutcomeId, mark: Fingerprint, now: Time)
    ensures SameTables(s, Settled(s, agentId, id, mark, now).0)
  {
    hide Evaluation, AcceptedVerdict;
  }

  lemma ResumedKeepsTables(s: Stores, agentId: AgentId, id: OutcomeId, mark: Fingerprint, now: Time, cut: Cut)
    ensures SameTables(s, Resumed(s, agentId, id, mark, now, cut).0)
  {
    var r := AppendEvent(s, id, Received, now, None);
    if r.Ok? {
      SettledKeepsTables(r.stores, agentId, id, mark, now);
    }
  }

  lemma SubmitKeepsTables(s: Stores, c: Call)
    requires c.Submit?
    ensures SameTables(s, Step(s, c).0)
  {
    ResumedKeepsTables(Claimed(s, c.id, c.mark, c.now), c.agentId, c.id, c.mark, c.now, c.cut);
  }

  /** What an intent returned by a call relies on was there before the call. */
  lemma IntentEvidenceWasThere(s: Stores, c: Call)
    requires Good(s) && WellFormed(c) && Good(Step(s, c).0) && c.Submit?
    requires Step(s, c).1.Verdict? && Step(s, c).1.intent.Some?
    ensures ValidIntent(Step(s, c).1.intent.value) && Step(s, c).1.intent.value.snapshot in s.evidence
  {
    VerdictIsRecorded(s, c);
    var (s', reply) := Step(s, c);
    var o := s'.outcomes[c.id];
    assert GoodOutcome(s', o);
    if IsAccepted(o) {
      GroundedReply(s', c.id, o.fingerprint);
    }
    SubmitKeepsTables(s, c);
  }

  /** What a reply refers to: evidence in the state the call left (before it, for an intent or a bundle
      issued by hand), the same in the later state `t`; and the intent passes the intent's validators. */
  ghost predicate ReplyIsSupported(s: Stores, c: Call, s': Stores, t: Stores) {
    var reply := Step(s, c).1;
    && (reply.Issued? ==>
          var id := reply.bundle.content.snapshot;
          && id in s'.evidence && id in t.evidence && t.evidence[id] == s'.evidence[id]
          && (c.IssueBundle? ==> id in s.evidence))
    && (reply.Verdict? && reply.intent.Some? ==>
          var id := reply.intent.value.snapshot;
          && ValidIntent(reply.intent.value)
          && id in s.evidence && id in t.evidence && t.evidence[id] == s.evidence[id])
  }

  lemma RepliesAreSupported(s: Stores, c: Call, s': Stores, t: Stores)
    requires Good(s) && Good(s') && WellFormed(c) && s' == Step(s, c).0 && Kept(s, t) && Kept(s', t)
    ensures ReplyIsSupported(s, c, s', t)
  {
    var reply := Step(s, c).1;
    if reply.Verdict? && reply.intent.Some? {
      OnlySubmitAnswersWithVerdicts(s, c);
      IntentEvidenceWasThere(s, c);
    } else if reply.Issued? {
      IssuedEvidenceIsThere(s, c);
    }
  }

  lemma OnlySubmitAnswersWithVerdicts(s: Stores, c: Call)
    requires Step(s, c).1.Verdict?
    ensures c.Submit?
  {
  }

  /** Every bundle a call hands out names evidence already recorded when it was issued, and every intent
      a call returns names evidence recorded before its bundle; both resolve to the same evidence in
      every later state. */
  lemma EvidenceComesFirstAndStays(ss: seq<Stores>, calls: seq<Call>, i: nat, j: nat)
    requires IsGatewayRun(ss, calls) && i < j < |ss|
    ensures ReplyIsSupported(ss[i], calls[i], ss[i + 1], ss[j])
  {
    hide Step, Good, Kept;
    RunsAreGood(ss, calls, i);
    RunsAreGood(ss, calls, i + 1);
    RunsTakeNothingBack(ss, calls, i, j);
    RunsTakeNothingBack(ss, calls, i + 1, j);
    RepliesAreSupported(ss[i], calls[i], ss[i + 1], ss[j]);
  }

  /** A published bundle's evidence describes what the bundle says was observed exactly when that symbol
      and instant were never recorded with another observation. */
  lemma EvidenceDescribesTheBundleExactlyWhen(s: Stores, c: Call)
    requires Good(s) && c.PublishContext? && Step(s, c).1.Issued?
    ensures var (s', reply) := Step(s, c);
            var id := reply.bundle.content.snapshot;
            && id in s'.evidence
            && (s'.evidence[id].observed == reply.bundle.content.observed
                <==> (id in s.evidence ==> s.evidence[id].observed == c.observed))
  {
    var s1 := EvidenceRecorded(s, Evidence(ContextSnapshot(c.symbol, c.now), c.symbol, c.now, c.observed));
    assert Step(s, c) == BundleIssued(s1, PublishedBundle(c));
  }

  /** Two observations of one symbol at one instant: the second bundle points at the first's evidence. */
  lemma SecondObservationIsNotRecorded(first: Call, second: Call)
    requires first.PublishContext? && second.PublishContext? && first.validity > 0 && second.validity > 0
    requires first.symbol == second.symbol && first.now == second.now && first.contextId != second.contextId
    requires first.observed != second.observed
    ensures var s1 := Step(EMPTY_STORES, first).0;
            var (s2, reply) := Step(s1, second);
            && reply.Issued? && reply.bundle.content.snapshot in s2.evidence
            && s2.evidence[reply.bundle.content.snapshot].observed == first.observed != reply.bundle.content.observed
  {
  }
}
