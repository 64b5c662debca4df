/**
 Why a submission is accepted, rejected or refused: every answer of the gateway as a fact about its stores,
 for trade proposals and no-trade decisions alike.
 */
module GatewayReasons {
  import opened ExecutionEvents
  import opened AgentContracts
  import opened GatewayMachine
  import opened GatewayGuarantees

  /** How early a reason is looked for. */
  function Rank(r: Reason): nat {
    match r
    case UnknownAssignment => 0
    case AssignmentNotOwned => 1
    case AssignmentNotValidAtTime => 2
    case StrategyArtifactMismatch => 3
    case RateLimitExceeded => 4
    case RiskFractionOutOfBand => 5
    case MissingReasonCodes => 6
    case MissingRequiredEvidence => 7
    case ProposalExpired => 8
    case UnknownContext => 9
    case ContextAssignmentMismatch => 10
    case ContextExpired => 11
  }

  /** The outcomes of an assignment claimed within the hour before `now`, or later. */
  function ClaimsInTheHour(s: Stores, a: AssignmentId, now: Time): set<OutcomeId> {
    set id | id in s.outcomes && s.outcomes[id].assignmentId == a && now - 3600 <= s.outcomes[id].claimedAt
  }

  /** The fact that each reason denies; `own` is one when the submission's own claim is still to be made.  A
      no-trade decision is only held to its assignment and its context. */
  ghost predicate Holds(s: Stores, f: Fingerprint, now: Time, own: nat, r: Reason) {
    if AssignmentOf(f) !in s.assignments then r != UnknownAssignment
    else
      var a := s.assignments[AssignmentOf(f)];
      match r
      case UnknownAssignment => true
      case AssignmentNotOwned => a.allowedAgentId == AgentOf(f)
      case AssignmentNotValidAtTime => a.validFrom <= now && now <= a.validUntil
      case StrategyArtifactMismatch => f.ProposalPrint? ==> f.proposal.strategyArtifactHash == a.strategyArtifactHash
      case RateLimitExceeded =>
        f.ProposalPrint? ==> |ClaimsInTheHour(s, AssignmentOf(f), now)| + own <= a.maxProposalsPerHour
      case RiskFractionOutOfBand =>
        f.ProposalPrint? ==> a.riskMin <= f.proposal.riskFraction && f.proposal.riskFraction <= a.riskMax
      case MissingReasonCodes => f.ProposalPrint? ==> |f.proposal.reasonCodes| > 0
      case MissingRequiredEvidence => f.ProposalPrint? && a.evidenceRequired ==> |f.proposal.evidenceRefs| > 0
      case ProposalExpired => f.ProposalPrint? ==> now < f.proposal.expiresAt
      case UnknownContext => ContextOf(f) in s.byHash
      case ContextAssignmentMismatch =>
        ContextOf(f) in s.byHash ==> s.byHash[ContextOf(f)].content.assignmentId == AssignmentOf(f)
      case ContextExpired => ContextOf(f) in s.byHash ==> now < s.byHash[ContextOf(f)].content.expiresAt
  }

  /** `r` is the first fact denied. */
  ghost predicate FirstFailure(s: Stores, f: Fingerprint, now: Time, own: nat, r: Reason) {
    !Holds(s, f, now, own, r) && forall q :: Rank(q) < Rank(r) ==> Holds(s, f, now, own, q)
  }

  ghost predicate AllHold(s: Stores, f: Fingerprint, now: Time, own: nat) {
    forall r :: Holds(s, f, now, own, r)
  }

  lemma OnlyOneFirst(s: Stores, f: Fingerprint, now: Time, own: nat, r: Reason, q: Reason)
    requires FirstFailure(s, f, now, own, r) && FirstFailure(s, f, now, own, q)
    ensures r == q
  {
    hide Holds;
    assert Rank(r) == Rank(q);
  }

  lemma EvaluationFails(s: Stores, f: Fingerprint, now: Time)
    requires Good(s)
    ensures var reason := Evaluation(s, AgentOf(f), f, now);
            if reason.Some? then FirstFailure(s, f, now, 0, reason.value) else AllHold(s, f, now, 0)
  {
    assert ClaimsInTheHour(s, AssignmentOf(f), now) == ClaimedSince(s.outcomes, AssignmentOf(f), now - HOUR);
  }

  /** The evaluation names exactly the first fact denied. */
  lemma EvaluationNamesTheFirstFailure(s: Stores, f: Fingerprint, now: Time, r: Reason)
    requires Good(s)
    ensures Evaluation(s, AgentOf(f), f, now).None? <==> AllHold(s, f, now, 0)
    ensures Evaluation(s, AgentOf(f), f, now) == Some(r) <==> FirstFailure(s, f, now, 0, r)
  {
    hide Holds, Evaluation;
    EvaluationFails(s, f, now);
    var reason := Evaluation(s, AgentOf(f), f, now);
    if reason.Some? {
      assert !Holds(s, f, now, 0, reason.value);
      if FirstFailure(s, f, now, 0, r) {
        OnlyOneFirst(s, f, now, 0, r, reason.value);
      }
    }
  }

  /** The claim a submission makes adds one to the count and changes no other fact. */
  lemma ClaimingAddsOne(s: Stores, id: OutcomeId, f: Fingerprint, now: Time)
    requires id !in s.outcomes
    ensures forall r :: Holds(Claimed(s, id, f, now), f, now, 0, r) <==> Holds(s, f, now, 1, r)
  {
    var before := ClaimsInTheHour(s, AssignmentOf(f), now);
    var after := ClaimsInTheHour(Claimed(s, id, f, now), AssignmentOf(f), now);
    assert after == before + {id} && id !in before;
  }

  /** What a call answers when its submission is judged over these facts. */
  ghost predicate JudgedBy(s: Stores, c: Call, own: nat, reply: Reply)
    requires c.Submit?
  {
    && reply.Verdict? && reply.outcomeId == c.id
    && (reply.accepted <==> AllHold(s, c.mark, c.now, own))
    && (forall r :: reply.reason == Some(r) <==> FirstFailure(s, c.mark, c.now, own, r))
    && (reply.accepted <==> reply.reason.None?)
    && (reply.intent.Some? <==> reply.accepted && c.mark.ProposalPrint?)
  }

  /** A whole submission of either kind, made for the first time by its authenticated agent, is accepted
      exactly when every fact holds, its own claim counted; otherwise it is rejected with exactly the first
      fact denied. */
  lemma FirstSubmissionIsJudged(s: Stores, c: Call)
    requires Good(s) && WellFormed(c) && c.Submit? && c.cut == Whole && c.id !in s.outcomes
    requires AuthError(s, c.agentId, c.secret).None? && AgentOf(c.mark) == c.agentId
    ensures JudgedBy(s, c, 1, Step(s, c).1)
  {
    hide Step, Resumed, Evaluation, Holds;
    var s1 := Claimed(s, c.id, c.mark, c.now);
    UnsettledSubmission(s, c);
    ClaimIsGood(s, c.id, c.mark, c.now);
    UnsettledClaimIsEvaluatedAfresh(s1, c.agentId, c.id, c.mark, c.now);
    ClaimingAddsOne(s, c.id, c.mark, c.now);
    VerdictFromEvaluation(s1, c, Step(s, c).1);
    SameFactsSameVerdict(s1, s, c, Step(s, c).1);
  }

  /** A claim of this content left without a verdict is judged by the facts at the time it is taken up. */
  lemma ResumedSubmissionIsJudged(s: Stores, c: Call)
    requires Good(s) && WellFormed(c) && c.Submit? && c.cut == Whole
    requires c.id in s.outcomes && s.outcomes[c.id].fingerprint == c.mark && !IsSettled(s.outcomes[c.id])
    requires AuthError(s, c.agentId, c.secret).None? && AgentOf(c.mark) == c.agentId
    ensures JudgedBy(s, c, 0, Step(s, c).1)
  {
    hide Step, Resumed, Evaluation, Holds;
    UnsettledSubmission(s, c);
    UnsettledClaimIsEvaluatedAfresh(s, c.agentId, c.id, c.mark, c.now);
    VerdictFromEvaluation(s, c, Step(s, c).1);
  }

  lemma VerdictFromEvaluation(s: Stores, c: Call, reply: Reply)
    requires Good(s) && WellFormed(c) && c.Submit? && AgentOf(c.mark) == c.agentId
    requires var reason := Evaluation(s, c.agentId, c.mark, c.now);
             && reply.Verdict? && reply.outcomeId == c.id && reply.reason == reason && reply.accepted == reason.None?
             && reply == (if reason.Some? then Verdict(c.id, false, reason, None) else AcceptedVerdict(s, c.id, c.mark))
    ensures JudgedBy(s, c, 0, reply)
  {
    hide Holds;
    forall r ensures reply.reason == Some(r) <==> FirstFailure(s, c.mark, c.now, 0, r) {
      EvaluationNamesTheFirstFailure(s, c.mark, c.now, r);
    }
    EvaluationNamesTheFirstFailure(s, c.mark, c.now, UnknownAssignment);
    if reply.accepted {
      AcceptanceIsGrounded(s, c.agentId, c.mark, c.now);
      GroundedReply(s, c.id, c.mark);
    }
  }

  lemma SameFactsSameVerdict(s1: Stores, s: Stores, c: Call, reply: Reply)
    requires c.Submit? && JudgedBy(s1, c, 0, reply)
    requires forall r :: Holds(s1, c.mark, c.now, 0, r) <==> Holds(s, c.mark, c.now, 1, r)
    ensures JudgedBy(s, c, 1, reply)
  {
    hide Holds;
  }

  /** Each refusal before any claim, exactly: an unknown agent, a wrong or missing secret, an agent not active,
      a submission in another's name, and an id that stands for other content.  None changes anything. */
  lemma RefusedExactlyWhen(s: Stores, c: Call)
    requires Good(s) && WellFormed(c) && c.Submit?
    ensures var (s', reply) := Step(s, c);
            var known := c.agentId in s.identities;
            var proven := known && c.agentId in s.credentials && s.credentials[c.agentId] == c.secret;
            var active := proven && s.identities[c.agentId].status == Active;
            var own := active && AgentOf(c.mark) == c.agentId;
            && (reply == Raised(UnknownAgent) <==> !known)
            && (reply == Raised(BadCredential) <==> known && !proven)
            && (reply == Raised(AgentNotActive) <==> proven && !active)
            && (reply == Raised(Impersonation) <==> active && !own)
            && (reply == Raised(DecisionConflict) <==>
                  own && c.id in s.outcomes && s.outcomes[c.id].fingerprint != c.mark)
            && (reply.Raised? ==> s' == s)
  {
    hide Resumed, Replayed;
    if AuthError(s, c.agentId, c.secret).None? && AgentOf(c.mark) == c.agentId {
      if c.id in s.outcomes && (IsSettled(s.outcomes[c.id]) || s.outcomes[c.id].fingerprint != c.mark) {
        SettledIsReplayedOrRefused(s, c);
        if s.outcomes[c.id].fingerprint == c.mark {
          SettledIsReplayed(s, c.id);
        }
      } else {
        UnsettledSubmission(s, c);
        ResumedNeverRaises(s, c);
      }
    }
  }

  lemma ResumedNeverRaises(s: Stores, c: Call)
    requires Good(s) && WellFormed(c) && c.Submit? && AgentOf(c.mark) == c.agentId
    requires c.id in s.outcomes ==> !IsSettled(s.outcomes[c.id]) && s.outcomes[c.id].fingerprint == c.mark
    ensures !Resumed(Claimed(s, c.id, c.mark, c.now), c.agentId, c.id, c.mark, c.now, c.cut).1.Raised?
  {
    var s1 := Claimed(s, c.id, c.mark, c.now);
    ClaimIsGood(s, c.id, c.mark, c.now);
    if c.cut == Whole {
      UnsettledClaimIsEvaluatedAfresh(s1, c.agentId, c.id, c.mark, c.now);
    } else if c.cut == AfterReceived {
      ReceiveIsGood(s1, c.id, c.now);
    }
  }
}
