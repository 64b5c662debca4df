/**
 The hourly proposal limit.  The gateway counts, at the moment of evaluation, every outcome of the
 assignment claimed in the last hour (accepted or not, and also those claimed "later" by clocks that run
 ahead).  That bounds accepted proposals in every one-hour window, in whatever order the clock readings
 arrive, exactly when no acceptance takes up an earlier call's claim in an hour that is full by then.
 */
module GatewayRateLimit {
  import opened ExecutionEvents
  import opened AgentContracts
  import opened GatewayMachine
  import opened GatewayGuarantees

  /** The accepted proposals of an assignment whose claims fall in the closed hour from `start`. */
  function AcceptedIn(outcomes: map<OutcomeId, StoredOutcome>, a: AssignmentId, start: Time): set<OutcomeId> {
    set id | id in outcomes && outcomes[id].assignmentId == a && outcomes[id].fingerprint.ProposalPrint?
             && IsAccepted(outcomes[id]) && start <= outcomes[id].claimedAt <= start + HOUR
  }

  ghost predicate Within(outcomes: map<OutcomeId, StoredOutcome>, assignments: map<AssignmentId, TradingAssignment>) {
    forall a, start :: a in assignments ==> |AcceptedIn(outcomes, a, start)| <= assignments[a].maxProposalsPerHour
  }

  ghost predicate WithinLimit(s: Stores) {
    Within(s.outcomes, s.assignments)
  }

  /** The call gives a proposal its ACCEPTED. */
  predicate Accepts(s: Stores, c: Call) {
    && c.Submit? && c.mark.ProposalPrint? && (c.id in s.outcomes ==> !IsSettled(s.outcomes[c.id]))
    && c.id in Step(s, c).0.outcomes && IsAccepted(Step(s, c).0.outcomes[c.id])
  }

  /** The claim a submission works on: the stored one, or the one it makes. */
  function ClaimOf(s: Stores, c: Call): StoredOutcome
    requires c.Submit?
  {
    if c.id in s.outcomes then s.outcomes[c.id]
      else StoredOutcome(AgentOf(c.mark), AssignmentOf(c.mark), c.mark, c.now, [])
  }

  /** No closed hour around the claim is full. */
  ghost predicate RoomAround(s: Stores, o: StoredOutcome) {
    && o.assignmentId in s.assignments
    && forall start :: start <= o.claimedAt <= start + HOUR ==>
         |AcceptedIn(s.outcomes, o.assignmentId, start)| < s.assignments[o.assignmentId].maxProposalsPerHour
  }

  lemma SubsetIsNoLarger<T>(a: set<T>, b: set<T>)
    requires a <= b
    ensures |a| <= |b|
    ensures a != b ==> |a| < |b|
  {
    assert b == a + (b - a);
  }

  // ---------------------------------------------------------------------------------------------
  // What one submission changes
  // ---------------------------------------------------------------------------------------------

  /** A submission that gets as far as its claim. */
  predicate Proceeds(s: Stores, c: Call) {
    && c.Submit? && AuthError(s, c.agentId, c.secret).None? && AgentOf(c.mark) == c.agentId
    && (c.id in s.outcomes ==> !IsSettled(s.outcomes[c.id]) && s.outcomes[c.id].fingerprint == c.mark)
  }

  ghost predicate ChangesItsOutcome(s: Stores, s': Stores, c: Call)
    requires c.Submit?
  {
    && c.id in s'.outcomes && s'.outcomes == s.outcomes[c.id := s'.outcomes[c.id]] && s'.assignments == s.assignments
    && s'.outcomes[c.id] == ClaimOf(s, c).(events := s'.outcomes[c.id].events)
  }

  lemma OtherwiseNothingChanges(s: Stores, c: Call)
    requires Good(s) && WellFormed(c) && c.Submit? && !Proceeds(s, c)
    ensures Step(s, c).0 == s && !Accepts(s, c)
  {
    if AuthError(s, c.agentId, c.secret).None? && AgentOf(c.mark) == c.agentId {
      SettledIsReplayedOrRefused(s, c);
    }
  }

  lemma ChangedAfterClaim(s: Stores, s': Stores, c: Call)
    requires c.Submit? && c.id in s'.outcomes && s'.assignments == s.assignments
    requires var s1 := Claimed(s, c.id, c.mark, c.now);
             && s'.outcomes.Keys == s1.outcomes.Keys
                && s'.outcomes[c.id] == s1.outcomes[c.id].(events := s'.outcomes[c.id].events)
             && forall x :: x in s1.outcomes && x != c.id ==> s'.outcomes[x] == s1.outcomes[x]
    ensures ChangesItsOutcome(s, s', c)
  {
    assert s'.outcomes == s.outcomes[c.id := s'.outcomes[c.id]];
  }

  lemma CutSubmission(s: Stores, c: Call)
    requires Good(s) && WellFormed(c) && Proceeds(s, c) && c.cut != Whole
    ensures ChangesItsOutcome(s, Step(s, c).0, c) && !IsSettled(Step(s, c).0.outcomes[c.id])
  {
    hide Step, Good;
    UnsettledSubmission(s, c);
    ClaimIsGood(s, c.id, c.mark, c.now);
    var s1 := Claimed(s, c.id, c.mark, c.now);
    if c.cut == AfterReceived {
      ReceiveIsGood(s1, c.id, c.now);
      ReceivedChangesOnlyThatOutcome(s1, c.id, c.now);
      hide AppendEvent;
      ChangedAfterClaim(s, Step(s, c).0, c);
    } else {
      ChangedAfterClaim(s, s1, c);
    }
  }

  lemma WholeSubmission(s: Stores, c: Call)
    requires Good(s) && WellFormed(c) && Proceeds(s, c) && c.cut == Whole
    ensures ChangesItsOutcome(s, Step(s, c).0, c)
    ensures IsAccepted(Step(s, c).0.outcomes[c.id])
            <==> Evaluation(Claimed(s, c.id, c.mark, c.now), c.agentId, c.mark, c.now).None?
  {
    hide Resumed, Step, Good, Evaluation, AcceptedVerdict, Kept;
    UnsettledSubmission(s, c);
    ClaimIsGood(s, c.id, c.mark, c.now);
    var s1 := Claimed(s, c.id, c.mark, c.now);
    UnsettledClaimIsEvaluatedAfresh(s1, c.agentId, c.id, c.mark, c.now);
    ResumedKeepsTables(s1, c.agentId, c.id, c.mark, c.now, Whole);
    ChangedAfterClaim(s, Step(s, c).0, c);
  }

  lemma PassedTheCount(s: Stores, agentId: AgentId, p: ProposalContent, now: Time)
    requires ProposalReason(s, agentId, p, now).None? && GoodAssignments(s.assignments)
    ensures p.assignmentId in s.assignments
    ensures |ClaimedSince(s.outcomes, p.assignmentId, now - HOUR)| <= s.assignments[p.assignmentId].maxProposalsPerHour
  {
  }

  lemma SameClaimsCount(a: map<OutcomeId, StoredOutcome>, b: map<OutcomeId, StoredOutcome>, id: AssignmentId,
                        since: Time)
    requires a.Keys == b.Keys && forall x :: x in a ==> b[x] == a[x].(events := b[x].events)
    ensures ClaimedSince(a, id, since) == ClaimedSince(b, id, since)
  {
  }

  /** An acceptance has been counted: with its own claim among them, no more claims than the limit. */
  lemma AcceptancesAreCounted(s: Stores, c: Call)
    requires Good(s) && WellFormed(c) && Accepts(s, c)
    ensures Proceeds(s, c) && ChangesItsOutcome(s, Step(s, c).0, c)
    ensures ClaimOf(s, c).assignmentId in s.assignments && ClaimOf(s, c).fingerprint.ProposalPrint?
    ensures |ClaimedSince(s.outcomes[c.id := ClaimOf(s, c)], ClaimOf(s, c).assignmentId, c.now - HOUR)|
            <= s.assignments[ClaimOf(s, c).assignmentId].maxProposalsPerHour
  {
    hide Step, Accepts;
    AcceptsProceeds(s, c);
    if c.cut == Whole {
      WholeSubmission(s, c);
      var s1 := Claimed(s, c.id, c.mark, c.now);
      PassedTheCount(s1, c.agentId, c.mark.proposal, c.now);
      if c.id in s.outcomes {
        assert GoodOutcome(s, s.outcomes[c.id]);
        assert s.outcomes[c.id := s.outcomes[c.id]] == s.outcomes;
      }
      assert s1.outcomes == s.outcomes[c.id := ClaimOf(s, c)];
    } else {
      CutSubmission(s, c);
      assert false;
    }
  }

  lemma AcceptsProceeds(s: Stores, c: Call)
    requires Good(s) && WellFormed(c) && Accepts(s, c)
    ensures Proceeds(s, c) && c.mark.ProposalPrint? && IsAccepted(Step(s, c).0.outcomes[c.id])
  {
    if !Proceeds(s, c) {
      OtherwiseNothingChanges(s, c);
    }
  }

  // ---------------------------------------------------------------------------------------------
  // One submission and the limit
  // ---------------------------------------------------------------------------------------------

  lemma AcceptedInGains(outcomes: map<OutcomeId, StoredOutcome>, id: OutcomeId, o: StoredOutcome, a: AssignmentId,
                        start: Time)
    requires id in outcomes ==> !IsAccepted(outcomes[id])
    ensures AcceptedIn(outcomes[id := o], a, start)
            == AcceptedIn(outcomes, a, start)
               + (if a == o.assignmentId && o.fingerprint.ProposalPrint? && IsAccepted(o)
                  && start <= o.claimedAt <= start + HOUR
                  then {id} else {})
  {
  }

  /** Giving one outcome its accepted proposal keeps the limit exactly when no hour around it was full. */
  lemma OneMoreStaysWithinExactlyWhen(s: Stores, s': Stores, id: OutcomeId)
    requires WithinLimit(s) && id in s'.outcomes && s'.outcomes == s.outcomes[id := s'.outcomes[id]]
    requires s'.assignments == s.assignments && s'.outcomes[id].assignmentId in s.assignments
    requires id in s.outcomes ==> !IsAccepted(s.outcomes[id])
    requires s'.outcomes[id].fingerprint.ProposalPrint? && IsAccepted(s'.outcomes[id])
    ensures WithinLimit(s') <==> RoomAround(s, s'.outcomes[id])
  {
    var o := s'.outcomes[id];
    forall a, start | a in s.assignments
      ensures |AcceptedIn(s'.outcomes, a, start)|
              == |AcceptedIn(s.outcomes, a, start)|
                + (if a == o.assignmentId && start <= o.claimedAt <= start + HOUR then 1 else 0)
    {
      AcceptedInGains(s.outcomes, id, o, a, start);
      assert id !in AcceptedIn(s.outcomes, a, start);
    }
    if WithinLimit(s') {
      forall start | start <= o.claimedAt <= start + HOUR
        ensures |AcceptedIn(s.outcomes, o.assignmentId, start)| < s.assignments[o.assignmentId].maxProposalsPerHour
      {
        assert |AcceptedIn(s'.outcomes, o.assignmentId, start)| <= s'.assignments[o.assignmentId].maxProposalsPerHour;
      }
    }
  }

  lemma NoAcceptanceStaysWithin(s: Stores, s': Stores, id: OutcomeId)
    requires WithinLimit(s) && id in s'.outcomes && s'.outcomes == s.outcomes[id := s'.outcomes[id]]
    requires s'.assignments == s.assignments && (id in s.outcomes ==> !IsAccepted(s.outcomes[id]))
    requires !(s'.outcomes[id].fingerprint.ProposalPrint? && IsAccepted(s'.outcomes[id]))
    ensures WithinLimit(s')
  {
    forall a, start | a in s.assignments ensures AcceptedIn(s'.outcomes, a, start) == AcceptedIn(s.outcomes, a, start) {
      AcceptedInGains(s.outcomes, id, s'.outcomes[id], a, start);
    }
  }

  lemma SameRoom(s: Stores, o: StoredOutcome, o': StoredOutcome)
    requires o' == o.(events := o'.events)
    ensures RoomAround(s, o) <==> RoomAround(s, o')
  {
  }

  lemma SubmissionStaysWithinExactlyWhen(s: Stores, c: Call)
    requires Good(s) && WithinLimit(s) && WellFormed(c) && c.Submit?
    ensures WithinLimit(Step(s, c).0) <==> (Accepts(s, c) ==> RoomAround(s, ClaimOf(s, c)))
  {
    var s' := Step(s, c).0;
    if !Proceeds(s, c) {
      OtherwiseNothingChanges(s, c);
    } else if Accepts(s, c) {
      hide Step;
      AcceptancesAreCounted(s, c);
      OneMoreStaysWithinExactlyWhen(s, s', c.id);
      SameRoom(s, ClaimOf(s, c), s'.outcomes[c.id]);
    } else {
      hide Step;
      if c.cut == Whole { WholeSubmission(s, c); } else { CutSubmission(s, c); }
      ClaimsKeepTheirContent(s, c);
      NoAcceptanceStaysWithin(s, s', c.id);
    }
  }

  lemma ClaimsKeepTheirContent(s: Stores, c: Call)
    requires Good(s) && Proceeds(s, c)
    ensures ClaimOf(s, c).fingerprint == c.mark
  {
  }

  /** An assignment nobody registered has accepted nothing. */
  lemma UnknownAssignmentsAcceptNothing(s: Stores, a: AssignmentId, start: Time)
    requires Good(s) && a !in s.assignments
    ensures AcceptedIn(s.outcomes, a, start) == {}
  {
    forall id | id in s.outcomes ensures id !in AcceptedIn(s.outcomes, a, start) {
      assert GoodOutcome(s, s.outcomes[id]);
    }
  }

  lemma MoreAssignmentsStayWithin(s: Stores, assignments: map<AssignmentId, TradingAssignment>)
    requires Good(s) && WithinLimit(s) && EntriesKept(s.assignments, assignments)
    ensures Within(s.outcomes, assignments)
  {
    forall a, start | a in assignments
      ensures |AcceptedIn(s.outcomes, a, start)| <= assignments[a].maxProposalsPerHour {
      if a !in s.assignments {
        UnknownAssignmentsAcceptNothing(s, a, start);
      }
    }
  }

  lemma OnlySubmitTouchesOutcomes(s: Stores, c: Call)
    requires !c.Submit?
    ensures Administer(s, c).0.outcomes == s.outcomes
  {
  }

  /** From stores within the limit, a call of any kind stays within it exactly when it accepts nothing, or
      accepts a proposal whose claim has room around it. */
  lemma StepStaysWithinExactlyWhen(s: Stores, c: Call)
    requires Good(s) && WithinLimit(s) && WellFormed(c)
    ensures WithinLimit(Step(s, c).0) <==> (Accepts(s, c) ==> RoomAround(s, ClaimOf(s, c)))
  {
    if c.Submit? {
      SubmissionStaysWithinExactlyWhen(s, c);
    } else {
      OnlySubmitTouchesOutcomes(s, c);
      StepIsGood(s, c);
      MoreAssignmentsStayWithin(s, Step(s, c).0.assignments);
    }
  }

  /** A claim of the same assignment, perhaps the resumed one itself, that lies within an hour before the
      resumed claim and is no longer counted when it is resumed. */
  ghost predicate HasUncountedClaim(s: Stores, c: Call)
    requires c.Submit?
  {
    exists id :: id in s.outcomes && s.outcomes[id].assignmentId == ClaimOf(s, c).assignmentId
                 && ClaimOf(s, c).claimedAt - HOUR <= s.outcomes[id].claimedAt < c.now - HOUR
  }

  /** An acceptance can find an hour full only over a claim that has left the count since. */
  lemma FullHourNeedsAnUncountedClaim(s: Stores, c: Call)
    requires Good(s) && WellFormed(c) && Accepts(s, c) && !RoomAround(s, ClaimOf(s, c))
    ensures c.id in s.outcomes && HasUncountedClaim(s, c)
  {
    hide Step, Accepts;
    AcceptsProceeds(s, c);
    AcceptancesAreCounted(s, c);
    var o := ClaimOf(s, c);
    if !(c.id in s.outcomes && HasUncountedClaim(s, c)) {
      forall start | start <= o.claimedAt <= start + HOUR
        ensures |AcceptedIn(s.outcomes, o.assignmentId, start)| < s.assignments[o.assignmentId].maxProposalsPerHour
      {
        CountedClaimsLeaveRoom(s, c, start);
      }
      assert false;
    }
  }

  lemma CountedClaimsLeaveRoom(s: Stores, c: Call, start: Time)
    requires c.Submit? && Proceeds(s, c) && !(c.id in s.outcomes && HasUncountedClaim(s, c))
    requires start <= ClaimOf(s, c).claimedAt <= start + HOUR
    ensures |AcceptedIn(s.outcomes, ClaimOf(s, c).assignmentId, start)|
            < |ClaimedSince(s.outcomes[c.id := ClaimOf(s, c)], ClaimOf(s, c).assignmentId, c.now - HOUR)|
  {
    var o := ClaimOf(s, c);
    var counted := ClaimedSince(s.outcomes[c.id := o], o.assignmentId, c.now - HOUR);
    assert c.id in counted && c.id !in AcceptedIn(s.outcomes, o.assignmentId, start);
    SubsetIsNoLarger(AcceptedIn(s.outcomes, o.assignmentId, start), counted);
  }

  // ---------------------------------------------------------------------------------------------
  // Whole runs
  // ---------------------------------------------------------------------------------------------

  /** Every acceptance that resumes an earlier call's claim finds room around that claim. */
  ghost predicate ResumptionsFindRoom(ss: seq<Stores>, calls: seq<Call>)
    requires |ss| == |calls| + 1
  {
    forall i :: 0 <= i < |calls| && Accepts(ss[i], calls[i]) && calls[i].id in ss[i].outcomes ==>
                  RoomAround(ss[i], ss[i].outcomes[calls[i].id])
  }

  /** Over any run of calls, cut anywhere, with clock readings in any order: no closed one-hour window of
      claim times ever holds more accepted proposals than the assignment allows exactly when every acceptance
      of an earlier call's claim finds no hour around that claim full. */
  lemma LimitHoldsExactlyWhenResumptionsFindRoom(ss: seq<Stores>, calls: seq<Call>)
    requires IsGatewayRun(ss, calls)
    ensures (forall k :: 0 <= k < |ss| ==> WithinLimit(ss[k])) <==> ResumptionsFindRoom(ss, calls)
  {
    if ResumptionsFindRoom(ss, calls) {
      forall k | 0 <= k < |ss| ensures WithinLimit(ss[k]) {
        RoomKeepsTheLimit(ss, calls, k);
      }
    } else {
      var i :| 0 <= i < |calls| && Accepts(ss[i], calls[i]) && calls[i].id in ss[i].outcomes
               && !RoomAround(ss[i], ss[i].outcomes[calls[i].id]);
      hide Step, Accepts, RoomAround, WithinLimit;
      if WithinLimit(ss[i]) {
        RunsAreGood(ss, calls, i);
        StepStaysWithinExactlyWhen(ss[i], calls[i]);
      }
    }
  }

  lemma {:induction false} RoomKeepsTheLimit(ss: seq<Stores>, calls: seq<Call>, k: nat)
    requires IsGatewayRun(ss, calls) && k < |ss| && ResumptionsFindRoom(ss, calls)
    ensures WithinLimit(ss[k])
    decreases k
  {
    hide Step, Accepts, RoomAround, WithinLimit;
    if k == 0 {
      assert WithinLimit(EMPTY_STORES) by { NothingAccepted(); }
    } else {
      RoomKeepsTheLimit(ss, calls, k - 1);
      RunsAreGood(ss, calls, k - 1);
      RoomKeepsOneStep(ss[k - 1], calls[k - 1]);
    }
  }

  lemma NothingAccepted()
    ensures WithinLimit(EMPTY_STORES)
  {
  }

  lemma RoomKeepsOneStep(s: Stores, c: Call)
    requires Good(s) && WithinLimit(s) && WellFormed(c)
    requires Accepts(s, c) && c.id in s.outcomes ==> RoomAround(s, s.outcomes[c.id])
    ensures WithinLimit(Step(s, c).0)
  {
    hide Step, RoomAround;
    if Accepts(s, c) && !RoomAround(s, ClaimOf(s, c)) {
      FullHourNeedsAnUncountedClaim(s, c);
    }
    StepStaysWithinExactlyWhen(s, c);
  }

  /** In particular in every run in which each accepted proposal was claimed and settled by one call,
      whatever happens to the other claims. */
  lemma NoHourExceedsTheLimit(ss: seq<Stores>, calls: seq<Call>, k: nat)
    requires IsGatewayRun(ss, calls) && k < |ss|
    requires forall i :: 0 <= i < |calls| && Accepts(ss[i], calls[i]) ==> calls[i].id !in ss[i].outcomes
    ensures WithinLimit(ss[k])
  {
    LimitHoldsExactlyWhenResumptionsFindRoom(ss, calls);
  }

  /** And in every run in which no claim within the hour before an accepted one, itself included, has left
      the count by the time of its acceptance. */
  lemma CountedClaimsKeepTheLimit(ss: seq<Stores>, calls: seq<Call>, k: nat)
    requires IsGatewayRun(ss, calls) && k < |ss|
    requires forall i :: 0 <= i < |calls| && Accepts(ss[i], calls[i]) ==> !HasUncountedClaim(ss[i], calls[i])
    ensures WithinLimit(ss[k])
  {
    forall i | 0 <= i < |calls| && Accepts(ss[i], calls[i]) && calls[i].id in ss[i].outcomes
      ensures RoomAround(ss[i], ss[i].outcomes[calls[i].id])
    {
      RunsAreGood(ss, calls, i);
      if !RoomAround(ss[i], ClaimOf(ss[i], calls[i])) {
        FullHourNeedsAnUncountedClaim(ss[i], calls[i]);
      }
    }
    LimitHoldsExactlyWhenResumptionsFindRoom(ss, calls);
  }

  // ---------------------------------------------------------------------------------------------
  // A run that exceeds the limit
  // ---------------------------------------------------------------------------------------------

  const ASSIGNMENT: TradingAssignment := TradingAssignment(
    7, 1, "EURUSD", "artifact", 0, 100000, 1, 0.01, 0.02, false, 0)
  const OBSERVED: MarketContext := MarketContext(5, "spec", 0, 0)
  const BUNDLE: BundleContent := BundleContent(7, OBSERVED, "portfolio", ContextSnapshot("EURUSD", 0), 0, 0, 100000)
  const PROPOSAL: ProposalContent := ProposalContent(
    1, 7, HashOf(BUNDLE), "artifact", Buy, Market, 1.10, 1.09, 1.12, 0.5, 0.01, ["breakout"], [], 0, 100000)

  /** Everything in place, nothing submitted. */
  const READY: Stores := Stores(
    map[1 := AgentIdentity(1, Active, 0)], map[1 := "key"], map[7 := ASSIGNMENT],
    map[3 := ContextBundle(3, BUNDLE)], map[HashOf(BUNDLE) := ContextBundle(3, BUNDLE)],
    map[ContextSnapshot("EURUSD", 0) := Evidence(ContextSnapshot("EURUSD", 0), "EURUSD", 0, OBSERVED)], map[])

  function SubmitAt(id: OutcomeId, now: Time, cut: Cut): Call {
    Submit(1, "key", id, ProposalPrint(PROPOSAL), now, cut)
  }

  lemma ReadyIsReachable()
    ensures var calls := [RegisterIdentity(AgentIdentity(1, Active, 0), "key"), IssueAssignment(ASSIGNMENT),
                          PublishContext(3, 7, "EURUSD", OBSERVED, "portfolio", 0, 0, 100000)];
            && (forall i :: 0 <= i < 3 ==> WellFormed(calls[i]))
            && Step(Step(Step(EMPTY_STORES, calls[0]).0, calls[1]).0, calls[2]).0 == READY
  {
  }

  function OutcomeOf(claimedAt: Time, events: seq<OutcomeEvent>): StoredOutcome {
    StoredOutcome(1, 7, ProposalPrint(PROPOSAL), claimedAt, events)
  }

  /** Whenever fewer than two outcomes count, the example proposal passes every check. */
  lemma ExamplePasses(s: Stores, now: Time)
    requires s == READY.(outcomes := s.outcomes) && 0 <= now < 100000
    requires |ClaimedSince(s.outcomes, 7, now - HOUR)| <= 1
    ensures Evaluation(s, 1, ProposalPrint(PROPOSAL), now).None?
  {
  }

  /** RECEIVED, then ACCEPTED. */
  function BothEvents(at: Time): seq<OutcomeEvent> {
    [OutcomeEvent(Received, at, None), OutcomeEvent(Accepted, at, None)]
  }

  lemma ReceivesFirst(s: Stores, id: OutcomeId, now: Time)
    requires id in s.outcomes && s.outcomes[id].events == []
    ensures AppendEvent(s, id, Received, now, None)
            == Ok(s.(outcomes := s.outcomes[id := s.outcomes[id].(events := [OutcomeEvent(Received, now, None)])]))
  {
    var es := s.outcomes[id].events;
    assert EventOf(es, Received).None?
           && es + [OutcomeEvent(Received, now, None)] == [OutcomeEvent(Received, now, None)];
  }

  lemma ThenAccepts(s: Stores, id: OutcomeId, now: Time)
    requires id in s.outcomes && s.outcomes[id].events == [OutcomeEvent(Received, now, None)]
    ensures AppendEvent(s, id, Accepted, now, None)
            == Ok(s.(outcomes := s.outcomes[id := s.outcomes[id].(events := BothEvents(now))]))
  {
    var es := s.outcomes[id].events;
    assert es[0].kind == Received && es[1..] == [];
    assert EventOf(es, Accepted) == EventOf(es[1..], Accepted) == None;
    assert es + [OutcomeEvent(Accepted, now, None)] == BothEvents(now);
  }

  lemma AcceptsUnsettled(s: Stores, id: OutcomeId, claimedAt: Time, now: Time)
    requires s == READY.(outcomes := s.outcomes) && 0 <= now < 100000
    requires id in s.outcomes && s.outcomes[id] == OutcomeOf(claimedAt, [])
    requires |ClaimedSince(s.outcomes, 7, now - HOUR)| <= 1
    ensures Resumed(s, 1, id, ProposalPrint(PROPOSAL), now, Whole).0
            == s.(outcomes := s.outcomes[id := OutcomeOf(claimedAt, BothEvents(now))])
  {
    ReceivesFirst(s, id, now);
    var s2 := AppendEvent(s, id, Received, now, None).stores;
    SameClaimsCount(s.outcomes, s2.outcomes, 7, now - HOUR);
    ExamplePasses(s2, now);
    ThenAccepts(s2, id, now);
    assert AcceptedVerdict(s2, id, ProposalPrint(PROPOSAL)).Verdict?;
    assert Settled(s2, 1, id, ProposalPrint(PROPOSAL), now).0 == AppendEvent(s2, id, Accepted, now, None).stores;
    assert s2.outcomes[id := OutcomeOf(claimedAt, BothEvents(now))]
           == s.outcomes[id := OutcomeOf(claimedAt, BothEvents(now))];
  }

  lemma FirstIsAccepted()
    ensures Step(READY, SubmitAt(11, 1000, Whole)).0 == READY.(outcomes := map[11 := OutcomeOf(1000, BothEvents(1000))])
  {
    var s := READY.(outcomes := map[11 := OutcomeOf(1000, [])]);
    assert Claimed(READY, 11, ProposalPrint(PROPOSAL), 1000) == s;
    assert ClaimedSince(s.outcomes, 7, 1000 - HOUR) == {11};
    AcceptsUnsettled(s, 11, 1000, 1000);
    assert s.outcomes[11 := OutcomeOf(1000, BothEvents(1000))] == map[11 := OutcomeOf(1000, BothEvents(1000))];
  }

  lemma SecondIsClaimed(s: Stores)
    requires s == READY.(outcomes := map[11 := OutcomeOf(1000, BothEvents(1000))])
    ensures Step(s, SubmitAt(12, 1500, AfterClaim)).0 == s.(outcomes := s.outcomes[12 := OutcomeOf(1500, [])])
  {
  }

  lemma SecondIsTakenUpLater(s: Stores)
    requires s == READY.(outcomes := map[11 := OutcomeOf(1000, BothEvents(1000)), 12 := OutcomeOf(1500, [])])
    ensures Step(s, SubmitAt(12, 5200, Whole)).0 == s.(outcomes := s.outcomes[12 := OutcomeOf(1500, BothEvents(5200))])
  {
    assert ClaimedSince(s.outcomes, 7, 5200 - HOUR) == {};
    AcceptsUnsettled(s, 12, 1500, 5200);
    assert Step(s, SubmitAt(12, 5200, Whole)) == Resumed(s, 1, 12, ProposalPrint(PROPOSAL), 5200, Whole);
  }

  /** With a limit of one an hour: proposal 11 is accepted at 1000; proposal 12 is claimed at 1500 and cut
      off; taken up again at 5200 it is accepted too, because by then neither claim is counted. */
  lemma InterruptedClaimsCanExceedTheLimit()
    ensures var s1 := Step(READY, SubmitAt(11, 1000, Whole)).0;
            var s2 := Step(s1, SubmitAt(12, 1500, AfterClaim)).0;
            var s3 := Step(s2, SubmitAt(12, 5200, Whole)).0;
            && AcceptedIn(s3.outcomes, 7, 1000) == {11, 12}
            && |AcceptedIn(s3.outcomes, 7, 1000)| == 2 && 7 in s3.assignments
               && s3.assignments[7].maxProposalsPerHour == 1
  {
    hide Step;
    FirstIsAccepted();
    var s1 := Step(READY, SubmitAt(11, 1000, Whole)).0;
    SecondIsClaimed(s1);
    var s2 := Step(s1, SubmitAt(12, 1500, AfterClaim)).0;
    assert s2.outcomes == map[11 := OutcomeOf(1000, BothEvents(1000)), 12 := OutcomeOf(1500, [])];
    SecondIsTakenUpLater(s2);
    var s3 := Step(s2, SubmitAt(12, 5200, Whole)).0;
    assert s3.outcomes == map[11 := OutcomeOf(1000, BothEvents(1000)), 12 := OutcomeOf(1500, BothEvents(5200))];
    assert AcceptedIn(s3.outcomes, 7, 1000) == {11, 12};
  }
}
