/**
 What `_process` of `application/execution.py` asks about one capsule, and what each answer writes.  The
 gates, Risk, the permit store and the broker are parameters; the order of the questions is the source's.
 */
module ExecutionChain {
  import opened ExecutionEvents
  import opened ExecutionProtocol
  import opened ExecutionOutcome
  import CanaryScope

  datatype BookStatus = Matched | Mismatched | Unknown

  datatype BrokerReply = BrokerReply(state: OrderState, orderTicket: Option<Ticket>)

  /** A sealed capsule with the order its Risk approval fixed. */
  datatype ApprovedCapsule = ApprovedCapsule(capsule: Capsule, entry: EntryType, stopLoss: real)

  /** What a pass is told about one capsule.  `finalRisk` is a no also when no instrument, no fresh tick or no
      risk session was at hand; `permit` is what is stored under the configured id; a missing reply is a
      transport failure. */
  datatype Answers = Answers(
    eligible: bool, preflight: bool, book: BookStatus, finalRisk: bool, orderCheck: bool, submissionGate: bool,
    permit: Option<CanaryScope.CanaryPermit>, facts: CanaryScope.Facts, reply: Option<BrokerReply>)

  /** The row a reply is recorded as. */
  function ReplyEvent(reply: BrokerReply): ExecutionEvent
    requires NormalizeExecutionResult(reply.state).Some?
  {
    ExecutionEvent(NormalizeExecutionResult(reply.state).value, Some(EMPTY.(orderTicket := reply.orderTicket)))
  }

  /** A reply that cannot come back from `order_send`. */
  predicate Impossible(reply: Option<BrokerReply>) {
    reply.Some? && NormalizeExecutionResult(reply.value.state).None?
  }

  /** The one configured capsule, under a stored, unused permit that covers it. */
  predicate PermitFits(setup: Setup, permits: set<PermitId>, consumed: map<PermitId, RequestId>, id: CapsuleId,
                       a: Answers)
  {
    && setup.Canary? && id == setup.capsule && CanaryScope.Covers(a.permit, a.facts)
    && setup.permit in permits && setup.permit !in consumed
  }

  // ---------------------------------------------------------------------------------------------
  // What the rows of a chain mean
  // ---------------------------------------------------------------------------------------------

  /** Every row that goes on stands for a yes to every question up to it. */
  ghost predicate StepsHaveAnswers(h: seq<ExecutionEvent>, setup: Setup, o: ApprovedCapsule, a: Answers) {
    && (HasKind(h, FinalRiskPassed) ==> a.eligible && a.preflight && a.book == Matched && a.finalRisk)
    && (HasKind(h, OrderChecked) ==> HasKind(h, FinalRiskPassed) && a.orderCheck)
    && (HasKind(h, SubmissionGatePassed) ==> HasKind(h, OrderChecked) && a.submissionGate)
    && (HasKind(h, SubmissionStarted) ==>
          && HasKind(h, SubmissionGatePassed)
          && (setup.Canary? ==> o.capsule.id == setup.capsule && CanaryScope.Covers(a.permit, a.facts)))
    && (forall e :: e in h && e.kind == SubmissionStarted ==> e == Started(o.entry, o.stopLoss))
  }

  /** Every refusal stands for the first no. */
  ghost predicate RefusalsHaveAnswers(h: seq<ExecutionEvent>, setup: Setup, a: Answers) {
    && (HasKind(h, Ineligible) ==> !a.eligible)
    && (HasKind(h, GateClosed) ==> a.eligible && !a.preflight)
    && (HasKind(h, ReconciliationBlocked) ==> a.eligible && a.preflight && a.book != Matched)
    && (HasKind(h, FinalRiskBlocked) ==> a.eligible && a.preflight && a.book == Matched && !a.finalRisk)
    && (HasKind(h, OrderCheckRejected) ==> HasKind(h, FinalRiskPassed) && !a.orderCheck)
    && (HasKind(h, SubmissionGateBlocked) ==> HasKind(h, OrderChecked) && !a.submissionGate)
    && (HasKind(h, CanaryPermitBlocked) ==> HasKind(h, SubmissionGatePassed) && setup.Canary?)
  }

  ghost predicate RowsHaveAnswers(h: seq<ExecutionEvent>, setup: Setup, o: ApprovedCapsule, a: Answers) {
    StepsHaveAnswers(h, setup, o, a) && RefusalsHaveAnswers(h, setup, a)
  }

  predicate AllYes(a: Answers) {
    && a.eligible && a.preflight && a.book == Matched && a.finalRisk
    && a.orderCheck && a.submissionGate
  }

  /** How the chain of a pass that lives ends: with the first no as its last row, or with the order committed,
      and if a reply came that can come, with what it means. */
  ghost predicate EndsAtTheFirstNo(h: seq<ExecutionEvent>, setup: Setup, fits: bool, o: ApprovedCapsule, a: Answers) {
    && (!a.eligible ==> LastIs(h, Ineligible))
    && (a.eligible && !a.preflight ==> LastIs(h, GateClosed))
    && (a.eligible && a.preflight && a.book != Matched ==> LastIs(h, ReconciliationBlocked))
    && (a.eligible && a.preflight && a.book == Matched && !a.finalRisk ==> LastIs(h, FinalRiskBlocked))
    && (a.eligible && a.preflight && a.book == Matched && a.finalRisk && !a.orderCheck ==>
          LastIs(h, OrderCheckRejected))
    && (a.eligible && a.preflight && a.book == Matched && a.finalRisk && a.orderCheck && !a.submissionGate ==>
          LastIs(h, SubmissionGateBlocked))
    && (AllYes(a) && setup.Canary? && !fits ==> LastIs(h, CanaryPermitBlocked))
    && (AllYes(a) && (setup.PreflightOnly? || (fits && a.reply.None?)) ==>
          h != [] && h[|h| - 1] == Started(o.entry, o.stopLoss))
    && (AllYes(a) && setup.Canary? && fits && a.reply.Some? && !Impossible(a.reply) ==>
          h != [] && h[|h| - 1] == ReplyEvent(a.reply.value))
  }

  // ---------------------------------------------------------------------------------------------
  // The rows in order
  // ---------------------------------------------------------------------------------------------

  /** From the claim through FINAL Risk. */
  function RiskPath(a: Answers): seq<ExecutionEvent> {
    [Bare(RequestClaimed),
     Bare(if !a.eligible then Ineligible
          else if !a.preflight then GateClosed
          else if a.book != Matched then ReconciliationBlocked
          else if !a.finalRisk then FinalRiskBlocked
          else FinalRiskPassed)]
  }

  predicate RiskYes(a: Answers) {
    a.eligible && a.preflight && a.book == Matched && a.finalRisk
  }

  /** And on through the order check and the submission gate. */
  function GatePath(a: Answers): seq<ExecutionEvent> {
    if !RiskYes(a) then RiskPath(a)
    else if !a.orderCheck then RiskPath(a) + [Bare(OrderCheckRejected)]
    else RiskPath(a) + [Bare(OrderChecked),
                        Bare(if a.submissionGate then SubmissionGatePassed else SubmissionGateBlocked)]
  }

  function ReplyPath(reply: Option<BrokerReply>): seq<ExecutionEvent> {
    if reply.None? || Impossible(reply) then [] else [ReplyEvent(reply.value)]
  }

  /** The whole chain of a pass that lives. */
  function ChainPath(setup: Setup, fits: bool, o: ApprovedCapsule, a: Answers): seq<ExecutionEvent> {
    if !AllYes(a) then GatePath(a)
    else if setup.PreflightOnly? then GatePath(a) + [Started(o.entry, o.stopLoss)]
    else if !fits then GatePath(a) + [Bare(CanaryPermitBlocked)]
    else GatePath(a) + [Started(o.entry, o.stopLoss)] + ReplyPath(a.reply)
  }

  /** A path row by row. */
  ghost predicate RowByRow(h: seq<ExecutionEvent>, setup: Setup, fits: bool, o: ApprovedCapsule, a: Answers) {
    && |h| <= 6
    && (|h| > 0 ==> h[0].kind == RequestClaimed)
    && (|h| > 1 ==> h[1] == RiskPath(a)[1])
    && (|h| > 2 ==> RiskYes(a) && h[2].kind == if a.orderCheck then OrderChecked else OrderCheckRejected)
    && (|h| > 3 ==>
          && a.orderCheck
          && h[3].kind == if a.submissionGate then SubmissionGatePassed else SubmissionGateBlocked)
    && (|h| > 4 ==>
          && a.submissionGate
          && h[4] == if setup.Canary? && !fits then Bare(CanaryPermitBlocked) else Started(o.entry, o.stopLoss))
    && (|h| > 5 ==> h[4].kind == SubmissionStarted && h[5].kind in {Filled, Rejected, Submitted})
  }

  lemma PathsGoRowByRow(h: seq<ExecutionEvent>, setup: Setup, fits: bool, o: ApprovedCapsule, a: Answers)
    requires h <= ChainPath(setup, fits, o, a)
    ensures RowByRow(h, setup, fits, o, a)
  {
    assert forall i :: 0 <= i < |h| ==> h[i] == ChainPath(setup, fits, o, a)[i];
  }

  lemma LaterRowsFollow(h: seq<ExecutionEvent>)
    requires |h| > 2 ==> h[1].kind == FinalRiskPassed
    requires |h| > 3 ==> h[2].kind == OrderChecked
    requires |h| > 4 ==> h[3].kind == SubmissionGatePassed
    ensures |h| > 2 ==> HasKind(h, FinalRiskPassed)
    ensures |h| > 3 ==> HasKind(h, OrderChecked)
    ensures |h| > 4 ==> HasKind(h, SubmissionGatePassed)
  {
  }

  lemma RefusalsStandForNo(h: seq<ExecutionEvent>, setup: Setup, fits: bool, o: ApprovedCapsule, a: Answers)
    requires RowByRow(h, setup, fits, o, a)
    ensures RefusalsHaveAnswers(h, setup, a)
  {
    LaterRowsFollow(h);
  }

  lemma StepsStandForYes(h: seq<ExecutionEvent>, setup: Setup, fits: bool, o: ApprovedCapsule, a: Answers)
    requires RowByRow(h, setup, fits, o, a)
    requires fits ==> setup.Canary? && o.capsule.id == setup.capsule && CanaryScope.Covers(a.permit, a.facts)
    ensures StepsHaveAnswers(h, setup, o, a)
  {
    hide CanaryScope.Covers;
    LaterRowsFollow(h);
  }

  /** However far a pass gets along its path, its rows have their answers. */
  lemma PathsHaveAnswers(h: seq<ExecutionEvent>, setup: Setup, fits: bool, o: ApprovedCapsule, a: Answers)
    requires h <= ChainPath(setup, fits, o, a)
    requires fits ==> setup.Canary? && o.capsule.id == setup.capsule && CanaryScope.Covers(a.permit, a.facts)
    ensures RowsHaveAnswers(h, setup, o, a)
  {
    PathsGoRowByRow(h, setup, fits, o, a);
    RefusalsStandForNo(h, setup, fits, o, a);
    StepsStandForYes(h, setup, fits, o, a);
  }

  lemma PathsEndAtTheFirstNo(setup: Setup, fits: bool, o: ApprovedCapsule, a: Answers)
    requires setup.PreflightOnly? ==> !fits
    ensures EndsAtTheFirstNo(ChainPath(setup, fits, o, a), setup, fits, o, a)
  {
  }

  /** Rows of later passes change neither. */
  lemma LaterRowsKeepAnswers(h: seq<ExecutionEvent>, e: ExecutionEvent, setup: Setup, o: ApprovedCapsule, a: Answers)
    requires RowsHaveAnswers(h, setup, o, a) && e.kind in {AmbiguousOutcomeResolved, Reconciled}
    ensures RowsHaveAnswers(h + [e], setup, o, a)
  {
    forall kind | kind != e.kind ensures HasKind(h + [e], kind) <==> HasKind(h, kind) {
      if HasKind(h, kind) {
        var i :| 0 <= i < |h| && h[i].kind == kind;
        assert (h + [e])[i].kind == kind;
      }
    }
  }
}
