/** What a broker reply to `order_send` or `close_position` durably means (`application/execution_outcome.py`). */
module ExecutionOutcome {
  import opened ExecutionEvents
  import ExpectedExposure

  datatype OrderState =
    | Created | RiskApproved | SupervisorApproved | OrderWasChecked | WasSubmitted | Acknowledged
    | PartiallyFilled | FullyFilled | WasRejected | WasReconciled | WasClosed | Cancelled | NotKnown

  /** `None` where the source raises: those states never come back from `order_send`. */
  function NormalizeExecutionResult(state: OrderState): (kind: Option<EventType>)
    ensures kind.Some? <==> state in {FullyFilled, PartiallyFilled, WasRejected, WasSubmitted}
    ensures kind.Some? ==> kind.value in {Filled, Rejected, Submitted}
  {
    match state
    case FullyFilled | PartiallyFilled => Some(Filled)
    case WasRejected => Some(Rejected)
    case WasSubmitted => Some(Submitted)
    case _ => None
  }

  /** A partial close is not a close. */
  predicate CloseResultFullyClosed(state: OrderState) {
    state == FullyFilled
  }

  /** A reply settles a request's exposure only when it is a rejection; a resting order stays an open
      question, and a fill is left without one, full or partial alike. */
  lemma OnlyRejectionSettlesExposure(h: seq<ExecutionEvent>, id: RequestId, state: OrderState, e: ExecutionEvent)
    requires NormalizeExecutionResult(state) == Some(e.kind)
    ensures var standing := ExpectedExposure.StandingOf(ExpectedExposure.History(id, h + [e]));
            && (standing.Known? <==> state == WasRejected)
            && (standing.Known? ==> standing.tickets == {})
            && (standing.Open? <==> state == WasSubmitted)
            && (standing.Silent? <==> state in {FullyFilled, PartiallyFilled})
  {
    assert (h + [e])[|h|] == e;
  }
}
