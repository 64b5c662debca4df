/**
 The durable vocabulary of one order request: the event kinds of `domain/enums.py`, the
 payload keys that later passes read back, and the append-once event log of
 `persistence/execution.py`.
 */
module ExecutionEvents {

  datatype Option<+T> = None | Some(value: T)

  datatype EventType =
    | RequestClaimed | Ineligible | GateClosed | ReconciliationBlocked
    | FinalRiskPassed | FinalRiskBlocked | OrderChecked | OrderCheckRejected
    | SubmissionGatePassed | SubmissionGateBlocked | CanaryPermitBlocked
    | SubmissionStarted | AmbiguousOutcomeResolved | Reconciled
    | Submitted | BrokerAck | Filled | Closed | Rejected

  datatype EntryType = Market | Limit | Stop

  /** The payload is a JSON object; a key that is absent is `None` (or its falsy default). */
  datatype Payload = Payload(
    entryType: Option<EntryType>,       // SUBMISSION_STARTED: the approved order
    stopLoss: Option<real>,
    integrityAmbiguity: bool,           // AMBIGUOUS_OUTCOME_RESOLVED
    submitted: Option<bool>,
    matchingTickets: seq<int>,
    orderTicket: Option<int>,           // broker reply: mt5_order_ticket
    filledTicket: Option<int>,          // FILLED written by the pending resolver
    expectedOpen: set<int>,             // RECONCILED
    observedOpen: set<int>,
    closedTickets: set<int>)

  const EMPTY: Payload := Payload(None, None, false, None, [], None, None, {}, {}, {})

  datatype ExecutionEvent = ExecutionEvent(kind: EventType, payload: Option<Payload>)

  function Bare(kind: EventType): ExecutionEvent {
    ExecutionEvent(kind, None)
  }

  function Started(entryType: EntryType, stopLoss: real): ExecutionEvent {
    ExecutionEvent(SubmissionStarted, Some(EMPTY.(entryType := Some(entryType), stopLoss := Some(stopLoss))))
  }

  /** Several positions, or several pending orders, share one magic number. */
  function Ambiguity(tickets: seq<int>): ExecutionEvent {
    ExecutionEvent(AmbiguousOutcomeResolved, Some(EMPTY.(integrityAmbiguity := true, matchingTickets := tickets)))
  }

  function Resolution(submitted: bool, tickets: seq<int>): ExecutionEvent {
    ExecutionEvent(AmbiguousOutcomeResolved, Some(EMPTY.(submitted := Some(submitted), matchingTickets := tickets)))
  }

  predicate HasKind(h: seq<ExecutionEvent>, kind: EventType) {
    exists i :: 0 <= i < |h| && h[i].kind == kind
  }

  predicate LastIs(h: seq<ExecutionEvent>, kind: EventType) {
    |h| > 0 && h[|h| - 1].kind == kind
  }

  /** An order request id is derived from the decision hash (`key`); the broker's `magic` number is
      derived from the id by truncation, so distinct ids may share one. */
  datatype RequestId = RequestId(key: nat, magic: nat)

  type Ticket = int
  datatype Position = Position(ticket: Ticket, magic: nat)
  datatype PendingOrder = PendingOrder(orderId: Ticket, magic: nat)
  datatype Book = Book(positions: seq<Position>, pending: seq<PendingOrder>)

  /** The positions that carry `magic`, in book order. */
  function PositionsWith(ps: seq<Position>, magic: nat): (r: seq<Position>)
    ensures forall p :: p in r <==> p in ps && p.magic == magic
  {
    if ps == [] then []
    else if ps[0].magic == magic then [ps[0]] + PositionsWith(ps[1..], magic)
    else PositionsWith(ps[1..], magic)
  }

  function OrdersWith(os: seq<PendingOrder>, magic: nat): (r: seq<PendingOrder>)
    ensures forall o :: o in r <==> o in os && o.magic == magic
  {
    if os == [] then []
    else if os[0].magic == magic then [os[0]] + OrdersWith(os[1..], magic)
    else OrdersWith(os[1..], magic)
  }

  function Tickets(ps: seq<Position>): (r: seq<Ticket>)
    ensures |r| == |ps|
    ensures forall i :: 0 <= i < |ps| ==> r[i] == ps[i].ticket
  {
    seq(|ps|, i requires 0 <= i < |ps| => ps[i].ticket)
  }
}
