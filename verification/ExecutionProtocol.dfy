/**
 The entry-submission protocol of `application/execution.py` as a transition system: any number of
 workers, each able to die between any two of its effects, over the durable tables of
 `persistence/execution.py` and `persistence/canary_permit.py`.

 One action is one effect of one worker: an insert, a committed transaction, a broker call, or a read
 whose result the worker then acts on.  Risk, the gates, the permit scope check and the broker are
 oracles: their answers are chosen by the action.
 */
module ExecutionProtocol {
  import opened ExecutionEvents
  import opened ExpectedExposure

  type WorkerId = nat
  type PermitId = nat
  type CapsuleId = nat

  /** A sealed, intent-time approved capsule; `approval` is the fingerprint of its approval chain. */
  datatype Capsule = Capsule(id: CapsuleId, req: RequestId, approval: nat)

  datatype Claim = Claim(capsule: CapsuleId, approval: nat)

  /** How a worker was constructed: without an entry adapter, or with one canary identity. */
  datatype Setup = PreflightOnly | Canary(permit: PermitId, capsule: CapsuleId)

  /** The last thing a winning claimant did. */
  datatype ChainPoint = ClaimInserted | ClaimLogged | RiskPassed | OrderAccepted | GateOpen

  datatype Stage =
    | Idle
    | Walking(capsule: Capsule, setup: Setup, at: ChainPoint)
    | Committed(capsule: Capsule, setup: Setup)
    | AwaitingReply(capsule: Capsule, setup: Setup)
    | LostClaim(req: RequestId)
    | SawStarted(req: RequestId)
    | SawPositions(req: RequestId, matches: seq<Position>)
    | SawBook(req: RequestId, matches: seq<Position>, orders: seq<PendingOrder>)
    | SawSubmitted(req: RequestId, orderTicket: Ticket, seen: Book)
    | SawDetermined(req: RequestId, record: Payload)
    | MustTrip

  /** One call of `order_send`. */
  datatype Send = Send(req: RequestId, permit: PermitId, capsule: CapsuleId, configured: CapsuleId)

  type Log = map<RequestId, seq<ExecutionEvent>>

  datatype World = World(
    claims: map<RequestId, Claim>,
    log: Log,
    permits: set<PermitId>,
    consumed: map<PermitId, RequestId>,
    sends: seq<Send>,
    halted: bool,
    book: Book,
    workers: map<WorkerId, Stage>)

  const INITIAL: World := World(map[], map[], {}, map[], [], false, Book([], []), map[])

  function At(w: World, id: WorkerId): Stage {
    if id in w.workers then w.workers[id] else Idle
  }

  function Move(w: World, id: WorkerId, s: Stage): World {
    w.(workers := w.workers[id := s])
  }

  /** Rows are unique per (request, kind): an equal row converges, a different one raises, which
      unwinds the whole pass. */
  function Append(w: World, id: WorkerId, r: RequestId, e: ExecutionEvent, next: Stage): World
    requires r in w.log
  {
    if !HasKind(w.log[r], e.kind) then Move(w, id, next).(log := w.log[r := w.log[r] + [e]])
    else if e in w.log[r] then Move(w, id, next)
    else Move(w, id, Idle)
  }

  /** What recovery concludes from the positions, and (when there are none) the pending orders, that
      carry the request's magic number. */
  datatype Verdict = Leave | Write(event: ExecutionEvent, trips: bool)

  function RecoveryVerdict(matches: seq<Position>, orders: seq<PendingOrder>): Verdict {
    if |matches| > 1 then Write(Ambiguity(Tickets(matches)), true)
    else if |matches| == 0 && |orders| > 1 then Write(Ambiguity([]), true)
    else if |matches| == 0 && |orders| == 1 then Leave
    else Write(Resolution(|matches| == 1, Tickets(matches)), false)
  }

  predicate StillResting(ticket: Ticket, orders: seq<PendingOrder>) {
    exists o :: o in orders && o.orderId == ticket
  }

  function FilledFromPending(p: Position): ExecutionEvent {
    ExecutionEvent(Filled, Some(EMPTY.(filledTicket := Some(p.ticket))))
  }

  /** What the pending resolver concludes about a request resting as `ticket`. */
  function PendingVerdict(ticket: Ticket, magic: nat, seen: Book): Verdict {
    var matches := PositionsWith(seen.positions, magic);
    if StillResting(ticket, seen.pending) then Leave
    else if |matches| > 1 then Write(Ambiguity(Tickets(matches)), true)
    else if |matches| == 1 then Write(FilledFromPending(matches[0]), false)
    else Leave
  }

  function AfterVerdict(v: Verdict): Stage {
    if v.Write? && v.trips then MustTrip else Idle
  }

  /** The event kinds that end a chain at each point, and the one that continues it. */
  predicate Refusal(at: ChainPoint, setup: Setup, kind: EventType) {
    match at
    case ClaimInserted => false
    case ClaimLogged => kind in {Ineligible, GateClosed, ReconciliationBlocked, FinalRiskBlocked}
    case RiskPassed => kind == OrderCheckRejected
    case OrderAccepted => kind == SubmissionGateBlocked
    case GateOpen => setup.Canary? && kind == CanaryPermitBlocked
  }

  datatype Action =
    | IssuePermit(permit: PermitId)
    | MoveBook(book: Book)
    | Crash(id: WorkerId)
    | TryClaim(id: WorkerId, capsule: Capsule, setup: Setup)
    | LogClaim(id: WorkerId)
    | PassRisk(id: WorkerId)
    | PassCheck(id: WorkerId)
    | PassGate(id: WorkerId)
    | Refuse(id: WorkerId, kind: EventType)
    | StartWithoutSending(id: WorkerId, entry: EntryType, stopLoss: real)
    | CommitPermit(id: WorkerId, entry: EntryType, stopLoss: real)
    | OrderSend(id: WorkerId)
    | LogReply(id: WorkerId, kind: EventType, orderTicket: Option<Ticket>)
    | TransportFailed(id: WorkerId)
    | ReadHistory(id: WorkerId)
    | ReadPositions(id: WorkerId)
    | ReadPending(id: WorkerId)
    | LogRecovery(id: WorkerId)
    | FindSubmitted(id: WorkerId, req: RequestId, seen: Book)
    | LogPending(id: WorkerId)
    | FindDetermined(id: WorkerId, req: RequestId, record: Payload)
    | LogReconciled(id: WorkerId)
    | Trip(id: WorkerId)

  /** The request a stage is about. */
  function ReqOf(s: Stage): Option<RequestId> {
    match s
    case Idle | MustTrip => None
    case Walking(c, _, _) => Some(c.req)
    case Committed(c, _) => Some(c.req)
    case AwaitingReply(c, _) => Some(c.req)
    case LostClaim(r) => Some(r)
    case SawStarted(r) => Some(r)
    case SawPositions(r, _) => Some(r)
    case SawBook(r, _, _) => Some(r)
    case SawSubmitted(r, _, _) => Some(r)
    case SawDetermined(r, _) => Some(r)
  }

  predicate Enabled(w: World, a: Action) {
    match a
    case IssuePermit(_) => true
    case MoveBook(_) => true
    case Crash(_) => true
    case TryClaim(id, _, _) => At(w, id) == Idle
    case LogClaim(id) => At(w, id).Walking? && At(w, id).at == ClaimInserted && At(w, id).capsule.req in w.log
    case PassRisk(id) => At(w, id).Walking? && At(w, id).at == ClaimLogged && At(w, id).capsule.req in w.log
    case PassCheck(id) => At(w, id).Walking? && At(w, id).at == RiskPassed && At(w, id).capsule.req in w.log
    case PassGate(id) => At(w, id).Walking? && At(w, id).at == OrderAccepted && At(w, id).capsule.req in w.log
    case Refuse(id, kind) =>
      At(w, id).Walking? && Refusal(At(w, id).at, At(w, id).setup, kind) && At(w, id).capsule.req in w.log
    case StartWithoutSending(id, _, _) =>
      At(w, id).Walking? && At(w, id).at == GateOpen && At(w, id).setup.PreflightOnly? && At(w, id).capsule.req in w.log
    case CommitPermit(id, _, _) =>
      && At(w, id).Walking? && At(w, id).at == GateOpen && At(w, id).setup.Canary? && At(w, id).capsule.req in w.log
      && At(w, id).capsule.id == At(w, id).setup.capsule
      && At(w, id).setup.permit in w.permits && At(w, id).setup.permit !in w.consumed
    case OrderSend(id) => At(w, id).Committed? && At(w, id).setup.Canary?
    case LogReply(id, kind, _) =>
      At(w, id).AwaitingReply? && kind in {Filled, Rejected, Submitted} && At(w, id).capsule.req in w.log
    case TransportFailed(id) => At(w, id).AwaitingReply?
    case ReadHistory(id) => At(w, id).LostClaim? && At(w, id).req in w.log
    case ReadPositions(id) => At(w, id).SawStarted?
    case ReadPending(id) => At(w, id).SawPositions? && At(w, id).matches == []
    case LogRecovery(id) =>
      (At(w, id).SawBook? || (At(w, id).SawPositions? && At(w, id).matches != [])) && At(w, id).req in w.log
    case FindSubmitted(id, r, _) =>
      && At(w, id) == Idle && r in w.log && LastIs(w.log[r], Submitted)
      && w.log[r][|w.log[r]| - 1].payload.Some? && w.log[r][|w.log[r]| - 1].payload.value.orderTicket.Some?
    case LogPending(id) => At(w, id).SawSubmitted? && At(w, id).req in w.log
    case FindDetermined(id, r, _) =>
      && At(w, id) == Idle && r in w.log && HasKind(w.log[r], SubmissionStarted) && !HasKind(w.log[r], Reconciled)
      && StandingOf(History(r, w.log[r])).Known?
    case LogReconciled(id) => At(w, id).SawDetermined? && At(w, id).req in w.log
    case Trip(id) => At(w, id).MustTrip?
  }

  /** The verdict a recovering or resolving worker is about to write. */
  function PendingWrite(s: Stage): Verdict
    requires s.SawBook? || s.SawPositions? || s.SawSubmitted?
  {
    match s
    case SawBook(_, matches, orders) => RecoveryVerdict(matches, orders)
    case SawPositions(_, matches) => RecoveryVerdict(matches, [])
    case SawSubmitted(r, ticket, seen) => PendingVerdict(ticket, r.magic, seen)
  }

  /** The single event row an action appends, and where the worker goes once it is durable. */
  datatype Row = Row(req: RequestId, event: ExecutionEvent, next: Stage)

  function RowOf(w: World, a: Action): Option<Row>
    requires Enabled(w, a)
  {
    match a
    case LogClaim(id) => Some(Row(At(w, id).capsule.req, Bare(RequestClaimed), At(w, id).(at := ClaimLogged)))
    case PassRisk(id) => Some(Row(At(w, id).capsule.req, Bare(FinalRiskPassed), At(w, id).(at := RiskPassed)))
    case PassCheck(id) => Some(Row(At(w, id).capsule.req, Bare(OrderChecked), At(w, id).(at := OrderAccepted)))
    case PassGate(id) => Some(Row(At(w, id).capsule.req, Bare(SubmissionGatePassed), At(w, id).(at := GateOpen)))
    case Refuse(id, kind) => Some(Row(At(w, id).capsule.req, Bare(kind), Idle))
    case StartWithoutSending(id, entry, sl) => Some(Row(At(w, id).capsule.req, Started(entry, sl), Idle))
    case LogReply(id, kind, ticket) =>
      Some(Row(At(w, id).capsule.req, ExecutionEvent(kind, Some(EMPTY.(orderTicket := ticket))), Idle))
    case LogRecovery(id) =>
      var v := PendingWrite(At(w, id));
      if v.Leave? then None else Some(Row(At(w, id).req, v.event, AfterVerdict(v)))
    case LogPending(id) =>
      var v := PendingWrite(At(w, id));
      if v.Leave? then None else Some(Row(At(w, id).req, v.event, AfterVerdict(v)))
    case LogReconciled(id) => Some(Row(At(w, id).req, ExecutionEvent(Reconciled, Some(At(w, id).record)), Idle))
    case _ => None
  }

  /** Every effect other than the append of one row. */
  function Effect(w: World, a: Action): World
    requires Enabled(w, a)
  {
    match a
    case IssuePermit(p) => w.(permits := w.permits + {p})
    case MoveBook(b) => w.(book := b)
    case TryClaim(id, c, setup) =>
      if c.req !in w.claims then
        Move(w, id, Walking(c, setup, ClaimInserted)).(
          claims := w.claims[c.req := Claim(c.id, c.approval)], log := w.log[c.req := []])
      else if w.claims[c.req].approval == c.approval then Move(w, id, LostClaim(c.req))
      else Move(w, id, Idle)  // a different approval chain under the same id raises
    case CommitPermit(id, entry, sl) =>
      var s, r := At(w, id), At(w, id).capsule.req;
      if HasKind(w.log[r], SubmissionStarted) then Move(w, id, Idle)  // the append raises: rolled back together
      else Move(w, id, Committed(s.capsule, s.setup)).(
        consumed := w.consumed[s.setup.permit := r], log := w.log[r := w.log[r] + [Started(entry, sl)]])
    case OrderSend(id) =>
      var s := At(w, id);
      Move(w, id, AwaitingReply(s.capsule, s.setup)).(
        sends := w.sends + [Send(s.capsule.req, s.setup.permit, s.capsule.id, s.setup.capsule)])
    case ReadHistory(id) =>
      Move(w, id, if LastIs(w.log[At(w, id).req], SubmissionStarted) then SawStarted(At(w, id).req) else Idle)
    case ReadPositions(id) =>
      Move(w, id, SawPositions(At(w, id).req, PositionsWith(w.book.positions, At(w, id).req.magic)))
    case ReadPending(id) =>
      Move(w, id, SawBook(At(w, id).req, At(w, id).matches, OrdersWith(w.book.pending, At(w, id).req.magic)))
    case FindSubmitted(id, r, seen) =>
      Move(w, id, SawSubmitted(r, w.log[r][|w.log[r]| - 1].payload.value.orderTicket.value, seen))
    case FindDetermined(id, r, record) => Move(w, id, SawDetermined(r, record))
    case Trip(id) => Move(w, id, Idle).(halted := true)
    case _ => Move(w, a.id, Idle)  // a crash, a failed transport, or nothing to record
  }

  function Next(w: World, a: Action): World
    requires Enabled(w, a)
  {
    var row := RowOf(w, a);
    if row.Some? then Append(w, a.id, row.value.req, row.value.event, row.value.next) else Effect(w, a)
  }

  /** `ws` is a run: it starts empty and every step is an enabled action. */
  ghost predicate IsRun(ws: seq<World>, acts: seq<Action>) {
    && |ws| == |acts| + 1
    && ws[0] == INITIAL
    && forall i :: 0 <= i < |acts| ==> Enabled(ws[i], acts[i]) && ws[i + 1] == Next(ws[i], acts[i])
  }

  // ---------------------------------------------------------------------------------------------
  // The inductive invariant, for any number of workers
  // ---------------------------------------------------------------------------------------------

  /** The stages that only the winner of a request's claim can be in. */
  predicate Holds(s: Stage, r: RequestId) {
    (s.Walking? || s.Committed? || s.AwaitingReply?) && s.capsule.req == r
  }

  predicate StartedIn(log: Log, r: RequestId) {
    r in log && HasKind(log[r], SubmissionStarted)
  }

  ghost predicate Tables(w: World) {
    && w.log.Keys == w.claims.Keys
    && (forall p :: p in w.consumed ==> p in w.permits && StartedIn(w.log, w.consumed[p]))
    && (forall p, q :: p in w.consumed && q in w.consumed && w.consumed[p] == w.consumed[q] ==> p == q)
  }

  ghost predicate Exclusive(ws: map<WorkerId, Stage>) {
    forall a, b, r :: a in ws && b in ws && Holds(ws[a], r) && Holds(ws[b], r) ==> a == b
  }

  /** What a stage says about the tables. */
  predicate Grounded(s: Stage, log: Log, consumed: map<PermitId, RequestId>, sends: seq<Send>) {
    && (s.Walking? ==> s.capsule.req in log && !StartedIn(log, s.capsule.req))
    && (s.Committed? || s.AwaitingReply? ==>
          && s.capsule.req in log && s.setup.Canary? && s.capsule.id == s.setup.capsule
          && s.setup.permit in consumed && consumed[s.setup.permit] == s.capsule.req)
    && (s.Committed? ==> forall i :: 0 <= i < |sends| ==> sends[i].req != s.capsule.req)
  }

  ghost predicate AllGrounded(w: World) {
    forall id :: id in w.workers ==> Grounded(w.workers[id], w.log, w.consumed, w.sends)
  }

  ghost predicate SendLedger(consumed: map<PermitId, RequestId>, sends: seq<Send>) {
    && (forall i :: 0 <= i < |sends| ==>
                      sends[i].permit in consumed && consumed[sends[i].permit] == sends[i].req
                      && sends[i].capsule == sends[i].configured)
    && (forall i, j :: 0 <= i < j < |sends| ==> sends[i].req != sends[j].req)
  }

  ghost predicate Safe(w: World) {
    Tables(w) && Exclusive(w.workers) && AllGrounded(w) && SendLedger(w.consumed, w.sends)
  }

  /** Replacing one log by a longer one. */
  lemma Extended(log: Log, r: RequestId, e: ExecutionEvent)
    requires r in log
    ensures forall q :: StartedIn(log[r := log[r] + [e]], q) <==>
                          StartedIn(log, q) || (q == r && e.kind == SubmissionStarted)
  {
    var log' := log[r := log[r] + [e]];
    forall q ensures StartedIn(log', q) <==> StartedIn(log, q) || (q == r && e.kind == SubmissionStarted) {
      if StartedIn(log, q) {
        var i :| 0 <= i < |log[q]| && log[q][i].kind == SubmissionStarted;
        assert log'[q][i].kind == SubmissionStarted;
      } else if q == r && e.kind == SubmissionStarted {
        assert log'[q][|log[q]|].kind == SubmissionStarted;
      }
    }
  }

  /** The appends of the gated chain, of replies, of recovery, resolution and reconciliation keep the
      invariant: `next` holds the request only if the worker held it already. */
  lemma AppendKeepsSafe(w: World, id: WorkerId, r: RequestId, e: ExecutionEvent, next: Stage)
    requires Safe(w) && r in w.log
    requires next == Idle || next == MustTrip
             || (next.Walking? && At(w, id).Walking? && next.capsule == At(w, id).capsule)
    requires e.kind == SubmissionStarted ==> next == Idle && Holds(At(w, id), r)
    ensures Safe(Append(w, id, r, e, next))
  {
    if !HasKind(w.log[r], e.kind) {
      InsertKeepsSafe(w, id, r, e, next);
    } else if e in w.log[r] {
      MoveOnKeepsSafe(w, id, next);
    } else {
      MoveKeepsSafe(w, id, Idle);
    }
  }

  lemma InsertKeepsSafe(w: World, id: WorkerId, r: RequestId, e: ExecutionEvent, next: Stage)
    requires Safe(w) && r in w.log
    requires next == Idle || next == MustTrip
             || (next.Walking? && At(w, id).Walking? && next.capsule == At(w, id).capsule)
    requires e.kind == SubmissionStarted ==> next == Idle && Holds(At(w, id), r)
    ensures Safe(Move(w, id, next).(log := w.log[r := w.log[r] + [e]]))
  {
    var w' := Move(w, id, next).(log := w.log[r := w.log[r] + [e]]);
    Extended(w.log, r, e);
    forall x | x in w'.workers ensures Grounded(w'.workers[x], w'.log, w'.consumed, w'.sends) {
      if x != id {
        assert w'.workers[x] == w.workers[x] && Grounded(w.workers[x], w.log, w.consumed, w.sends);
        assert !(Holds(w.workers[x], r) && Holds(At(w, id), r));
      } else if next.Walking? {
        assert Grounded(w.workers[x], w.log, w.consumed, w.sends);
      }
    }
    SafeFrom(w, w', id);
  }

  lemma MoveOnKeepsSafe(w: World, id: WorkerId, next: Stage)
    requires Safe(w)
    requires next == Idle || next == MustTrip
             || (next.Walking? && At(w, id).Walking? && next.capsule == At(w, id).capsule)
    ensures Safe(Move(w, id, next))
  {
    var w' := Move(w, id, next);
    forall x | x in w'.workers ensures Grounded(w'.workers[x], w'.log, w'.consumed, w'.sends) {
      if x in w.workers {
        assert Grounded(w.workers[x], w.log, w.consumed, w.sends);
      }
    }
    SafeFrom(w, w', id);
  }

  /** The clauses that follow once every stage is grounded. */
  lemma SafeFrom(w: World, w': World, id: WorkerId)
    requires Safe(w) && AllGrounded(w') && w'.log.Keys == w.log.Keys && w'.claims == w.claims && w'.permits == w.permits
    requires w'.consumed == w.consumed && w'.sends == w.sends && id in w'.workers
             && w'.workers == w.workers[id := w'.workers[id]]
    requires forall q :: StartedIn(w.log, q) ==> StartedIn(w'.log, q)
    requires forall r :: Holds(w'.workers[id], r) ==> Holds(At(w, id), r)
    ensures Safe(w')
  {
    forall a, b, r | a in w'.workers && b in w'.workers && Holds(w'.workers[a], r) && Holds(w'.workers[b], r)
      ensures a == b {
      assert Holds(At(w, a), r) && Holds(At(w, b), r);
    }
  }

  lemma MoveKeepsSafe(w: World, id: WorkerId, next: Stage)
    requires Safe(w) && !next.Walking? && !next.Committed? && !next.AwaitingReply?
    ensures Safe(Move(w, id, next))
  {
  }

  lemma CommitKeepsSafe(w: World, a: Action)
    requires Safe(w) && a.CommitPermit? && Enabled(w, a)
    ensures Safe(Next(w, a))
  {
    var id, r, w' := a.id, At(w, a.id).capsule.req, Next(w, a);
    assert Grounded(w.workers[a.id], w.log, w.consumed, w.sends);
    Extended(w.log, r, Started(a.entry, a.stopLoss));
    forall x | x in w'.workers ensures Grounded(w'.workers[x], w'.log, w'.consumed, w'.sends) {
      if x != id {
        assert w'.workers[x] == w.workers[x] && Grounded(w.workers[x], w.log, w.consumed, w.sends);
        assert !(Holds(w.workers[x], r) && Holds(w.workers[id], r));
      }
    }
  }

  lemma SendKeepsSafe(w: World, a: Action)
    requires Safe(w) && a.OrderSend? && Enabled(w, a)
    ensures Safe(Next(w, a))
  {
    var id, r, w' := a.id, At(w, a.id).capsule.req, Next(w, a);
    assert Grounded(w.workers[a.id], w.log, w.consumed, w.sends);
    forall x | x in w'.workers ensures Grounded(w'.workers[x], w'.log, w'.consumed, w'.sends) {
      if x != id {
        assert w'.workers[x] == w.workers[x] && Grounded(w.workers[x], w.log, w.consumed, w.sends);
        assert !(Holds(w.workers[x], r) && Holds(w.workers[id], r));
      }
    }
  }

  lemma ClaimKeepsSafe(w: World, a: Action)
    requires Safe(w) && a.TryClaim? && Enabled(w, a)
    ensures Safe(Next(w, a))
  {
    var r, w' := a.capsule.req, Next(w, a);
    if r in w.claims {
      MoveKeepsSafe(w, a.id, At(w', a.id));
    } else {
      assert forall q :: q in w.log ==> w'.log[q] == w.log[q];
      assert forall q :: StartedIn(w.log, q) <==> StartedIn(w'.log, q);
      forall x | x in w'.workers ensures Grounded(w'.workers[x], w'.log, w'.consumed, w'.sends) {
        if x != a.id {
          assert w'.workers[x] == w.workers[x] && Grounded(w.workers[x], w.log, w.consumed, w.sends);
        }
      }
    }
  }

  lemma RowShape(w: World, a: Action)
    requires Enabled(w, a) && RowOf(w, a).Some?
    ensures var row := RowOf(w, a).value;
            && row.req in w.log && Some(row.req) == ReqOf(At(w, a.id))
            && (row.next == Idle || row.next == MustTrip
                || (row.next.Walking? && At(w, a.id).Walking? && row.next.capsule == At(w, a.id).capsule))
            && (row.event.kind == SubmissionStarted ==> row.next == Idle && Holds(At(w, a.id), row.req))
  {
  }

  lemma StepKeepsSafe(w: World, a: Action)
    requires Safe(w) && Enabled(w, a)
    ensures Safe(Next(w, a))
  {
    if RowOf(w, a).Some? {
      RowShape(w, a);
      var row := RowOf(w, a).value;
      AppendKeepsSafe(w, a.id, row.req, row.event, row.next);
    } else {
      EffectKeepsSafe(w, a);
    }
  }

  lemma EffectKeepsSafe(w: World, a: Action)
    requires Safe(w) && Enabled(w, a) && RowOf(w, a).None?
    ensures Safe(Effect(w, a))
  {
    if a.TryClaim? {
      ClaimKeepsSafe(w, a);
    } else if a.CommitPermit? {
      CommitKeepsSafe(w, a);
    } else if a.OrderSend? {
      SendKeepsSafe(w, a);
    } else if !a.IssuePermit? && !a.MoveBook? {
      EffectIsMove(w, a);
      MoveKeepsSafe(w, a.id, At(Effect(w, a), a.id));
    }
  }

  /** Apart from claims, commits, sends and the environment, an effect only moves its worker (and may
      halt), never to a stage that holds a request. */
  lemma EffectIsMove(w: World, a: Action)
    requires Enabled(w, a) && !a.TryClaim? && !a.CommitPermit? && !a.OrderSend? && !a.IssuePermit? && !a.MoveBook?
    ensures var s := At(Effect(w, a), a.id);
            && Effect(w, a).(halted := w.halted) == Move(w, a.id, s)
            && !s.Walking? && !s.Committed? && !s.AwaitingReply?
  {
  }

  lemma OwnStageOnly(w: World, a: Action)
    requires Enabled(w, a)
    ensures if a.IssuePermit? || a.MoveBook? then Next(w, a).workers == w.workers
            else Next(w, a).workers == w.workers[a.id := At(Next(w, a), a.id)]
  {
    if RowOf(w, a).Some? {
      var row := RowOf(w, a).value;
      RowShape(w, a);
      AppendShape(w, a.id, row.req, row.event, row.next);
    } else {
      OwnStageOnlyInEffect(w, a);
    }
  }

  lemma OwnStageOnlyInEffect(w: World, a: Action)
    requires Enabled(w, a)
    ensures if a.IssuePermit? || a.MoveBook? then Effect(w, a).workers == w.workers
            else Effect(w, a).workers == w.workers[a.id := At(Effect(w, a), a.id)]
  {
    if !a.TryClaim? && !a.CommitPermit? && !a.OrderSend? && !a.IssuePermit? && !a.MoveBook? {
      EffectIsMove(w, a);
    }
  }

  lemma {:induction false} RunsAreSafe(ws: seq<World>, acts: seq<Action>)
    requires IsRun(ws, acts)
    ensures forall i :: 0 <= i < |ws| ==> Safe(ws[i])
    decreases |acts|
  {
    if acts == [] {
      assert Safe(INITIAL);
    } else {
      var n := |acts| - 1;
      RunsAreSafe(ws[..n + 1], acts[..n]);
      assert Safe(ws[n]) by { assert ws[n] == ws[..n + 1][n]; }
      StepKeepsSafe(ws[n], acts[n]);
      forall i | 0 <= i < |ws| ensures Safe(ws[i]) {
        if i <= n { assert ws[i] == ws[..n + 1][i]; }
      }
    }
  }

  // ---------------------------------------------------------------------------------------------
  // Main results for any number of workers
  // ---------------------------------------------------------------------------------------------

  /** In every state of every run: at most one `order_send` per request and at most one per permit,
      only for the configured capsule, and only with the permit's consumption by that request and the
      request's SUBMISSION_STARTED both durable. */
  lemma OrderSendAtMostOnce(ws: seq<World>, acts: seq<Action>, k: nat)
    requires IsRun(ws, acts) && k < |ws|
    ensures forall i, j :: 0 <= i < j < |ws[k].sends| ==>
                             ws[k].sends[i].req != ws[k].sends[j].req && ws[k].sends[i].permit != ws[k].sends[j].permit
    ensures forall i :: 0 <= i < |ws[k].sends| ==>
                          var s := ws[k].sends[i];
                          && s.capsule == s.configured
                          && s.permit in ws[k].consumed && ws[k].consumed[s.permit] == s.req
                          && StartedIn(ws[k].log, s.req)
  {
    RunsAreSafe(ws, acts);
    assert Safe(ws[k]);
  }

  ghost predicate LogGrows(log: Log, log': Log) {
    forall q :: q in log ==> q in log' && log[q] <= log'[q]
  }

  lemma AppendShape(w: World, id: WorkerId, r: RequestId, e: ExecutionEvent, next: Stage)
    requires r in w.log
    ensures var w' := Append(w, id, r, e, next);
            w' == Move(w, id, next) || w' == Move(w, id, Idle)
              || w' == Move(w, id, next).(log := w.log[r := w.log[r] + [e]])
  {
  }

  lemma AppendFrame(w: World, id: WorkerId, r: RequestId, e: ExecutionEvent, next: Stage, w': World)
    requires r in w.log && !next.Committed?
    requires w' == Move(w, id, next) || w' == Move(w, id, Idle)
             || w' == Move(w, id, next).(log := w.log[r := w.log[r] + [e]])
    ensures LogGrows(w.log, w'.log) && w'.sends == w.sends
    ensures forall x :: At(w', x).Committed? ==> At(w', x) == At(w, x)
  {
  }

  lemma EffectGrowsLog(w: World, a: Action)
    requires Safe(w) && Enabled(w, a)
    ensures LogGrows(w.log, Effect(w, a).log)
  {
    if !a.TryClaim? && !a.CommitPermit? && !a.OrderSend? && !a.IssuePermit? && !a.MoveBook? {
      EffectIsMove(w, a);
    }
  }

  lemma EffectCommits(w: World, a: Action, id: WorkerId)
    requires Enabled(w, a) && At(Effect(w, a), id).Committed?
    ensures At(w, id) == At(Effect(w, a), id)
            || (a.CommitPermit? && a.id == id && !HasKind(w.log[At(w, id).capsule.req], SubmissionStarted))
  {
    if !a.TryClaim? && !a.CommitPermit? && !a.OrderSend? && !a.IssuePermit? && !a.MoveBook? {
      EffectIsMove(w, a);
    }
  }

  lemma LogsOnlyGrow(w: World, a: Action)
    requires Safe(w) && Enabled(w, a)
    ensures LogGrows(w.log, Next(w, a).log)
  {
    if RowOf(w, a).Some? {
      RowShape(w, a);
      var row := RowOf(w, a).value;
      AppendShape(w, a.id, row.req, row.event, row.next);
      AppendFrame(w, a.id, row.req, row.event, row.next, Next(w, a));
    } else {
      EffectGrowsLog(w, a);
    }
  }

  lemma SendsOnlyGrowByOrderSend(w: World, a: Action)
    requires Enabled(w, a)
    ensures !a.OrderSend? ==> Next(w, a).sends == w.sends
  {
    if RowOf(w, a).Some? {
      RowShape(w, a);
      var row := RowOf(w, a).value;
      AppendShape(w, a.id, row.req, row.event, row.next);
    } else {
      EffectKeepsSends(w, a);
    }
  }

  lemma EffectKeepsSends(w: World, a: Action)
    requires Enabled(w, a)
    ensures !a.OrderSend? ==> Effect(w, a).sends == w.sends
  {
  }

  lemma CommittedOnlyByCommit(w: World, a: Action, id: WorkerId)
    requires Enabled(w, a) && At(Next(w, a), id).Committed?
    ensures At(w, id) == At(Next(w, a), id)
            || (a.CommitPermit? && a.id == id && !HasKind(w.log[At(w, id).capsule.req], SubmissionStarted))
  {
    if RowOf(w, a).Some? {
      RowShape(w, a);
      var row := RowOf(w, a).value;
      AppendShape(w, a.id, row.req, row.event, row.next);
      AppendFrame(w, a.id, row.req, row.event, row.next, Next(w, a));
    } else {
      EffectCommits(w, a, id);
    }
  }

  /** The transaction that took a worker to `Committed`: before it neither half is durable, after it
      both are. */
  ghost predicate CommitsTogether(before: World, a: Action, after: World, id: WorkerId, r: RequestId, p: PermitId) {
    && a.CommitPermit? && a.id == id
    && p !in before.consumed && !StartedIn(before.log, r)
    && p in after.consumed && after.consumed[p] == r && StartedIn(after.log, r)
  }

  lemma CommitStep(w: World, a: Action)
    requires Enabled(w, a) && a.CommitPermit? && !HasKind(w.log[At(w, a.id).capsule.req], SubmissionStarted)
    ensures var s := At(Next(w, a), a.id);
            s.Committed? && s.setup.Canary? && CommitsTogether(w, a, Next(w, a), a.id, s.capsule.req, s.setup.permit)
  {
    Extended(w.log, At(w, a.id).capsule.req, Started(a.entry, a.stopLoss));
  }

  lemma {:induction false} CommittedHasCommit(ws: seq<World>, acts: seq<Action>, k: nat, id: WorkerId)
    requires IsRun(ws, acts) && k < |ws| && At(ws[k], id).Committed?
    ensures At(ws[k], id).setup.Canary?
    ensures exists j ::
              0 <= j < k
              && CommitsTogether(ws[j], acts[j], ws[j + 1], id, At(ws[k], id).capsule.req, At(ws[k], id).setup.permit)
    decreases k
  {
    RunsAreSafe(ws, acts);
    assert Safe(ws[k]) && Safe(ws[k - 1]);
    assert Grounded(ws[k].workers[id], ws[k].log, ws[k].consumed, ws[k].sends);
    var a := acts[k - 1];
    assert Enabled(ws[k - 1], a) && ws[k] == Next(ws[k - 1], a);
    CommittedOnlyByCommit(ws[k - 1], a, id);
    if At(ws[k - 1], id) == At(ws[k], id) {
      CommittedHasCommit(ws, acts, k - 1, id);
    } else {
      CommitStep(ws[k - 1], a);
      assert CommitsTogether(ws[k - 1], acts[k - 1], ws[k - 1 + 1], id, At(ws[k], id).capsule.req,
                             At(ws[k], id).setup.permit);
    }
  }

  /** Every `order_send` is preceded, in the same worker, by the commit that made both halves durable. */
  lemma SendFollowsCommit(ws: seq<World>, acts: seq<Action>, k: nat)
    requires IsRun(ws, acts) && k < |acts| && acts[k].OrderSend?
    ensures |ws[k + 1].sends| == |ws[k].sends| + 1
    ensures var s := ws[k + 1].sends[|ws[k].sends|];
            exists j :: 0 <= j < k && CommitsTogether(ws[j], acts[j], ws[j + 1], acts[k].id, s.req, s.permit)
  {
    assert Enabled(ws[k], acts[k]) && ws[k + 1] == Next(ws[k], acts[k]);
    CommittedHasCommit(ws, acts, k, acts[k].id);
  }

  // ---------------------------------------------------------------------------------------------
  // When a committed request can still be sent
  // ---------------------------------------------------------------------------------------------

  /** Any continuation, from any world. */
  ghost predicate IsPath(ws: seq<World>, acts: seq<Action>) {
    && |ws| == |acts| + 1
    && forall i :: 0 <= i < |acts| ==> Enabled(ws[i], acts[i]) && ws[i + 1] == Next(ws[i], acts[i])
  }

  predicate SentIn(sends: seq<Send>, r: RequestId) {
    exists i :: 0 <= i < |sends| && sends[i].req == r
  }

  ghost predicate CanStillSend(w: World, r: RequestId) {
    exists ws: seq<World>, acts: seq<Action> :: IsPath(ws, acts) && ws[0] == w && !SentIn(w.sends, r)
      && SentIn(ws[|acts|].sends, r)
  }

  ghost predicate HeldCommitted(w: World, r: RequestId) {
    exists id :: id in w.workers && w.workers[id].Committed? && w.workers[id].capsule.req == r
  }

  lemma NoHolderStaysSo(w: World, a: Action, r: RequestId)
    requires Safe(w) && Enabled(w, a) && StartedIn(w.log, r) && !HeldCommitted(w, r)
    ensures StartedIn(Next(w, a).log, r) && !HeldCommitted(Next(w, a), r)
    ensures SentIn(Next(w, a).sends, r) ==> SentIn(w.sends, r)
  {
    var w' := Next(w, a);
    LogsOnlyGrow(w, a);
    SendsOnlyGrowByOrderSend(w, a);
    forall id | id in w'.workers && w'.workers[id].Committed? ensures w'.workers[id].capsule.req != r {
      CommittedOnlyByCommit(w, a, id);
      if At(w, id) != At(w', id) {
        assert Grounded(w.workers[id], w.log, w.consumed, w.sends);
        CommitStep(w, a);
      }
    }
    var i :| 0 <= i < |w.log[r]| && w.log[r][i].kind == SubmissionStarted;
    assert w'.log[r][i].kind == SubmissionStarted;
    if a.OrderSend? {
      assert w.workers[a.id].Committed? && w.workers[a.id].capsule.req != r;
      assert forall k :: 0 <= k < |w'.sends| && w'.sends[k].req == r ==> w.sends[k].req == r;
    }
  }

  lemma {:induction false} NoHolderNoSend(ws: seq<World>, acts: seq<Action>, r: RequestId)
    requires IsPath(ws, acts) && Safe(ws[0]) && StartedIn(ws[0].log, r) && !HeldCommitted(ws[0], r)
    ensures SentIn(ws[|acts|].sends, r) ==> SentIn(ws[0].sends, r)
    decreases |acts|
  {
    if acts == [] {
    } else {
      StepKeepsSafe(ws[0], acts[0]);
      NoHolderStaysSo(ws[0], acts[0], r);
      NoHolderNoSend(ws[1..], acts[1..], r);
      assert ws[1..][|acts| - 1] == ws[|acts|];
    }
  }

  /** Once SUBMISSION_STARTED is durable, the order can still go out exactly when some worker is alive
      between its commit and its send. */
  lemma StartedCanStillSendExactlyWhenHeld(w: World, r: RequestId)
    requires Safe(w) && StartedIn(w.log, r)
    ensures CanStillSend(w, r) <==> HeldCommitted(w, r)
  {
    if HeldCommitted(w, r) {
      var id :| id in w.workers && w.workers[id].Committed? && w.workers[id].capsule.req == r;
      assert Grounded(w.workers[id], w.log, w.consumed, w.sends);
      var w' := Next(w, OrderSend(id));
      assert w'.sends[|w.sends|].req == r;
      assert IsPath([w, w'], [OrderSend(id)]);
      assert CanStillSend(w, r);
    }
    if CanStillSend(w, r) {
      var ws: seq<World>, acts: seq<Action> :| IsPath(ws, acts) && ws[0] == w && !SentIn(w.sends, r)
          && SentIn(ws[|acts|].sends, r);
      if !HeldCommitted(w, r) {
        NoHolderNoSend(ws, acts, r);
      }
    }
  }
}
