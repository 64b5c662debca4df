/**
 What a recovery row says about the broker, over whole runs.  Recovery reads positions and then pending
 orders; the broker may move in between.  And what a row about duplicates says about the kill switch,
 which is tripped only after the row is durable.
 */
module RecoveryReads {
  import opened ExecutionEvents
  import opened ExpectedExposure
  import opened ExecutionProtocol

  // ---------------------------------------------------------------------------------------------
  // The broker's moves
  // ---------------------------------------------------------------------------------------------

  datatype BrokerMove =
    | Place(order: PendingOrder)
    | Fill(order: PendingOrder, ticket: Ticket)
    | Cancel(order: PendingOrder)
    | Close(ticket: Ticket)

  function WithoutTicket(ps: seq<Position>, ticket: Ticket): (r: seq<Position>)
    ensures forall p :: p in r <==> p in ps && p.ticket != ticket
  {
    if ps == [] then []
    else (if ps[0].ticket == ticket then [] else [ps[0]]) + WithoutTicket(ps[1..], ticket)
  }

  function WithoutOrder(os: seq<PendingOrder>, order: PendingOrder): (r: seq<PendingOrder>)
    ensures forall o :: o in r <==> o in os && o != order
  {
    if os == [] then []
    else (if os[0] == order then [] else [os[0]]) + WithoutOrder(os[1..], order)
  }

  /** Only a resting order fills or is cancelled, and only an open position closes. */
  predicate CanMove(b: Book, m: BrokerMove) {
    match m
    case Place(o) => o !in b.pending
    case Fill(o, ticket) => o in b.pending && forall p :: p in b.positions ==> p.ticket != ticket
    case Cancel(o) => o in b.pending
    case Close(ticket) => exists p :: p in b.positions && p.ticket == ticket
  }

  function Moved(b: Book, m: BrokerMove): Book {
    match m
    case Place(o) => Book(b.positions, b.pending + [o])
    case Fill(o, ticket) => Book(b.positions + [Position(ticket, o.magic)], WithoutOrder(b.pending, o))
    case Cancel(o) => Book(b.positions, WithoutOrder(b.pending, o))
    case Close(ticket) => Book(WithoutTicket(b.positions, ticket), b.pending)
  }

  /** Every movement of the book in the run is the broker move listed for that step. */
  ghost predicate BrokerMoves(ws: seq<World>, acts: seq<Action>, moves: seq<BrokerMove>) {
    && |moves| == |acts| && |ws| == |acts| + 1
    && forall t :: 0 <= t < |acts| && acts[t].MoveBook? ==>
                     CanMove(ws[t].book, moves[t]) && acts[t].book == Moved(ws[t].book, moves[t])
  }

  predicate FillsAt(acts: seq<Action>, moves: seq<BrokerMove>, t: nat, magic: nat, ticket: Ticket)
    requires t < |acts| == |moves|
  {
    acts[t].MoveBook? && moves[t].Fill? && moves[t].order.magic == magic && moves[t].ticket == ticket
  }

  predicate ClosesAt(acts: seq<Action>, moves: seq<BrokerMove>, t: nat, ticket: Ticket)
    requires t < |acts| == |moves|
  {
    acts[t].MoveBook? && moves[t] == Close(ticket)
  }

  predicate PlacesAt(acts: seq<Action>, moves: seq<BrokerMove>, t: nat, magic: nat)
    requires t < |acts| == |moves|
  {
    acts[t].MoveBook? && moves[t].Place? && moves[t].order.magic == magic
  }

  /** A fill of that magic at one of the steps `start..stop`, whose position is not closed again before
      step `until`. */
  ghost predicate FilledDuring(acts: seq<Action>, moves: seq<BrokerMove>, magic: nat, start: nat, stop: nat, until: nat)
    requires stop <= until <= |acts| == |moves|
  {
    exists t, ticket :: start <= t < stop && FillsAt(acts, moves, t, magic, ticket)
                        && forall u :: t < u < until ==> !ClosesAt(acts, moves, u, ticket)
  }

  ghost predicate ShowsPosition(b: Book, magic: nat) {
    PositionsWith(b.positions, magic) != []
  }

  // ---------------------------------------------------------------------------------------------
  // The book between two steps of a run
  // ---------------------------------------------------------------------------------------------

  lemma OnlyMoveBookMovesTheBook(w: World, a: Action)
    requires Enabled(w, a)
    ensures Next(w, a).book == if a.MoveBook? then a.book else w.book
  {
    if RowOf(w, a).Some? {
      RowShape(w, a);
      var row := RowOf(w, a).value;
      AppendShape(w, a.id, row.req, row.event, row.next);
    } else {
      EffectMovesTheBook(w, a);
    }
  }

  lemma EffectMovesTheBook(w: World, a: Action)
    requires Enabled(w, a)
    ensures Effect(w, a).book == if a.MoveBook? then a.book else w.book
  {
  }

  /** The steps `start..stop` hold a fill of exactly this ticket and magic that is still open at `stop`. */
  ghost predicate OpenSince(acts: seq<Action>, moves: seq<BrokerMove>, magic: nat, ticket: Ticket, start: nat,
                            stop: nat)
    requires stop <= |acts| == |moves|
  {
    exists t :: start <= t < stop && FillsAt(acts, moves, t, magic, ticket)
                && forall u :: t < u < stop ==> !ClosesAt(acts, moves, u, ticket)
  }

  lemma OpenSinceStep(acts: seq<Action>, moves: seq<BrokerMove>, magic: nat, ticket: Ticket, start: nat, stop: nat)
    requires start <= stop < |acts| == |moves|
    ensures OpenSince(acts, moves, magic, ticket, start, stop + 1) <==>
            FillsAt(acts, moves, stop, magic, ticket)
            || (OpenSince(acts, moves, magic, ticket, start, stop) && !ClosesAt(acts, moves, stop, ticket))
  {
    if OpenSince(acts, moves, magic, ticket, start, stop) && !ClosesAt(acts, moves, stop, ticket) {
      var t :| start <= t < stop && FillsAt(acts, moves, t, magic, ticket)
               && forall u :: t < u < stop ==> !ClosesAt(acts, moves, u, ticket);
      assert forall u :: t < u < stop + 1 ==> !ClosesAt(acts, moves, u, ticket);
    }
  }

  /** From a book without that magic: a position of that magic and ticket is open exactly when a fill since
      then opened it and no close followed. */
  lemma {:induction false} OpenExactlyWhenFilled(ws: seq<World>, acts: seq<Action>, moves: seq<BrokerMove>,
                                                 magic: nat, ticket: Ticket, start: nat, stop: nat)
    requires IsRun(ws, acts) && BrokerMoves(ws, acts, moves) && start <= stop <= |acts|
    requires !ShowsPosition(ws[start].book, magic)
    ensures Position(ticket, magic) in ws[stop].book.positions <==> OpenSince(acts, moves, magic, ticket, start, stop)
    decreases stop
  {
    if start == stop {
      assert Position(ticket, magic) !in PositionsWith(ws[start].book.positions, magic);
    } else {
      var u := stop - 1;
      OpenExactlyWhenFilled(ws, acts, moves, magic, ticket, start, u);
      OpenSinceStep(acts, moves, magic, ticket, start, u);
      assert Enabled(ws[u], acts[u]) && ws[u + 1] == Next(ws[u], acts[u]);
      OnlyMoveBookMovesTheBook(ws[u], acts[u]);
    }
  }

  lemma ShownExactlyWhenFilled(ws: seq<World>, acts: seq<Action>, moves: seq<BrokerMove>, magic: nat, start: nat,
                               stop: nat)
    requires IsRun(ws, acts) && BrokerMoves(ws, acts, moves) && start <= stop <= |acts|
    requires !ShowsPosition(ws[start].book, magic)
    ensures ShowsPosition(ws[stop].book, magic) <==> FilledDuring(acts, moves, magic, start, stop, stop)
  {
    var ps := PositionsWith(ws[stop].book.positions, magic);
    if ps != [] {
      assert ps[0] in ps && ps[0] == Position(ps[0].ticket, magic);
      OpenExactlyWhenFilled(ws, acts, moves, magic, ps[0].ticket, start, stop);
    }
    if FilledDuring(acts, moves, magic, start, stop, stop) {
      var t, ticket :| start <= t < stop && FillsAt(acts, moves, t, magic, ticket)
                       && forall u :: t < u < stop ==> !ClosesAt(acts, moves, u, ticket);
      OpenExactlyWhenFilled(ws, acts, moves, magic, ticket, start, stop);
      assert Position(ticket, magic) in ps;
    }
  }

  /** With no order of that magic resting and none placed, none can fill. */
  lemma {:induction false} NothingRestsUnlessPlaced(ws: seq<World>, acts: seq<Action>, moves: seq<BrokerMove>,
                                                    magic: nat, start: nat, stop: nat)
    requires IsRun(ws, acts) && BrokerMoves(ws, acts, moves) && start <= stop <= |acts|
    requires OrdersWith(ws[start].book.pending, magic) == []
    requires forall u :: start <= u < stop ==> !PlacesAt(acts, moves, u, magic)
    ensures forall o :: o in ws[stop].book.pending ==> o.magic != magic
    ensures forall u, ticket :: start <= u < stop ==> !FillsAt(acts, moves, u, magic, ticket)
    decreases stop
  {
    if start == stop {
      forall o | o in ws[start].book.pending ensures o.magic != magic {
        assert o !in OrdersWith(ws[start].book.pending, magic);
      }
    } else {
      var u := stop - 1;
      NothingRestsUnlessPlaced(ws, acts, moves, magic, start, u);
      assert Enabled(ws[u], acts[u]) && ws[u + 1] == Next(ws[u], acts[u]);
      OnlyMoveBookMovesTheBook(ws[u], acts[u]);
      assert !PlacesAt(acts, moves, u, magic);
    }
  }

  // ---------------------------------------------------------------------------------------------
  // The two reads behind a row
  // ---------------------------------------------------------------------------------------------

  /** Step `i` of the run is this worker's read of positions, with that result. */
  ghost predicate ReadPositionsAt(ws: seq<World>, acts: seq<Action>, i: nat, id: WorkerId, r: RequestId,
                                  matches: seq<Position>)
    requires i < |acts| < |ws|
  {
    acts[i] == ReadPositions(id) && matches == PositionsWith(ws[i].book.positions, r.magic)
  }

  ghost predicate ReadPendingAt(ws: seq<World>, acts: seq<Action>, j: nat, id: WorkerId, r: RequestId,
                                orders: seq<PendingOrder>)
    requires j < |acts| < |ws|
  {
    acts[j] == ReadPending(id) && orders == OrdersWith(ws[j].book.pending, r.magic)
  }

  /** A worker comes to have seen the book only by reading it. */
  lemma SeesByReading(w: World, a: Action, id: WorkerId)
    requires Enabled(w, a) && At(Next(w, a), id) != At(w, id)
    ensures At(Next(w, a), id).SawPositions? ==>
              && a == ReadPositions(id) && At(w, id) == SawStarted(At(Next(w, a), id).req)
              && At(Next(w, a), id).matches == PositionsWith(w.book.positions, At(Next(w, a), id).req.magic)
    ensures At(Next(w, a), id).SawBook? ==>
              && a == ReadPending(id) && At(w, id) == SawPositions(At(Next(w, a), id).req, [])
              && At(Next(w, a), id).matches == []
              && At(Next(w, a), id).orders == OrdersWith(w.book.pending, At(Next(w, a), id).req.magic)
  {
    OwnStageOnly(w, a);
    if RowOf(w, a).Some? {
      RowShape(w, a);
      var row := RowOf(w, a).value;
      AppendShape(w, a.id, row.req, row.event, row.next);
    } else {
      EffectSeesByReading(w, a);
    }
  }

  lemma EffectSeesByReading(w: World, a: Action)
    requires Enabled(w, a) && !a.IssuePermit? && !a.MoveBook?
    ensures var s := At(Effect(w, a), a.id);
            && (s.SawPositions? ==> a.ReadPositions? && At(w, a.id) == SawStarted(s.req)
                                    && s.matches == PositionsWith(w.book.positions, s.req.magic))
            && (s.SawBook? ==> a.ReadPending? && At(w, a.id) == SawPositions(s.req, []) && s.matches == []
                               && s.orders == OrdersWith(w.book.pending, s.req.magic))
  {
  }

  lemma {:induction false} PositionsWereRead(ws: seq<World>, acts: seq<Action>, k: nat, id: WorkerId)
    requires IsRun(ws, acts) && k < |ws| && At(ws[k], id).SawPositions?
    ensures exists i :: 0 <= i < k && ReadPositionsAt(ws, acts, i, id, At(ws[k], id).req, At(ws[k], id).matches)
    decreases k
  {
    if k == 0 {
    } else {
      var u := k - 1;
      assert Enabled(ws[u], acts[u]) && ws[u + 1] == Next(ws[u], acts[u]);
      if At(ws[u], id) == At(ws[k], id) {
        PositionsWereRead(ws, acts, u, id);
      } else {
        SeesByReading(ws[u], acts[u], id);
        assert ReadPositionsAt(ws, acts, u, id, At(ws[k], id).req, At(ws[k], id).matches);
      }
    }
  }

  /** In every run of any number of workers, a worker that has seen the book saw no position at one step
      and its orders at a later one. */
  lemma {:induction false} BookWasRead(ws: seq<World>, acts: seq<Action>, k: nat, id: WorkerId) returns (i: nat, j: nat)
    requires IsRun(ws, acts) && k < |ws| && At(ws[k], id).SawBook?
    ensures i < j < k && At(ws[k], id).matches == []
    ensures ReadPositionsAt(ws, acts, i, id, At(ws[k], id).req, [])
    ensures ReadPendingAt(ws, acts, j, id, At(ws[k], id).req, At(ws[k], id).orders)
    decreases k
  {
    assert k > 0;
    var u := k - 1;
    assert Enabled(ws[u], acts[u]) && ws[u + 1] == Next(ws[u], acts[u]);
    if At(ws[u], id) == At(ws[k], id) {
      i, j := BookWasRead(ws, acts, u, id);
    } else {
      SeesByReading(ws[u], acts[u], id);
      PositionsWereRead(ws, acts, u, id);
      i :| 0 <= i < u && ReadPositionsAt(ws, acts, i, id, At(ws[u], id).req, At(ws[u], id).matches);
      j := u;
    }
  }

  /** The step writes that nothing was submitted. */
  ghost predicate WritesFalse(w: World, a: Action) {
    && a.LogRecovery? && Enabled(w, a) && RowOf(w, a).Some?
    && var e := RowOf(w, a).value.event; e.payload.Some? && e.payload.value.submitted == Some(false)
  }

  lemma FalseRowSawNothing(w: World, a: Action)
    requires a.LogRecovery? && Enabled(w, a)
    ensures WritesFalse(w, a) <==> At(w, a.id).SawBook? && At(w, a.id).matches == [] && At(w, a.id).orders == []
  {
  }

  // ---------------------------------------------------------------------------------------------
  // Main results
  // ---------------------------------------------------------------------------------------------

  /** Every row that says `submitted = false`, in every run of any number of workers over a broker that
      places, fills, cancels and closes: positions were read at step `i`, pending orders at a later step
      `j`, and neither read showed the request.  When the row is written, a position of the request is
      nevertheless open exactly when its order filled after the first read and was not closed again; and if
      the broker placed no order of it after the second read, exactly when it filled between the two. */
  lemma FalseOverAFillExactlyWhenFilledSinceTheFirstRead(ws: seq<World>, acts: seq<Action>, moves: seq<BrokerMove>,
                                                         k: nat)
    returns (r: RequestId, i: nat, j: nat)
    requires IsRun(ws, acts) && BrokerMoves(ws, acts, moves) && k < |acts| && WritesFalse(ws[k], acts[k])
    ensures i < j < k && r == RowOf(ws[k], acts[k]).value.req
    ensures ReadPositionsAt(ws, acts, i, acts[k].id, r, []) && ReadPendingAt(ws, acts, j, acts[k].id, r, [])
    ensures ShowsPosition(ws[k].book, r.magic) <==> FilledDuring(acts, moves, r.magic, i, k, k)
    ensures (forall u :: j <= u < k ==> !PlacesAt(acts, moves, u, r.magic)) ==>
              (ShowsPosition(ws[k].book, r.magic) <==> FilledDuring(acts, moves, r.magic, i, j, k))
  {
    FalseRowSawNothing(ws[k], acts[k]);
    r := At(ws[k], acts[k].id).req;
    i, j := BookWasRead(ws, acts, k, acts[k].id);
    ShownExactlyWhenFilled(ws, acts, moves, r.magic, i, k);
    if forall u :: j <= u < k ==> !PlacesAt(acts, moves, u, r.magic) {
      NothingRestsUnlessPlaced(ws, acts, moves, r.magic, j, k);
      if FilledDuring(acts, moves, r.magic, i, k, k) {
        var t, ticket :| i <= t < k && FillsAt(acts, moves, t, r.magic, ticket)
                         && forall u :: t < u < k ==> !ClosesAt(acts, moves, u, ticket);
        assert t < j;
      }
    }
  }

  // ---------------------------------------------------------------------------------------------
  // Duplicates and the kill switch
  // ---------------------------------------------------------------------------------------------

  /** The request's last word is that several positions or orders share its magic. */
  predicate Ambiguous(log: Log, r: RequestId) {
    r in log && log[r] != [] && SharesMagic(log[r][|log[r]| - 1])
  }

  ghost predicate AboutToTrip(w: World) {
    exists id :: id in w.workers && w.workers[id] == MustTrip
  }

  /** A worker died between the row and the trip. */
  ghost predicate DiedAboutToTrip(ws: seq<World>, acts: seq<Action>, k: nat)
    requires k <= |acts| < |ws|
  {
    exists j :: 0 <= j < k && acts[j].Crash? && At(ws[j], acts[j].id) == MustTrip
  }

  /** Writing the row leaves its worker about to trip. */
  lemma AmbiguityMustTrip(w: World, a: Action, r: RequestId)
    requires Safe(w) && Enabled(w, a) && Ambiguous(Next(w, a).log, r) && !Ambiguous(w.log, r)
    ensures !a.IssuePermit? && !a.MoveBook? && At(Next(w, a), a.id) == MustTrip
  {
    if RowOf(w, a).Some? {
      RowShape(w, a);
      SharedMagicTrips(w, a);
      var row := RowOf(w, a).value;
      AppendShape(w, a.id, row.req, row.event, row.next);
    } else {
      EffectIsUnambiguous(w, a, r);
    }
  }

  lemma SharedMagicTrips(w: World, a: Action)
    requires Enabled(w, a) && RowOf(w, a).Some?
    ensures SharesMagic(RowOf(w, a).value.event) ==> RowOf(w, a).value.next == MustTrip
  {
  }

  lemma EffectIsUnambiguous(w: World, a: Action, r: RequestId)
    requires Safe(w) && Enabled(w, a) && Ambiguous(Effect(w, a).log, r)
    ensures Ambiguous(w.log, r)
  {
    if !a.TryClaim? && !a.CommitPermit? && !a.OrderSend? && !a.IssuePermit? && !a.MoveBook? {
      EffectIsMove(w, a);
    }
  }

  /** A worker about to trip trips or dies; the switch is never cleared here. */
  lemma TripOrDie(w: World, a: Action, id: WorkerId)
    requires Enabled(w, a)
    ensures w.halted ==> Next(w, a).halted
    ensures At(w, id) == MustTrip ==>
              At(Next(w, a), id) == MustTrip || Next(w, a).halted || a == Crash(id)
  {
    OwnStageOnly(w, a);
    if RowOf(w, a).Some? {
      RowShape(w, a);
      var row := RowOf(w, a).value;
      AppendShape(w, a.id, row.req, row.event, row.next);
    } else {
      EffectTripsOrDies(w, a);
    }
  }

  lemma EffectTripsOrDies(w: World, a: Action)
    requires Enabled(w, a)
    ensures w.halted ==> Effect(w, a).halted
    ensures !a.IssuePermit? && !a.MoveBook? && At(w, a.id) == MustTrip ==> Effect(w, a).halted || a.Crash?
  {
  }

  /** In every run of any number of workers: once duplicates are on record the system is halted, or a worker
      is just about to halt it, or one died at exactly that point. */
  lemma {:induction false} DuplicatesHaltUnlessItDied(ws: seq<World>, acts: seq<Action>, k: nat, r: RequestId)
    requires IsRun(ws, acts) && k < |ws| && Ambiguous(ws[k].log, r)
    ensures ws[k].halted || AboutToTrip(ws[k]) || DiedAboutToTrip(ws, acts, k)
    decreases k
  {
    assert k > 0;
    var u := k - 1;
    assert Enabled(ws[u], acts[u]) && ws[u + 1] == Next(ws[u], acts[u]);
    RunsAreSafe(ws, acts);
    assert Safe(ws[u]);
    if Ambiguous(ws[u].log, r) {
      DuplicatesHaltUnlessItDied(ws, acts, u, r);
      TripOrDie(ws[u], acts[u], 0);
      if !ws[u].halted && !DiedAboutToTrip(ws, acts, u) {
        var id :| id in ws[u].workers && ws[u].workers[id] == MustTrip;
        TripOrDie(ws[u], acts[u], id);
      }
    } else {
      AmbiguityMustTrip(ws[u], acts[u], r);
    }
  }
}
