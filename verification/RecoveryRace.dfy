/**
 Concrete runs, built one step at a time: with two workers a recovery verdict can be overtaken by the send
 it ruled out; with one, an order can fill between the two reads of recovery, and a worker can die between
 recording duplicates and tripping the switch.
 */
module RecoveryRace {
  import opened ExecutionEvents
  import opened ExecutionProtocol
  import opened ExecutionHistory
  import opened RecoveryReads

  const R: RequestId := RequestId(1, 77)
  const C: Capsule := Capsule(7, R, 3)
  const S: Setup := Canary(0, 7)

  /** The log just after worker 1 committed. */
  const COMMITTED_LOG: seq<ExecutionEvent> :=
    [Bare(RequestClaimed), Bare(FinalRiskPassed), Bare(OrderChecked), Bare(SubmissionGatePassed), Started(Market, 1.0)]

  const COMMITTED_WORLD: World :=
    World(map[R := Claim(7, 3)], map[R := COMMITTED_LOG], {0}, map[0 := R], [], false, Book([], []),
          map[1 := Committed(C, S)])

  lemma Inserted(w: World, id: WorkerId, e: ExecutionEvent, next: Stage, h: seq<ExecutionEvent>)
    requires R in w.log && h == w.log[R] + [e] && forall i :: 0 <= i < |w.log[R]| ==> w.log[R][i].kind != e.kind
    ensures Append(w, id, R, e, next) == Move(w, id, next).(log := w.log[R := h])
  {
  }

  function PointAt(n: nat): ChainPoint
    requires n < 5
  {
    [ClaimInserted, ClaimLogged, RiskPassed, OrderAccepted, GateOpen][n]
  }

  function StepAt(n: nat): Action
    requires n < 4
  {
    [LogClaim(1), PassRisk(1), PassCheck(1), PassGate(1)][n]
  }

  /** Worker 1 has logged the first `n` events of its chain. */
  function Walked(n: nat): World
    requires n < 5
  {
    World(map[R := Claim(7, 3)], map[R := COMMITTED_LOG[..n]], {0}, map[], [], false, Book([], []),
          map[1 := Walking(C, S, PointAt(n))])
  }

  lemma WalkStep(n: nat)
    requires n < 4
    ensures Enabled(Walked(n), StepAt(n)) && Next(Walked(n), StepAt(n)) == Walked(n + 1)
  {
    Inserted(Walked(n), 1, COMMITTED_LOG[n], Walking(C, S, PointAt(n + 1)), COMMITTED_LOG[..n + 1]);
    assert RowOf(Walked(n), StepAt(n)) == Some(Row(R, COMMITTED_LOG[n], Walking(C, S, PointAt(n + 1))));
  }

  lemma CommitStepOf()
    ensures Enabled(Walked(4), CommitPermit(1, Market, 1.0))
            && Next(Walked(4), CommitPermit(1, Market, 1.0)) == COMMITTED_WORLD
  {
    assert COMMITTED_LOG[..4] + [COMMITTED_LOG[4]] == COMMITTED_LOG;
  }

  lemma OneMore(ws: seq<World>, acts: seq<Action>, a: Action)
    requires IsPath(ws, acts) && Enabled(ws[|acts|], a)
    ensures IsPath(ws + [Next(ws[|acts|], a)], acts + [a])
  {
    var vs, bs := ws + [Next(ws[|acts|], a)], acts + [a];
    forall i | 0 <= i < |bs| ensures Enabled(vs[i], bs[i]) && vs[i + 1] == Next(vs[i], bs[i]) {
      if i < |acts| { assert vs[i] == ws[i] && vs[i + 1] == ws[i + 1] && bs[i] == acts[i]; }
    }
  }

  lemma FirstClaim()
    ensures Enabled(INITIAL, IssuePermit(0)) && Next(INITIAL, IssuePermit(0)) == INITIAL.(permits := {0})
    ensures Enabled(INITIAL.(permits := {0}), TryClaim(1, C, S))
    ensures Next(INITIAL.(permits := {0}), TryClaim(1, C, S)) == Walked(0)
  {
  }

  lemma WorkerOneCommits() returns (ws: seq<World>, acts: seq<Action>)
    ensures IsRun(ws, acts) && ws[|acts|] == COMMITTED_WORLD
    ensures forall i :: 0 <= i < |ws| ==> ws[i].workers.Keys <= {1}
    ensures forall i :: 0 <= i < |acts| ==> !acts[i].MoveBook?
  {
    hide Next, Enabled;
    var w1 := INITIAL.(permits := {0});
    FirstClaim();
    OneMore([INITIAL], [], IssuePermit(0));
    ws, acts := [INITIAL] + [w1], [] + [IssuePermit(0)];
    OneMore(ws, acts, TryClaim(1, C, S));
    ws, acts := ws + [Walked(0)], acts + [TryClaim(1, C, S)];
    for n := 0 to 4
      invariant IsPath(ws, acts) && ws[0] == INITIAL && ws[|acts|] == Walked(n)
      invariant forall i :: 0 <= i < |ws| ==> ws[i].workers.Keys <= {1}
      invariant forall i :: 0 <= i < |acts| ==> !acts[i].MoveBook?
    {
      WalkStep(n);
      OneMore(ws, acts, StepAt(n));
      ws, acts := ws + [Walked(n + 1)], acts + [StepAt(n)];
    }
    CommitStepOf();
    OneMore(ws, acts, CommitPermit(1, Market, 1.0));
    ws, acts := ws + [COMMITTED_WORLD], acts + [CommitPermit(1, Market, 1.0)];
  }

  function Second(s: Stage): World {
    COMMITTED_WORLD.(workers := map[1 := Committed(C, S), 2 := s])
  }

  const OVERTAKEN: World := Second(Idle).(log := map[R := COMMITTED_LOG + [Resolution(false, [])]])

  lemma SecondLosesClaim()
    ensures Enabled(COMMITTED_WORLD, TryClaim(2, C, S))
            && Next(COMMITTED_WORLD, TryClaim(2, C, S)) == Second(LostClaim(R))
  {
  }

  lemma SecondReadsHistory()
    ensures Enabled(Second(LostClaim(R)), ReadHistory(2))
            && Next(Second(LostClaim(R)), ReadHistory(2)) == Second(SawStarted(R))
  {
  }

  lemma SecondReadsPositions()
    ensures Enabled(Second(SawStarted(R)), ReadPositions(2))
            && Next(Second(SawStarted(R)), ReadPositions(2)) == Second(SawPositions(R, []))
  {
  }

  lemma SecondReadsPending()
    ensures Enabled(Second(SawPositions(R, [])), ReadPending(2))
            && Next(Second(SawPositions(R, [])), ReadPending(2)) == Second(SawBook(R, [], []))
  {
  }

  lemma RecoveryRecords()
    ensures Enabled(Second(SawBook(R, [], [])), LogRecovery(2))
            && Next(Second(SawBook(R, [], [])), LogRecovery(2)) == OVERTAKEN
  {
    var w := Second(SawBook(R, [], []));
    assert Tickets([]) == [];
    assert RowOf(w, LogRecovery(2)) == Some(Row(R, Resolution(false, []), Idle));
    Inserted(w, 2, Resolution(false, []), Idle, COMMITTED_LOG + [Resolution(false, [])]);
  }

  lemma WorkerTwoRecovers() returns (ws: seq<World>, acts: seq<Action>)
    ensures IsPath(ws, acts) && ws[0] == COMMITTED_WORLD && ws[|acts|] == OVERTAKEN
  {
    hide Next, Enabled;
    SecondLosesClaim();
    OneMore([COMMITTED_WORLD], [], TryClaim(2, C, S));
    ws, acts := [COMMITTED_WORLD] + [Second(LostClaim(R))], [] + [TryClaim(2, C, S)];
    SecondReadsHistory();
    OneMore(ws, acts, ReadHistory(2));
    ws, acts := ws + [Second(SawStarted(R))], acts + [ReadHistory(2)];
    SecondReadsPositions();
    OneMore(ws, acts, ReadPositions(2));
    ws, acts := ws + [Second(SawPositions(R, []))], acts + [ReadPositions(2)];
    SecondReadsPending();
    OneMore(ws, acts, ReadPending(2));
    ws, acts := ws + [Second(SawBook(R, [], []))], acts + [ReadPending(2)];
    RecoveryRecords();
    OneMore(ws, acts, LogRecovery(2));
    ws, acts := ws + [OVERTAKEN], acts + [LogRecovery(2)];
  }

  lemma Joined(ws: seq<World>, acts: seq<Action>, ws': seq<World>, acts': seq<Action>)
    requires IsRun(ws, acts) && IsPath(ws', acts') && ws'[0] == ws[|acts|]
    ensures IsRun(ws + ws'[1..], acts + acts') && (ws + ws'[1..])[|acts + acts'|] == ws'[|acts'|]
  {
    var vs, bs := ws + ws'[1..], acts + acts';
    forall i | 0 <= i < |bs| ensures Enabled(vs[i], bs[i]) && vs[i + 1] == Next(vs[i], bs[i]) {
      if i >= |acts| {
        assert vs[i] == ws'[i - |acts|] && vs[i + 1] == ws'[i - |acts| + 1] && bs[i] == acts'[i - |acts|];
      }
    }
  }

  /** The one-worker hypothesis of `ResolvedIsNeverSentAgain` is needed: with two workers there is a run
      in which recovery durably records `submitted = false` and the order can still be sent. */
  lemma RecoveryCanBeOvertaken() returns (ws: seq<World>, acts: seq<Action>)
    ensures IsRun(ws, acts)
    ensures var w := ws[|acts|]; R in w.log && w.log[R] == COMMITTED_LOG + [Resolution(false, [])] && CanStillSend(w, R)
  {
    var ws1, acts1 := WorkerOneCommits();
    var ws2, acts2 := WorkerTwoRecovers();
    Joined(ws1, acts1, ws2, acts2);
    ws, acts := ws1 + ws2[1..], acts1 + acts2;
    var w := ws[|acts|];
    RunsAreSafe(ws, acts);
    assert Safe(w);
    assert w.log[R][4].kind == SubmissionStarted;
    assert w.workers[1] == Committed(C, S);
    StartedCanStillSendExactlyWhenHeld(w, R);
  }

  // ---------------------------------------------------------------------------------------------
  // One worker, after its send
  // ---------------------------------------------------------------------------------------------

  const ORDER: PendingOrder := PendingOrder(9, 77)
  const FILLED: Position := Position(9, 77)
  const TWIN: Position := Position(10, 77)

  /** The committed world after the send, with worker 1 alone. */
  function Alone(s: Stage, book: Book): World {
    COMMITTED_WORLD.(sends := [Send(R, 0, 7, 7)], workers := map[1 := s], book := book)
  }

  function Recorded(w: World, e: ExecutionEvent): World {
    w.(log := map[R := COMMITTED_LOG + [e]])
  }

  /** The order is sent, rests, and the worker dies; it comes back and recovers while the order fills. */
  const FILL_ACTIONS: seq<Action> := [
    OrderSend(1), MoveBook(Book([], [ORDER])), Crash(1), TryClaim(1, C, S), ReadHistory(1), ReadPositions(1),
    MoveBook(Book([FILLED], [])), ReadPending(1), LogRecovery(1)]

  const FILL_MOVES: seq<BrokerMove> := [
    Place(ORDER), Place(ORDER), Place(ORDER), Place(ORDER), Place(ORDER), Place(ORDER), Fill(ORDER, 9),
    Place(ORDER), Place(ORDER)]

  const FILL_WORLDS: seq<World> := [
    COMMITTED_WORLD,
    Alone(AwaitingReply(C, S), Book([], [])),
    Alone(AwaitingReply(C, S), Book([], [ORDER])),
    Alone(Idle, Book([], [ORDER])),
    Alone(LostClaim(R), Book([], [ORDER])),
    Alone(SawStarted(R), Book([], [ORDER])),
    Alone(SawPositions(R, []), Book([], [ORDER])),
    Alone(SawPositions(R, []), Book([FILLED], [])),
    Alone(SawBook(R, [], []), Book([FILLED], [])),
    Recorded(Alone(Idle, Book([FILLED], [])), Resolution(false, []))]

  lemma SendsAlone()
    ensures Enabled(COMMITTED_WORLD, OrderSend(1))
    ensures Next(COMMITTED_WORLD, OrderSend(1)) == Alone(AwaitingReply(C, S), Book([], []))
  {
  }

  lemma DiesAlone(s: Stage, b: Book)
    ensures Enabled(Alone(s, b), Crash(1)) && Next(Alone(s, b), Crash(1)) == Alone(Idle, b)
  {
  }

  lemma LosesClaimAlone(b: Book)
    ensures Enabled(Alone(Idle, b), TryClaim(1, C, S))
    ensures Next(Alone(Idle, b), TryClaim(1, C, S)) == Alone(LostClaim(R), b)
  {
  }

  lemma ReadsHistoryAlone(b: Book)
    ensures Enabled(Alone(LostClaim(R), b), ReadHistory(1))
    ensures Next(Alone(LostClaim(R), b), ReadHistory(1)) == Alone(SawStarted(R), b)
  {
  }

  /** Sent, and started again over a book that has moved. */
  lemma SendAndClaimAgain(b: Book)
    ensures Enabled(COMMITTED_WORLD, OrderSend(1))
    ensures Next(COMMITTED_WORLD, OrderSend(1)) == Alone(AwaitingReply(C, S), Book([], []))
    ensures Enabled(Alone(AwaitingReply(C, S), Book([], [])), MoveBook(b))
    ensures Next(Alone(AwaitingReply(C, S), Book([], [])), MoveBook(b)) == Alone(AwaitingReply(C, S), b)
    ensures Enabled(Alone(AwaitingReply(C, S), b), Crash(1))
    ensures Next(Alone(AwaitingReply(C, S), b), Crash(1)) == Alone(Idle, b)
    ensures Enabled(Alone(Idle, b), TryClaim(1, C, S))
    ensures Next(Alone(Idle, b), TryClaim(1, C, S)) == Alone(LostClaim(R), b)
    ensures Enabled(Alone(LostClaim(R), b), ReadHistory(1))
    ensures Next(Alone(LostClaim(R), b), ReadHistory(1)) == Alone(SawStarted(R), b)
  {
    hide Next, Enabled;
    SendsAlone();
    BookMoves(AwaitingReply(C, S), Book([], []), b);
    DiesAlone(AwaitingReply(C, S), b);
    LosesClaimAlone(b);
    ReadsHistoryAlone(b);
  }

  lemma AloneReads(b: Book)
    ensures Enabled(Alone(SawStarted(R), b), ReadPositions(1))
    ensures Next(Alone(SawStarted(R), b), ReadPositions(1)) == Alone(SawPositions(R, PositionsWith(b.positions, 77)), b)
    ensures Enabled(Alone(SawPositions(R, []), b), ReadPending(1))
    ensures Next(Alone(SawPositions(R, []), b), ReadPending(1)) == Alone(SawBook(R, [], OrdersWith(b.pending, 77)), b)
  {
  }

  lemma BookMoves(s: Stage, b: Book, b': Book)
    ensures Enabled(Alone(s, b), MoveBook(b')) && Next(Alone(s, b), MoveBook(b')) == Alone(s, b')
  {
  }

  /** A stage at which recovery writes `e`. */
  predicate Writes(s: Stage, e: ExecutionEvent, next: Stage) {
    && (next == Idle || next == MustTrip)
    && ((s.SawBook? && s.req == R && RecoveryVerdict(s.matches, s.orders) == Write(e, next == MustTrip))
        || (s.SawPositions? && s.req == R && s.matches != []
            && RecoveryVerdict(s.matches, []) == Write(e, next == MustTrip)))
  }

  lemma AloneRow(s: Stage, b: Book, e: ExecutionEvent, next: Stage)
    requires Writes(s, e, next)
    ensures RowOf(Alone(s, b), LogRecovery(1)) == Some(Row(R, e, next)) && Enabled(Alone(s, b), LogRecovery(1))
    ensures e.kind == AmbiguousOutcomeResolved
  {
  }

  lemma AloneRecords(s: Stage, b: Book, e: ExecutionEvent, next: Stage)
    requires Writes(s, e, next)
    ensures Enabled(Alone(s, b), LogRecovery(1)) && Next(Alone(s, b), LogRecovery(1)) == Recorded(Alone(next, b), e)
  {
    AloneRow(s, b, e, next);
    hide Enabled, RowOf, Writes;
    Inserted(Alone(s, b), 1, e, next, COMMITTED_LOG + [e]);
  }

  lemma FillPath()
    ensures IsPath(FILL_WORLDS, FILL_ACTIONS)
  {
    hide Next, Enabled, RecoveryVerdict;
    var b1, b2 := Book([], [ORDER]), Book([FILLED], []);
    SendAndClaimAgain(b1);
    AloneReads(b1);
    BookMoves(SawPositions(R, []), b1, b2);
    AloneReads(b2);
    NothingMeansFalse();
    AloneRecords(SawBook(R, [], []), b2, Resolution(false, []), Idle);
    forall n | 0 <= n < 9
      ensures Enabled(FILL_WORLDS[n], FILL_ACTIONS[n]) && FILL_WORLDS[n + 1] == Next(FILL_WORLDS[n], FILL_ACTIONS[n]) {
    }
  }

  lemma NothingMeansFalse()
    ensures RecoveryVerdict([], []) == Write(Resolution(false, []), false)
  {
    assert Tickets([]) == [];
  }

  lemma AloneIsSolo(ws: seq<World>, acts: seq<Action>)
    requires IsRun(ws, acts) && forall i :: 0 <= i < |ws| ==> ws[i].workers.Keys <= {1}
    ensures IsSoloRun(ws, acts)
  {
    forall i | 0 <= i < |ws| ensures OneAtATime(ws[i]) {
      assert forall a :: a in ws[i].workers ==> a in {1};
    }
  }

  lemma FillMovesFit(n: nat)
    requires n == 1 || n == 6
    ensures CanMove(FILL_WORLDS[n].book, FILL_MOVES[n])
            && FILL_ACTIONS[n] == MoveBook(Moved(FILL_WORLDS[n].book, FILL_MOVES[n]))
  {
    assert WithoutOrder([ORDER], ORDER) == [];
  }

  /** A run of one worker over a broker that only places and fills: recovery durably records
      `submitted = false` over the position its order became between the two reads. */
  lemma OneWorkerRecordsFalseOverAFill() returns (ws: seq<World>, acts: seq<Action>, moves: seq<BrokerMove>, k: nat)
    ensures IsSoloRun(ws, acts) && BrokerMoves(ws, acts, moves) && k < |acts| && WritesFalse(ws[k], acts[k])
    ensures ShowsPosition(ws[k + 1].book, R.magic) && R in ws[k + 1].log
            && ws[k + 1].log[R] == COMMITTED_LOG + [Resolution(false, [])]
  {
    var ws1, acts1 := WorkerOneCommits();
    FillPath();
    Joined(ws1, acts1, FILL_WORLDS, FILL_ACTIONS);
    ws, acts := ws1 + FILL_WORLDS[1..], acts1 + FILL_ACTIONS;
    var before: seq<BrokerMove> := seq(|acts1|, _ => Place(ORDER));
    moves := before + FILL_MOVES;
    FillMovesAlong(ws1, acts1, before);
    AloneIsSolo(ws, acts);
    hide IsRun, BrokerMoves;
    k := |acts1| + 8;
    assert ws[k] == FILL_WORLDS[8] && ws[k + 1] == FILL_WORLDS[9] && acts[k] == LogRecovery(1);
    FalseRowSawNothing(ws[k], acts[k]);
  }

  lemma FillMovesAlong(ws: seq<World>, acts: seq<Action>, before: seq<BrokerMove>)
    requires |ws| == |acts| + 1 && |before| == |acts| && ws[|acts|] == FILL_WORLDS[0]
    requires forall i :: 0 <= i < |acts| ==> !acts[i].MoveBook?
    ensures BrokerMoves(ws + FILL_WORLDS[1..], acts + FILL_ACTIONS, before + FILL_MOVES)
  {
    var ws', acts', moves := ws + FILL_WORLDS[1..], acts + FILL_ACTIONS, before + FILL_MOVES;
    forall t | 0 <= t < |acts'| && acts'[t].MoveBook?
      ensures CanMove(ws'[t].book, moves[t]) && acts'[t].book == Moved(ws'[t].book, moves[t]) {
      assert t >= |acts|;
      var n := t - |acts|;
      assert acts'[t] == FILL_ACTIONS[n];
      assert n == 1 || n == 6;
      assert moves[t] == FILL_MOVES[n] && ws'[t].book == FILL_WORLDS[n].book;
      FillMovesFit(n);
    }
  }

  /** The worker finds two positions with its magic, records that, and dies before it trips the switch. */
  const TWIN_ACTIONS: seq<Action> := [
    OrderSend(1), MoveBook(Book([FILLED, TWIN], [])), Crash(1), TryClaim(1, C, S), ReadHistory(1), ReadPositions(1),
    LogRecovery(1), Crash(1)]

  const TWINS: Book := Book([FILLED, TWIN], [])

  const TWIN_WORLDS: seq<World> := [
    COMMITTED_WORLD,
    Alone(AwaitingReply(C, S), Book([], [])),
    Alone(AwaitingReply(C, S), TWINS),
    Alone(Idle, TWINS),
    Alone(LostClaim(R), TWINS),
    Alone(SawStarted(R), TWINS),
    Alone(SawPositions(R, [FILLED, TWIN]), TWINS),
    Recorded(Alone(MustTrip, TWINS), Ambiguity([9, 10])),
    Recorded(Alone(Idle, TWINS), Ambiguity([9, 10]))]

  lemma TwinPath()
    ensures IsPath(TWIN_WORLDS, TWIN_ACTIONS)
  {
    hide Next, Enabled, RecoveryVerdict;
    SendAndClaimAgain(TWINS);
    AloneReads(TWINS);
    TwinsMeanAmbiguity();
    AloneRecords(SawPositions(R, [FILLED, TWIN]), TWINS, Ambiguity([9, 10]), MustTrip);
    DiesAboutToTrip();
    forall n | 0 <= n < 8
      ensures Enabled(TWIN_WORLDS[n], TWIN_ACTIONS[n]) && TWIN_WORLDS[n + 1] == Next(TWIN_WORLDS[n], TWIN_ACTIONS[n]) {
    }
  }

  lemma TwinsMeanAmbiguity()
    ensures PositionsWith(TWINS.positions, 77) == [FILLED, TWIN]
    ensures RecoveryVerdict([FILLED, TWIN], []) == Write(Ambiguity([9, 10]), true)
  {
    assert PositionsWith([TWIN], 77) == [TWIN];
    assert PositionsWith([FILLED, TWIN], 77) == [FILLED, TWIN] by { assert [FILLED, TWIN][1..] == [TWIN]; }
    assert Tickets([FILLED, TWIN]) == [9, 10];
  }

  lemma DiesAboutToTrip()
    ensures var w := Recorded(Alone(MustTrip, TWINS), Ambiguity([9, 10]));
            Enabled(w, Crash(1)) && Next(w, Crash(1)) == Recorded(Alone(Idle, TWINS), Ambiguity([9, 10]))
  {
  }

  /** A run of one worker in which duplicates are durably on record and the system is not halted. */
  lemma DuplicatesCanStayUnhalted() returns (ws: seq<World>, acts: seq<Action>)
    ensures IsSoloRun(ws, acts)
    ensures var w := ws[|acts|]; Ambiguous(w.log, R) && !w.halted && !AboutToTrip(w)
  {
    var ws1, acts1 := WorkerOneCommits();
    TwinPath();
    Joined(ws1, acts1, TWIN_WORLDS, TWIN_ACTIONS);
    ws, acts := ws1 + TWIN_WORLDS[1..], acts1 + TWIN_ACTIONS;
    assert ws[|acts|] == TWIN_WORLDS[8];
    AloneIsSolo(ws, acts);
  }
}
