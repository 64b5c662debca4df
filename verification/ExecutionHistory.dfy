/**
 What one request's durable history can look like when workers take turns (at most one is ever past
 its idle point), each still able to die between any two effects: a prefix of one of twelve words, so
 that the append-once log never meets a second row of the same kind.
 */
module ExecutionHistory {
  import opened ExecutionEvents
  import opened ExpectedExposure
  import opened ExecutionProtocol

  // ---------------------------------------------------------------------------------------------
  // The language
  // ---------------------------------------------------------------------------------------------

  /** Which event may directly follow which. */
  predicate Follows(a: ExecutionEvent, b: ExecutionEvent) {
    match a.kind
    case RequestClaimed => b.kind in {Ineligible, GateClosed, ReconciliationBlocked, FinalRiskBlocked, FinalRiskPassed}
    case FinalRiskPassed => b.kind in {OrderCheckRejected, OrderChecked}
    case OrderChecked => b.kind in {SubmissionGateBlocked, SubmissionGatePassed}
    case SubmissionGatePassed => b.kind in {CanaryPermitBlocked, SubmissionStarted}
    case SubmissionStarted => b.kind in {AmbiguousOutcomeResolved, Filled, Rejected, Submitted}
    case Submitted => b.kind == Filled || SharesMagic(b)
    case AmbiguousOutcomeResolved => !SharesMagic(a) && b.kind == Reconciled
    case Rejected => b.kind == Reconciled
    case _ => false
  }

  ghost predicate InLanguage(h: seq<ExecutionEvent>) {
    && (h != [] ==> h[0].kind == RequestClaimed)
    && (forall i :: 0 < i < |h| ==> Follows(h[i - 1], h[i]))
  }

  function Rank(k: EventType): nat {
    match k
    case RequestClaimed => 0
    case Ineligible | GateClosed | ReconciliationBlocked | FinalRiskBlocked | FinalRiskPassed => 1
    case OrderChecked | OrderCheckRejected => 2
    case SubmissionGatePassed | SubmissionGateBlocked => 3
    case SubmissionStarted | CanaryPermitBlocked => 4
    case Submitted => 5
    case Filled | Rejected | AmbiguousOutcomeResolved | BrokerAck | Closed => 6
    case Reconciled => 7
  }

  lemma {:induction false} RanksIncrease(h: seq<ExecutionEvent>, i: nat, j: nat)
    requires InLanguage(h) && i < j < |h|
    ensures Rank(h[i].kind) < Rank(h[j].kind)
    decreases j
  {
    assert Follows(h[j - 1], h[j]);
    if i < j - 1 { RanksIncrease(h, i, j - 1); }
  }

  /** An event that may follow the last one has a kind the history does not hold yet. */
  lemma FollowerIsNew(h: seq<ExecutionEvent>, e: ExecutionEvent)
    requires InLanguage(h) && h != [] && Follows(h[|h| - 1], e)
    ensures !HasKind(h, e.kind) && InLanguage(h + [e])
  {
    var h' := h + [e];
    assert forall i :: 0 < i < |h'| ==> Follows(h'[i - 1], h'[i]);
    forall i | 0 <= i < |h| ensures h[i].kind != e.kind {
      assert h'[i] == h[i];
      RanksIncrease(h', i, |h|);
    }
  }

  function Kinds(h: seq<ExecutionEvent>): (ks: seq<EventType>)
    ensures |ks| == |h| && forall i :: 0 <= i < |h| ==> ks[i] == h[i].kind
  {
    seq(|h|, i requires 0 <= i < |h| => h[i].kind)
  }

  const CHAIN: seq<EventType> := [RequestClaimed, FinalRiskPassed, OrderChecked, SubmissionGatePassed,
                                  SubmissionStarted]

  /** The complete histories, as words over event kinds. */
  const WORDS: set<seq<EventType>> := {
    [RequestClaimed, Ineligible],
    [RequestClaimed, GateClosed],
    [RequestClaimed, ReconciliationBlocked],
    [RequestClaimed, FinalRiskBlocked],
    [RequestClaimed, FinalRiskPassed, OrderCheckRejected],
    [RequestClaimed, FinalRiskPassed, OrderChecked, SubmissionGateBlocked],
    [RequestClaimed, FinalRiskPassed, OrderChecked, SubmissionGatePassed, CanaryPermitBlocked],
    CHAIN + [AmbiguousOutcomeResolved, Reconciled],
    CHAIN + [Rejected, Reconciled],
    CHAIN + [Filled],
    CHAIN + [Submitted, Filled],
    CHAIN + [Submitted, AmbiguousOutcomeResolved]
  }

  ghost predicate PrefixOfAWord(ks: seq<EventType>) {
    exists w :: w in WORDS && ks <= w
  }

  /** The only path to a kind that has one; empty for the rest. */
  function PathTo(k: EventType): seq<EventType> {
    match k
    case RequestClaimed => [RequestClaimed]
    case Ineligible | GateClosed | ReconciliationBlocked | FinalRiskBlocked | FinalRiskPassed => [RequestClaimed, k]
    case OrderChecked | OrderCheckRejected => [RequestClaimed, FinalRiskPassed, k]
    case SubmissionGatePassed | SubmissionGateBlocked => [RequestClaimed, FinalRiskPassed, OrderChecked, k]
    case SubmissionStarted | CanaryPermitBlocked => [RequestClaimed, FinalRiskPassed, OrderChecked,
                                                     SubmissionGatePassed, k]
    case Submitted => CHAIN + [Submitted]
    case Rejected => CHAIN + [Rejected]
    case _ => []
  }

  lemma {:induction false} OnlyOnePath(h: seq<ExecutionEvent>)
    requires InLanguage(h) && h != [] && PathTo(h[|h| - 1].kind) != []
    ensures Kinds(h) == PathTo(h[|h| - 1].kind)
  {
    var front, last := h[..|h| - 1], h[|h| - 1];
    if front == [] {
    } else {
      assert Follows(front[|front| - 1], last);
      OnlyOnePath(front);
      assert Kinds(h) == Kinds(front) + [last.kind];
    }
  }

  lemma LanguageIsPrefixesOfWords(h: seq<ExecutionEvent>)
    requires InLanguage(h)
    ensures PrefixOfAWord(Kinds(h))
  {
    if h == [] {
      assert Kinds(h) <= [RequestClaimed, Ineligible];
    } else if PathTo(h[|h| - 1].kind) != [] {
      OnlyOnePath(h);
      PathsArePrefixes(h[|h| - 1].kind);
    } else {
      BranchesArePrefixes(h);
    }
  }

  lemma PathsArePrefixes(k: EventType)
    requires PathTo(k) != []
    ensures PrefixOfAWord(PathTo(k))
  {
    assert CHAIN + [Filled] in WORDS && CHAIN + [Submitted, Filled] in WORDS && CHAIN + [Rejected, Reconciled] in WORDS;
    assert PathTo(k) in WORDS || PathTo(k) <= CHAIN + [Filled] || PathTo(k) <= CHAIN + [Submitted, Filled]
           || PathTo(k) <= CHAIN + [Rejected, Reconciled];
  }

  lemma BranchesArePrefixes(h: seq<ExecutionEvent>)
    requires InLanguage(h) && h != [] && PathTo(h[|h| - 1].kind) == []
    ensures PrefixOfAWord(Kinds(h))
  {
    var front, last := h[..|h| - 1], h[|h| - 1];
    var before := front[|front| - 1];
    assert Follows(before, last);
    assert Kinds(h) == Kinds(front) + [last.kind];
    if PathTo(before.kind) != [] {
      OnlyOnePath(front);
      BranchOffThePath(before.kind, last.kind);
    } else {
      var front' := front[..|front| - 1];
      assert Follows(front'[|front'| - 1], before);
      OnlyOnePath(front');
      assert Kinds(front) == Kinds(front') + [before.kind];
      assert CHAIN + [AmbiguousOutcomeResolved] + [Reconciled] == CHAIN + [AmbiguousOutcomeResolved, Reconciled];
    }
  }

  lemma BranchOffThePath(before: EventType, last: EventType)
    requires (before == SubmissionStarted && last in {AmbiguousOutcomeResolved, Filled})
             || (before == Submitted && last in {Filled, AmbiguousOutcomeResolved})
                || (before == Rejected && last == Reconciled)
    ensures PrefixOfAWord(PathTo(before) + [last])
  {
    var ks := PathTo(before) + [last];
    if before == Submitted {
      assert ks == CHAIN + [Submitted, last] && ks in WORDS;
    } else if before == Rejected {
      assert ks == CHAIN + [Rejected, Reconciled] && ks in WORDS;
    } else if last == Filled {
      assert ks == CHAIN + [Filled] && ks in WORDS;
    } else {
      assert ks <= CHAIN + [AmbiguousOutcomeResolved, Reconciled];
    }
  }

  // ---------------------------------------------------------------------------------------------
  // Workers taking turns
  // ---------------------------------------------------------------------------------------------

  /** At most one worker is anywhere but idle. */
  ghost predicate OneAtATime(w: World) {
    forall a, b :: a in w.workers && b in w.workers && w.workers[a] != Idle && w.workers[b] != Idle ==> a == b
  }

  ghost predicate IsSoloRun(ws: seq<World>, acts: seq<Action>) {
    IsRun(ws, acts) && forall i :: 0 <= i < |ws| ==> OneAtATime(ws[i])
  }

  /** The last event a stage relies on is still the last event. */
  predicate Anchored(s: Stage, log: Log) {
    match s
    case Idle | MustTrip | LostClaim(_) => true
    case Walking(c, _, at) =>
      && c.req in log
      && (match at
          case ClaimInserted => log[c.req] == []
          case ClaimLogged => LastIs(log[c.req], RequestClaimed)
          case RiskPassed => LastIs(log[c.req], FinalRiskPassed)
          case OrderAccepted => LastIs(log[c.req], OrderChecked)
          case GateOpen => LastIs(log[c.req], SubmissionGatePassed))
    case Committed(c, _) => c.req in log && LastIs(log[c.req], SubmissionStarted)
    case AwaitingReply(c, _) => c.req in log && LastIs(log[c.req], SubmissionStarted)
    case SawStarted(r) => r in log && LastIs(log[r], SubmissionStarted)
    case SawPositions(r, _) => r in log && LastIs(log[r], SubmissionStarted)
    case SawBook(r, _, _) => r in log && LastIs(log[r], SubmissionStarted)
    case SawSubmitted(r, _, _) => r in log && LastIs(log[r], Submitted)
    case SawDetermined(r, _) => r in log && log[r] != [] && Follows(log[r][|log[r]| - 1], Bare(Reconciled))
  }

  ghost predicate Regular(w: World) {
    && (forall r :: r in w.log ==> InLanguage(w.log[r]))
    && (forall id :: id in w.workers ==> Anchored(w.workers[id], w.log))
  }

  ghost predicate Fits(w: World, row: Row) {
    && row.req in w.log
    && (if w.log[row.req] == [] then row.event.kind == RequestClaimed
        else Follows(w.log[row.req][|w.log[row.req]| - 1], row.event))
    && Anchored(row.next, w.log[row.req := w.log[row.req] + [row.event]])
  }

  lemma ChainRowFits(w: World, a: Action)
    requires Enabled(w, a) && RowOf(w, a).Some? && Anchored(At(w, a.id), w.log) && At(w, a.id).Walking?
    ensures Fits(w, RowOf(w, a).value)
  {
  }

  lemma OutcomeRowFits(w: World, a: Action)
    requires Enabled(w, a) && RowOf(w, a).Some? && Anchored(At(w, a.id), w.log) && !At(w, a.id).Walking?
    ensures Fits(w, RowOf(w, a).value)
  {
  }

  lemma RowFits(w: World, a: Action)
    requires Enabled(w, a) && RowOf(w, a).Some? && Regular(w)
    ensures Fits(w, RowOf(w, a).value)
  {
    assert Anchored(w.workers[a.id], w.log);
    if At(w, a.id).Walking? {
      ChainRowFits(w, a);
    } else {
      OutcomeRowFits(w, a);
    }
  }

  /** In a run of one worker at a time every append is of a kind the request does not have yet: the
      append-once log never converges on an old row and never conflicts. */
  lemma AppendsAreFresh(w: World, a: Action)
    requires Enabled(w, a) && RowOf(w, a).Some? && Regular(w)
    ensures var row := RowOf(w, a).value;
            row.req in w.log && !HasKind(w.log[row.req], row.event.kind) && InLanguage(w.log[row.req] + [row.event])
    ensures var row := RowOf(w, a).value;
            Next(w, a) == Move(w, a.id, row.next).(log := w.log[row.req := w.log[row.req] + [row.event]])
  {
    RowFits(w, a);
    var row := RowOf(w, a).value;
    if w.log[row.req] != [] {
      FollowerIsNew(w.log[row.req], row.event);
    }
  }

  lemma AppendKeepsRegular(w: World, a: Action)
    requires Enabled(w, a) && RowOf(w, a).Some? && Regular(w) && OneAtATime(w)
    ensures Regular(Next(w, a))
  {
    RowShape(w, a);
    RowFits(w, a);
    AppendsAreFresh(w, a);
    var w' := Next(w, a);
    assert w.workers[a.id] != Idle;
    forall id | id in w'.workers ensures Anchored(w'.workers[id], w'.log) {
      if id != a.id {
        assert w.workers[id] == Idle;
      }
    }
  }

  lemma {:induction false} KnownMeansReconcilable(r: RequestId, h: seq<ExecutionEvent>)
    requires InLanguage(h) && !HasKind(h, Reconciled) && StandingOf(History(r, h)).Known?
    ensures h != [] && Follows(h[|h| - 1], Bare(Reconciled))
  {
    if h == [] {
    } else {
      assert h[|h| - 1].kind != Reconciled;
    }
  }

  lemma CommitKeepsRegular(w: World, a: Action)
    requires Safe(w) && Enabled(w, a) && a.CommitPermit? && Regular(w) && OneAtATime(w)
    ensures Regular(Effect(w, a))
  {
    var w', r := Effect(w, a), At(w, a.id).capsule.req;
    assert Grounded(w.workers[a.id], w.log, w.consumed, w.sends);
    assert Anchored(w.workers[a.id], w.log);
    FollowerIsNew(w.log[r], Started(a.entry, a.stopLoss));
    hide Safe, Enabled, Grounded;
    forall id | id in w'.workers ensures Anchored(w'.workers[id], w'.log) {
      if id != a.id {
        assert w.workers[id] == Idle;
      }
    }
  }

  lemma FreshLogKeepsRegular(w: World, w': World, id: WorkerId, c: Capsule)
    requires Regular(w) && c.req !in w.log && w'.log == w.log[c.req := []]
    requires id in w'.workers && w'.workers == w.workers[id := w'.workers[id]]
    requires w'.workers[id].Walking? && w'.workers[id].capsule == c && w'.workers[id].at == ClaimInserted
    ensures Regular(w')
  {
    forall x | x in w'.workers ensures Anchored(w'.workers[x], w'.log) {
      if x != id {
        assert Anchored(w.workers[x], w.log);
      }
    }
  }

  lemma ClaimKeepsRegular(w: World, a: Action)
    requires Safe(w) && Enabled(w, a) && a.TryClaim? && Regular(w)
    ensures Regular(Effect(w, a))
  {
    if a.capsule.req !in w.claims {
      FreshLogKeepsRegular(w, Effect(w, a), a.id, a.capsule);
    }
  }

  /** Moves that neither claim nor commit: reads, the send, a crash. */
  lemma MoveKeepsRegular(w: World, a: Action)
    requires Safe(w) && Enabled(w, a) && Regular(w)
    requires RowOf(w, a).None? && !a.TryClaim? && !a.CommitPermit? && !a.IssuePermit? && !a.MoveBook?
    ensures Regular(Effect(w, a))
  {
    var s := At(w, a.id);
    assert Anchored(s, w.log) by { if a.id in w.workers { assert Anchored(w.workers[a.id], w.log); } }
    if a.FindDetermined? {
      KnownMeansReconcilable(a.req, w.log[a.req]);
    }
    if a.OrderSend? {
      assert Effect(w, a).log == w.log && Effect(w, a).workers == w.workers[a.id := AwaitingReply(s.capsule, s.setup)];
    } else {
      EffectIsMove(w, a);
      NextStageAnchored(w, a);
    }
  }

  lemma NextStageAnchored(w: World, a: Action)
    requires !a.TryClaim? && !a.CommitPermit? && !a.IssuePermit? && !a.MoveBook?
    requires Enabled(w, a) && RowOf(w, a).None? && Anchored(At(w, a.id), w.log)
    requires a.FindDetermined? ==> w.log[a.req] != [] && Follows(w.log[a.req][|w.log[a.req]| - 1], Bare(Reconciled))
    ensures Anchored(At(Effect(w, a), a.id), w.log)
  {
  }

  lemma StepKeepsRegular(w: World, a: Action)
    requires Safe(w) && Enabled(w, a) && Regular(w) && OneAtATime(w)
    ensures Regular(Next(w, a))
  {
    if RowOf(w, a).Some? {
      AppendKeepsRegular(w, a);
    } else if a.TryClaim? {
      ClaimKeepsRegular(w, a);
    } else if a.CommitPermit? {
      CommitKeepsRegular(w, a);
    } else if !a.IssuePermit? && !a.MoveBook? {
      MoveKeepsRegular(w, a);
    }
  }

  lemma {:induction false} SoloRunsAreRegular(ws: seq<World>, acts: seq<Action>)
    requires IsSoloRun(ws, acts)
    ensures forall i :: 0 <= i < |ws| ==> Regular(ws[i])
    decreases |acts|
  {
    RunsAreSafe(ws, acts);
    if acts == [] {
    } else {
      var n := |acts| - 1;
      SoloRunsAreRegular(ws[..n + 1], acts[..n]);
      assert Regular(ws[n]) by { assert ws[n] == ws[..n + 1][n]; }
      assert Safe(ws[n]) && OneAtATime(ws[n]) && Enabled(ws[n], acts[n]);
      StepKeepsRegular(ws[n], acts[n]);
      forall i | 0 <= i < |ws| ensures Regular(ws[i]) {
        if i <= n { assert ws[i] == ws[..n + 1][i]; }
      }
    }
  }

  // ---------------------------------------------------------------------------------------------
  // Main results
  // ---------------------------------------------------------------------------------------------

  /** With one worker at a time and crashes anywhere, every request's history is a prefix of one of the
      twelve words, holds no kind twice, and no append ever meets an existing row. */
  lemma HistoriesStayInTheLanguage(ws: seq<World>, acts: seq<Action>, k: nat)
    requires IsSoloRun(ws, acts) && k < |ws|
    ensures forall r :: r in ws[k].log ==> InLanguage(ws[k].log[r]) && PrefixOfAWord(Kinds(ws[k].log[r]))
    ensures forall r, i, j :: r in ws[k].log && 0 <= i < j < |ws[k].log[r]| ==>
                                ws[k].log[r][i].kind != ws[k].log[r][j].kind
    ensures k < |acts| && RowOf(ws[k], acts[k]).Some? ==>
              var row := RowOf(ws[k], acts[k]).value;
              row.req in ws[k].log && !HasKind(ws[k].log[row.req], row.event.kind)
  {
    SoloRunsAreRegular(ws, acts);
    assert Regular(ws[k]);
    forall r | r in ws[k].log ensures PrefixOfAWord(Kinds(ws[k].log[r])) {
      LanguageIsPrefixesOfWords(ws[k].log[r]);
    }
    forall r, i, j | r in ws[k].log && 0 <= i < j < |ws[k].log[r]|
      ensures ws[k].log[r][i].kind != ws[k].log[r][j].kind {
      RanksIncrease(ws[k].log[r], i, j);
    }
    if k < |acts| && RowOf(ws[k], acts[k]).Some? {
      AppendsAreFresh(ws[k], acts[k]);
    }
  }

  /** With one worker at a time, a submission that has any recorded outcome can never be sent again, by
      any number of workers from then on. */
  lemma ResolvedIsNeverSentAgain(ws: seq<World>, acts: seq<Action>, k: nat, r: RequestId)
    requires IsSoloRun(ws, acts) && k < |ws|
    requires StartedIn(ws[k].log, r) && !LastIs(ws[k].log[r], SubmissionStarted)
    ensures !CanStillSend(ws[k], r)
  {
    RunsAreSafe(ws, acts);
    SoloRunsAreRegular(ws, acts);
    assert Safe(ws[k]) && Regular(ws[k]);
    StartedCanStillSendExactlyWhenHeld(ws[k], r);
    forall id | id in ws[k].workers && ws[k].workers[id].Committed? ensures ws[k].workers[id].capsule.req != r {
      assert Anchored(ws[k].workers[id], ws[k].log);
    }
  }
}
