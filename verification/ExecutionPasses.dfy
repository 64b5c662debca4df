/**
 The passes of one `ExecutionOrchestrator`, in the form the source has them: methods that read, decide
 and append, with loops over capsules and requests.  `Do` performs one effect; the process lives to
 perform `left` of them and dies before the next (`Survives`).  What it is told about each capsule is a
 parameter.  Ghost fields record the run, so every pass is a run of the transition system and inherits
 its theorems.
 */
module ExecutionPasses {
  import opened ExecutionEvents
  import opened FlattenEvents
  import opened ExpectedExposure
  import opened ExecutionProtocol
  import opened ExecutionHistory
  import opened ExecutionChain
  import CanaryScope
  import Flatten
  import opened ExecutionOutcome

  /** The tickets of the last AMBIGUOUS_OUTCOME_RESOLVED that carries a payload. */
  function RawMatching(h: seq<ExecutionEvent>): set<Ticket> {
    if h == [] then {}
    else
      var last := h[|h| - 1];
      if last.kind == AmbiguousOutcomeResolved && last.payload.Some? then TicketSet(last.payload.value.matchingTickets)
      else RawMatching(h[..|h| - 1])
  }

  /** What a RECONCILED row must say about the tickets recovery once found for the request. */
  ghost predicate Conserves(record: Payload, recovered: set<Ticket>, open: set<Ticket>) {
    && record.expectedOpen == record.observedOpen
    && record.expectedOpen <= open
    && record.expectedOpen !! record.closedTickets
    && record.expectedOpen + record.closedTickets == recovered
  }

  lemma {:induction false} KnownTicketsWereRecovered(r: History)
    requires StandingOf(r).Known?
    ensures StandingOf(r).tickets <= RawMatching(r.events)
    decreases |r.events|
  {
    var n := |r.events| - 1;
    if n >= 0 && r.events[n].kind == Reconciled {
      KnownTicketsWereRecovered(History(r.id, r.events[..n]));
    }
  }

  /** For every history, whatever flattens closed: a request whose remaining tickets are all open gets a
      record that accounts for each recovered ticket exactly once. */
  lemma ReconciledConservesTickets(rs: seq<History>, os: seq<Occurrence>, r: History, open: set<Ticket>)
    requires DistinctIds(rs) && r in rs && r.id in Derive(rs, os).ticketsByRequest
    requires Derive(rs, os).ticketsByRequest[r.id] <= open
    ensures var attributed := Derive(rs, os).ticketsByRequest[r.id];
            Conserves(RecordOf(r.events, attributed, open), RawMatching(r.events), open)
  {
    DerivationMeetsSpecification(rs, os);
    var q :| q in rs && q.id == r.id && StandingOf(q).Known?;
    var i :| 0 <= i < |rs| && rs[i] == r;
    var j :| 0 <= j < |rs| && rs[j] == q;
    assert i == j;
    KnownTicketsWereRecovered(r);
  }

  function RecordOf(h: seq<ExecutionEvent>, attributed: set<Ticket>, open: set<Ticket>): Payload {
    EMPTY.(expectedOpen := attributed, observedOpen := attributed * open, closedTickets := RawMatching(h) - attributed)
  }

  function OpenTickets(b: Book): set<Ticket> {
    TicketSet(Tickets(b.positions))
  }

  function HistoriesOf(ids: seq<RequestId>, log: Log): (rs: seq<History>)
    requires forall id :: id in ids ==> id in log
    ensures |rs| == |ids| && forall i :: 0 <= i < |ids| ==> rs[i] == History(ids[i], log[ids[i]])
  {
    seq(|ids|, i requires 0 <= i < |ids| => History(ids[i], log[ids[i]]))
  }

  ghost predicate NoRepeats(ids: seq<RequestId>) {
    forall i, j :: 0 <= i < j < |ids| ==> ids[i] != ids[j]
  }

  /** The answer of `request_ids_with_event`: every such request once. */
  ghost predicate Lists(ids: seq<RequestId>, log: Log, kind: EventType) {
    NoRepeats(ids) && forall r :: r in ids <==> r in log && HasKind(log[r], kind)
  }

  const NOTHING_DERIVED: DerivedExposure := DerivedExposure({}, [], map[], {}, map[])

  /** One order was sent since `w`, for a request that `w` did not know: with a yes to every question, for the
      configured capsule, under a permit that covers it. */
  ghost predicate SendsFor(setup: Setup, w: World, sends: seq<Send>, o: ApprovedCapsule, a: Answers) {
    && setup.Canary? && o.capsule.req !in w.log && o.capsule.id == setup.capsule
    && a.eligible && a.preflight && a.book == Matched && a.finalRisk && a.orderCheck && a.submissionGate
    && CanaryScope.Covers(a.permit, a.facts)
    && sends == w.sends + [Send(o.capsule.req, setup.permit, setup.capsule, setup.capsule)]
  }

  ghost predicate SentBy(setup: Setup, w: World, sends: seq<Send>, capsules: seq<ApprovedCapsule>,
                         answers: seq<Answers>)
    requires |answers| == |capsules|
  {
    sends == w.sends || exists i :: 0 <= i < |capsules| && SendsFor(setup, w, sends, capsules[i], answers[i])
  }

  /** Within one pass only the first of a worker's sends can happen: they share its permit. */
  lemma OnlyTheFirstSend(setup: Setup, w: World, before: seq<Send>, w': World, capsules: seq<ApprovedCapsule>,
                         answers: seq<Answers>)
    requires |answers| == |capsules| && Safe(w') && SentBy(setup, w, before, capsules, answers)
    requires setup.Canary? && |w'.sends| == |before| + 1 && before <= w'.sends
    requires w'.sends[|before|].permit == setup.permit
    ensures before == w.sends
  {
    if before != [] {
      var last := |before| - 1;
      assert w'.sends[last] == before[last];
      assert w'.sends[last].permit != w'.sends[last + 1].permit;
    }
  }

  lemma SentByOneMore(w: World, before: World, w': World, setup: Setup, capsules: seq<ApprovedCapsule>,
                      answers: seq<Answers>, i: nat)
    requires i < |capsules| == |answers| && SentBy(setup, w, before.sends, capsules, answers) && Safe(w')
    requires w.log.Keys <= before.log.Keys
    requires w'.sends == before.sends || SendsFor(setup, before, w'.sends, capsules[i], answers[i])
    ensures SentBy(setup, w, w'.sends, capsules, answers)
  {
    hide CanaryScope.Covers, Safe;
    if w'.sends != before.sends {
      OnlyTheFirstSend(setup, w, before.sends, w', capsules, answers);
      assert SendsFor(setup, w, w'.sends, capsules[i], answers[i]);
    }
  }

  /** A capsule whose processing raises: its id is claimed under another approval chain, or the broker's reply
      is one that cannot be. */
  ghost predicate SomeRaises(w: World, capsules: seq<ApprovedCapsule>, answers: seq<Answers>)
    requires |answers| == |capsules|
  {
    exists i :: 0 <= i < |capsules| && (Conflicts(w, capsules[i].capsule) || Impossible(answers[i].reply))
  }

  /** Every request unknown to `w` was claimed for one of the first `n` capsules, and its rows have that
      capsule's answers. */
  ghost predicate NewChainsHaveAnswers(w: World, w': World, setup: Setup, capsules: seq<ApprovedCapsule>,
                                       answers: seq<Answers>, n: nat)
    requires n <= |capsules| == |answers|
  {
    forall r :: r in w'.log && r !in w.log ==> ChainHasAnswers(w'.log[r], r, setup, capsules, answers, n)
  }

  ghost predicate ChainHasAnswers(h: seq<ExecutionEvent>, r: RequestId, setup: Setup, capsules: seq<ApprovedCapsule>,
                                  answers: seq<Answers>, n: nat)
    requires n <= |capsules| == |answers|
  {
    exists k :: 0 <= k < n && capsules[k].capsule.req == r && RowsHaveAnswers(h, setup, capsules[k], answers[k])
  }

  lemma LaterRowOfAChain(h: seq<ExecutionEvent>, e: ExecutionEvent, r: RequestId, setup: Setup,
                         capsules: seq<ApprovedCapsule>, answers: seq<Answers>, n: nat)
    requires n <= |capsules| == |answers| && ChainHasAnswers(h, r, setup, capsules, answers, n)
    requires e.kind in {AmbiguousOutcomeResolved, Reconciled}
    ensures ChainHasAnswers(h + [e], r, setup, capsules, answers, n)
  {
    hide RowsHaveAnswers;
    var k :| 0 <= k < n && capsules[k].capsule.req == r && RowsHaveAnswers(h, setup, capsules[k], answers[k]);
    LaterRowsKeepAnswers(h, e, setup, capsules[k], answers[k]);
  }

  lemma LaterCapsulesChangeNothing(w: World, w': World, setup: Setup, capsules: seq<ApprovedCapsule>,
                                   answers: seq<Answers>, n: nat)
    requires n <= |capsules| == |answers| && NewChainsHaveAnswers(w, w', setup, capsules, answers, n)
    ensures NewChainsHaveAnswers(w, w', setup, capsules, answers, |capsules|)
  {
    hide RowsHaveAnswers;
    forall r | r in w'.log && r !in w.log ensures ChainHasAnswers(w'.log[r], r, setup, capsules, answers, |capsules|) {
      assert ChainHasAnswers(w'.log[r], r, setup, capsules, answers, n);
    }
  }

  /** The capsule just processed claimed its request, or left it as recovery may, and touched no other. */
  lemma OneMoreChain(w: World, before: World, w': World, setup: Setup, capsules: seq<ApprovedCapsule>,
                     answers: seq<Answers>, i: nat)
    requires i < |capsules| == |answers| && NewChainsHaveAnswers(w, before, setup, capsules, answers, i)
    requires before.log.Keys <= w'.log.Keys <= before.log.Keys + {capsules[i].capsule.req}
    requires forall q :: q != capsules[i].capsule.req && q in before.log ==> w'.log[q] == before.log[q]
    requires var r := capsules[i].capsule.req;
             && (r in before.log ==> RecoveryOutcome(before, w', r))
             && (r !in before.log && r in w'.log ==> RowsHaveAnswers(w'.log[r], setup, capsules[i], answers[i]))
    ensures NewChainsHaveAnswers(w, w', setup, capsules, answers, i + 1)
  {
    hide RowsHaveAnswers;
    forall q | q in w'.log && q !in w.log ensures ChainHasAnswers(w'.log[q], q, setup, capsules, answers, i + 1) {
      if q in before.log {
        assert ChainHasAnswers(before.log[q], q, setup, capsules, answers, i);
        assert ChainHasAnswers(before.log[q], q, setup, capsules, answers, i + 1);
        if w'.log[q] != before.log[q] {
          var e := w'.log[q][|before.log[q]|];
          assert w'.log[q] == before.log[q] + [e];
          LaterRowOfAChain(before.log[q], e, q, setup, capsules, answers, i + 1);
        }
      }
    }
  }

  /** Logs apart, only the kill switch may have changed, and only to halted. */
  ghost predicate Untouched(w: World, w': World) {
    && w'.claims == w.claims && w'.permits == w.permits && w'.consumed == w.consumed && w'.sends == w.sends
       && w'.book == w.book
    && w'.log.Keys == w.log.Keys && (w.halted ==> w'.halted)
  }

  /** The broker ticket of a request whose last event is a SUBMITTED that named one. */
  function RestsAs(h: seq<ExecutionEvent>): Option<Ticket> {
    if LastIs(h, Submitted) && h[|h| - 1].payload.Some? then h[|h| - 1].payload.value.orderTicket else None
  }

  function PendingAfter(w: World, r: RequestId): seq<ExecutionEvent>
    requires r in w.log
  {
    var ticket := RestsAs(w.log[r]);
    if ticket.None? then w.log[r]
    else
      var v := PendingVerdict(ticket.value, r.magic, w.book);
      if v.Leave? then w.log[r] else w.log[r] + [v.event]
  }

  predicate DuplicatePending(w: World, r: RequestId)
    requires r in w.log
  {
    var ticket := RestsAs(w.log[r]);
    ticket.Some? && !StillResting(ticket.value, w.book.pending) && |PositionsWith(w.book.positions, r.magic)| > 1
  }

  ghost predicate ResolveOutcome(w: World, w': World, r: RequestId) {
    && QuietExcept(w, w', r) && (w.halted ==> w'.halted)
    && (w'.log[r] == w.log[r] || w'.log[r] == PendingAfter(w, r))
  }

  ghost predicate ResolveComplete(w: World, w': World, r: RequestId) {
    r in w.log && r in w'.log && w'.log[r] == PendingAfter(w, r) && (DuplicatePending(w, r) ==> w'.halted)
  }

  lemma DecidedIsPendingAfter(w: World, id: WorkerId, r: RequestId, ticket: Ticket)
    requires r in w.log && RestsAs(w.log[r]) == Some(ticket)
    ensures var w' := Decided(w, id, r, PendingVerdict(ticket, r.magic, w.book));
            && w'.log == w.log[r := PendingAfter(w, r)] && w'.(log := w.log, workers := w.workers) == w
            && (At(w', id) == MustTrip <==> DuplicatePending(w, r)) && (At(w', id) == MustTrip || At(w', id) == Idle)
  {
  }

  /** The requests in `done` have had their turn. */
  ghost predicate PendingSoFar(w: World, w': World, done: seq<RequestId>) {
    && Untouched(w, w')
    && (forall r :: r in w.log && r !in done ==> w'.log[r] == w.log[r])
    && (forall r :: r in w.log ==> w'.log[r] == w.log[r] || w'.log[r] == PendingAfter(w, r))
  }

  ghost predicate PendingDone(w: World, w': World, done: seq<RequestId>)
    requires w'.log.Keys == w.log.Keys
  {
    forall r :: r in done && r in w.log ==>
                  w'.log[r] == PendingAfter(w, r) && (DuplicatePending(w, r) ==> w'.halted)
  }

  lemma NothingPendingYet(w: World)
    ensures PendingSoFar(w, w, []) && PendingDone(w, w, [])
  {
  }

  lemma PendingIsUntouched(w: World, w': World, done: seq<RequestId>)
    requires PendingSoFar(w, w', done)
    ensures Untouched(w, w') && forall r :: r in w.log ==> w'.log[r] == w.log[r] || w'.log[r] == PendingAfter(w, r)
    ensures forall r :: r in w.log && r !in done ==> w'.log[r] == w.log[r]
  {
  }

  lemma PendingIsDone(w: World, w': World, done: seq<RequestId>)
    requires w'.log.Keys == w.log.Keys && PendingDone(w, w', done)
    ensures forall r :: r in done && r in w.log ==>
                          w'.log[r] == PendingAfter(w, r) && (DuplicatePending(w, r) ==> w'.halted)
  {
  }

  lemma SameRowsSamePending(w: World, v: World, r: RequestId)
    requires r in w.log && r in v.log && w.log[r] == v.log[r] && w.book == v.book
    ensures PendingAfter(w, r) == PendingAfter(v, r) && DuplicatePending(w, r) == DuplicatePending(v, r)
  {
  }

  lemma OneMorePending(w: World, mid: World, w': World, ids: seq<RequestId>, n: nat, alive: bool)
    requires n < |ids| && NoRepeats(ids) && mid.log.Keys == w.log.Keys && PendingSoFar(w, mid, ids[..n])
    requires ids[n] in w.log && ResolveOutcome(mid, w', ids[n])
    ensures w'.log.Keys == w.log.Keys && PendingSoFar(w, w', ids[..n + 1])
    ensures alive && PendingDone(w, mid, ids[..n]) && ResolveComplete(mid, w', ids[n]) ==>
              PendingDone(w, w', ids[..n + 1])
  {
    hide PendingAfter, DuplicatePending;
    assert ids[n] !in ids[..n] && ids[..n + 1] == ids[..n] + [ids[n]];
    SameRowsSamePending(w, mid, ids[n]);
  }

  lemma NotSubmittedMeansLeft(w: World, r: RequestId)
    requires r in w.log && !HasKind(w.log[r], Submitted)
    ensures PendingAfter(w, r) == w.log[r] && !DuplicatePending(w, r)
  {
    assert forall i :: 0 <= i < |w.log[r]| ==> w.log[r][i].kind != Submitted;
  }

  /** What the resolver's step means.  Only a request whose last row is a SUBMITTED that names a ticket can
      change; a ticket still resting is never touched; once it has left the book the request becomes FILLED
      exactly when one position carries its magic, attributed to that position, and ambiguous exactly when
      several do. */
  lemma ResolutionMeaning(w: World, r: RequestId)
    requires r in w.log
    ensures var h, h', matches := w.log[r], PendingAfter(w, r), PositionsWith(w.book.positions, r.magic);
            && (h' != h <==> exists ticket :: SubmittedAs(h, ticket) && matches != []
                                              && forall o :: o in w.book.pending ==> o.orderId != ticket)
            && (h' != h ==>
                  && |h'| == |h| + 1 && h <= h' && h'[|h|].payload.Some?
                  && (h'[|h|].kind == Filled <==> |matches| == 1)
                  && (h'[|h|].kind == Filled ==> h'[|h|].payload.value.filledTicket == Some(matches[0].ticket))
                  && (SharesMagic(h'[|h|]) <==> |matches| > 1))
  {
    var h, matches := w.log[r], PositionsWith(w.book.positions, r.magic);
    if RestsAs(h).Some? {
      assert SubmittedAs(h, RestsAs(h).value);
    }
  }

  /** The last row is a SUBMITTED that names this broker ticket. */
  predicate SubmittedAs(h: seq<ExecutionEvent>, ticket: Ticket) {
    && h != [] && h[|h| - 1].kind == Submitted
    && h[|h| - 1].payload.Some? && h[|h| - 1].payload.value.orderTicket == Some(ticket)
  }

  /** The recovered tickets are those of the newest resolution that carries a payload; without one there are
      none. */
  lemma {:induction false} RawMatchingMeaning(before: seq<ExecutionEvent>, e: ExecutionEvent,
                                              after: seq<ExecutionEvent>)
    requires ResolvedWithTickets(e) && forall x :: x in after ==> !ResolvedWithTickets(x)
    ensures RawMatching(before + [e] + after) == TicketSet(e.payload.value.matchingTickets)
    ensures RawMatching(after) == {}
  {
    var h := before + [e] + after;
    if after == [] {
      assert h[|h| - 1] == e;
    } else {
      var front := after[..|after| - 1];
      assert h[..|h| - 1] == before + [e] + front && h[|h| - 1] == after[|after| - 1];
      assert after[|after| - 1] in after;
      RawMatchingMeaning(before, e, front);
    }
  }

  predicate ResolvedWithTickets(e: ExecutionEvent) {
    e.kind == AmbiguousOutcomeResolved && e.payload.Some?
  }

  /** A request the pass may have reconciled: nothing anywhere was undetermined, it was not reconciled
      before, every remaining ticket was observed open, and the row is the conserving one. */
  ghost predicate ReconcileOutcome(w: World, w': World, d: DerivedExposure, open: set<Ticket>, r: RequestId)
    requires w'.log.Keys == w.log.Keys && r in w.log
  {
    w'.log[r] == w.log[r] ||
    (&& d.reasons == [] && r in d.determined && r in d.ticketsByRequest && d.ticketsByRequest[r] <= open
     && !HasKind(w.log[r], Reconciled)
     && w'.log[r] == w.log[r] + [ExecutionEvent(Reconciled, Some(RecordOf(w.log[r], d.ticketsByRequest[r], open)))])
  }

  /** An outcome is about the request's rows alone. */
  lemma SameRowsSameOutcome(w: World, w': World, v: World, v': World, d: DerivedExposure, open: set<Ticket>,
                            r: RequestId)
    requires r in w.log && r in v.log && w'.log.Keys == w.log.Keys && v'.log.Keys == v.log.Keys
    requires w.log[r] == v.log[r] && w'.log[r] == v'.log[r]
    ensures ReconcileOutcome(w, w', d, open, r) == ReconcileOutcome(v, v', d, open, r)
  {
  }

  lemma ListedAreDistinct(ids: seq<RequestId>, log: Log)
    requires NoRepeats(ids) && forall id :: id in ids ==> id in log
    ensures DistinctIds(HistoriesOf(ids, log))
  {
  }

  lemma DeterminedMeansKnown(ids: seq<RequestId>, log: Log, os: seq<Occurrence>, r: RequestId)
    requires Lists(ids, log, SubmissionStarted)
    requires r in Derive(HistoriesOf(ids, log), os).determined
    ensures r in ids && StandingOf(History(r, log[r])).Known?
  {
    var rs := HistoriesOf(ids, log);
    ListedAreDistinct(ids, log);
    DerivationMeetsSpecification(rs, os);
    var q :| q in rs && q.id == r && StandingOf(q).Known?;
  }

  lemma DeterminedHasTickets(ids: seq<RequestId>, log: Log, os: seq<Occurrence>, r: RequestId)
    requires Lists(ids, log, SubmissionStarted)
    requires r in Derive(HistoriesOf(ids, log), os).determined
    ensures r in Derive(HistoriesOf(ids, log), os).ticketsByRequest
  {
    ListedAreDistinct(ids, log);
    DerivationMeetsSpecification(HistoriesOf(ids, log), os);
  }

  /** Started, not reconciled before, nothing anywhere undetermined, determined itself, and every remaining
      ticket observed open. */
  ghost predicate MayReconcile(h: seq<ExecutionEvent>, r: RequestId, d: DerivedExposure, open: set<Ticket>) {
    && HasKind(h, SubmissionStarted) && !HasKind(h, Reconciled) && d.reasons == []
    && r in d.determined && r in d.ticketsByRequest && d.ticketsByRequest[r] <= open
  }

  /** The first `n` requests have had their turn. */
  ghost predicate VerdictsSoFar(w: World, w': World, ids: seq<RequestId>, n: nat, d: DerivedExposure, open: set<Ticket>)
    requires n <= |ids|
  {
    && Untouched(w, w') && (forall r :: r in w.log ==> ReconcileOutcome(w, w', d, open, r))
    && (forall r :: r in w.log && r !in ids[..n] ==> w'.log[r] == w.log[r])
  }

  ghost predicate AllVerdicts(w: World, w': World, ids: seq<RequestId>, n: nat, d: DerivedExposure, open: set<Ticket>)
    requires n <= |ids| && w'.log.Keys == w.log.Keys
  {
    forall r :: r in ids[..n] && r in w.log ==> (w'.log[r] != w.log[r] <==> MayReconcile(w.log[r], r, d, open))
  }

  lemma NoVerdictsYet(w: World, ids: seq<RequestId>, d: DerivedExposure, open: set<Ticket>)
    ensures VerdictsSoFar(w, w, ids, 0, d, open) && AllVerdicts(w, w, ids, 0, d, open)
  {
  }

  lemma VerdictsKeepTheRest(w: World, w': World, ids: seq<RequestId>, n: nat, d: DerivedExposure, open: set<Ticket>)
    requires n < |ids| && NoRepeats(ids) && VerdictsSoFar(w, w', ids, n, d, open)
    ensures w'.log.Keys == w.log.Keys && (ids[n] in w.log ==> w'.log[ids[n]] == w.log[ids[n]])
  {
    assert ids[n] !in ids[..n];
  }

  lemma VerdictsAreOutcomes(w: World, w': World, ids: seq<RequestId>, n: nat, d: DerivedExposure, open: set<Ticket>)
    requires n <= |ids| && VerdictsSoFar(w, w', ids, n, d, open)
    ensures Untouched(w, w') && forall r :: r in w.log ==> ReconcileOutcome(w, w', d, open, r)
  {
  }

  lemma OneMoreVerdict(w: World, mid: World, w': World, ids: seq<RequestId>, n: nat, d: DerivedExposure,
                       open: set<Ticket>, alive: bool)
    requires n < |ids| && NoRepeats(ids) && VerdictsSoFar(w, mid, ids, n, d, open)
    requires ids[n] in w.log && ids[n] in mid.log && QuietExcept(mid, w', ids[n]) && w'.halted == mid.halted
    requires ReconcileOutcome(mid, w', d, open, ids[n])
    ensures VerdictsSoFar(w, w', ids, n + 1, d, open)
    ensures alive && AllVerdicts(w, mid, ids, n, d, open)
            && (w'.log[ids[n]] != mid.log[ids[n]] <==> MayReconcile(mid.log[ids[n]], ids[n], d, open))
            ==> AllVerdicts(w, w', ids, n + 1, d, open)
  {
    hide MayReconcile;
    assert ids[n] !in ids[..n] && ids[..n + 1] == ids[..n] + [ids[n]];
    forall r | r in w.log ensures ReconcileOutcome(w, w', d, open, r) {
      if r == ids[n] {
        SameRowsSameOutcome(mid, w', w, w', d, open, r);
      } else {
        SameRowsSameOutcome(w, mid, w, w', d, open, r);
      }
    }
  }

  lemma AllVerdictsAreIn(w: World, w': World, ids: seq<RequestId>, d: DerivedExposure, open: set<Ticket>)
    requires Lists(ids, w.log, SubmissionStarted)
    requires VerdictsSoFar(w, w', ids, |ids|, d, open) && AllVerdicts(w, w', ids, |ids|, d, open)
    ensures forall r :: r in w.log ==> (w'.log[r] != w.log[r] <==> MayReconcile(w.log[r], r, d, open))
  {
    assert ids[..|ids|] == ids;
    NothingElseMayReconcile(ids, w.log, d, open);
  }

  lemma NothingElseMayReconcile(ids: seq<RequestId>, log: Log, d: DerivedExposure, open: set<Ticket>)
    requires Lists(ids, log, SubmissionStarted)
    ensures forall r :: r in log && MayReconcile(log[r], r, d, open) ==> r in ids && !HasKind(log[r], Reconciled)
  {
  }

  /** Writing the verdicts leaves the next pass's derivation exactly as it was. */
  lemma ReconciliationKeepsExposure(ids: seq<RequestId>, w: World, w': World, os: seq<Occurrence>, d: DerivedExposure,
                                    open: set<Ticket>)
    requires Lists(ids, w.log, SubmissionStarted) && w'.log.Keys == w.log.Keys
    requires forall r :: r in ids ==> ReconcileOutcome(w, w', d, open, r)
    ensures Derive(HistoriesOf(ids, w'.log), os) == Derive(HistoriesOf(ids, w.log), os)
  {
    ReconciledEventsAreInvisible(HistoriesOf(ids, w'.log), HistoriesOf(ids, w.log), os);
  }

  /** Every row a reconciliation pass writes conserves the tickets recovered for its request. */
  lemma ReconciliationConserves(ids: seq<RequestId>, w: World, w': World, os: seq<Occurrence>, open: set<Ticket>,
                                r: RequestId)
    requires Lists(ids, w.log, SubmissionStarted) && w'.log.Keys == w.log.Keys && r in w.log
    requires ReconcileOutcome(w, w', Derive(HistoriesOf(ids, w.log), os), open, r) && w'.log[r] != w.log[r]
    ensures LastIs(w'.log[r], Reconciled) && w'.log[r][|w.log[r]|].payload.Some?
    ensures Conserves(w'.log[r][|w.log[r]|].payload.value, RawMatching(w.log[r]), open)
  {
    var rs := HistoriesOf(ids, w.log);
    ListedAreDistinct(ids, w.log);
    DeterminedMeansKnown(ids, w.log, os, r);
    var i :| 0 <= i < |ids| && ids[i] == r;
    assert rs[i] == History(r, w.log[r]);
    ReconciledConservesTickets(rs, os, History(r, w.log[r]), open);
  }

  lemma ReconciledChains(w: World, before: World, w': World, setup: Setup, capsules: seq<ApprovedCapsule>,
                         answers: seq<Answers>, d: DerivedExposure, open: set<Ticket>)
    requires |capsules| == |answers| && NewChainsHaveAnswers(w, before, setup, capsules, answers, |capsules|)
    requires w'.log.Keys == before.log.Keys && forall r :: r in before.log ==> ReconcileOutcome(before, w', d, open, r)
    ensures NewChainsHaveAnswers(w, w', setup, capsules, answers, |capsules|)
  {
    forall q | q in w'.log && q !in w.log ensures ChainHasAnswers(w'.log[q], q, setup, capsules, answers, |capsules|) {
      assert ReconcileOutcome(before, w', d, open, q);
      assert ChainHasAnswers(before.log[q], q, setup, capsules, answers, |capsules|);
      if w'.log[q] != before.log[q] {
        LaterRowOfAChain(before.log[q], w'.log[q][|before.log[q]|], q, setup, capsules, answers, |capsules|);
      }
    }
  }

  /** What a pass has done when `n` capsules have had their turn; the last of them may have been cut short. */
  ghost predicate PassSoFarButLast(w: World, w': World, setup: Setup, capsules: seq<ApprovedCapsule>,
                                   answers: seq<Answers>, n: nat)
    requires n <= |capsules| == |answers|
  {
    && w'.book == w.book && w.log.Keys <= w'.log.Keys
    && SentBy(setup, w, w'.sends, capsules, answers)
    && NewChainsHaveAnswers(w, w', setup, capsules, answers, n)
  }

  ghost predicate PassSoFar(w: World, w': World, setup: Setup, capsules: seq<ApprovedCapsule>, answers: seq<Answers>,
                            n: nat)
    requires n <= |capsules| == |answers|
  {
    && PassSoFarButLast(w, w', setup, capsules, answers, n)
    && forall k :: 0 <= k < n ==> capsules[k].capsule.req in w'.log
  }

  lemma PassKeeps(w: World, w': World, setup: Setup, capsules: seq<ApprovedCapsule>, answers: seq<Answers>, n: nat)
    requires n <= |capsules| == |answers| && PassSoFarButLast(w, w', setup, capsules, answers, n)
    ensures w'.book == w.book && SentBy(setup, w, w'.sends, capsules, answers)
    ensures NewChainsHaveAnswers(w, w', setup, capsules, answers, |capsules|)
    ensures PassSoFar(w, w', setup, capsules, answers, n) ==>
              forall k :: 0 <= k < n ==> capsules[k].capsule.req in w'.log
  {
    LaterCapsulesChangeNothing(w, w', setup, capsules, answers, n);
  }

  /** Reconciling starts no request. */
  lemma SameStartedRequests(ids: seq<RequestId>, w: World, w': World, d: DerivedExposure, open: set<Ticket>)
    requires Lists(ids, w.log, SubmissionStarted) && w'.log.Keys == w.log.Keys
    requires forall r :: r in w.log ==> ReconcileOutcome(w, w', d, open, r)
    ensures Lists(ids, w'.log, SubmissionStarted)
    ensures forall r :: r in w.log ==> HasKind(w'.log[r], SubmissionStarted) == HasKind(w.log[r], SubmissionStarted)
    ensures forall r :: r in w.log && w'.log[r] != w.log[r] ==> HasKind(w'.log[r], Reconciled)
  {
    forall r | r in w.log
      ensures HasKind(w'.log[r], SubmissionStarted) == HasKind(w.log[r], SubmissionStarted)
      ensures w'.log[r] != w.log[r] ==> HasKind(w'.log[r], Reconciled)
    {
      assert ReconcileOutcome(w, w', d, open, r);
      if w'.log[r] != w.log[r] {
        assert w'.log[r][|w.log[r]|].kind == Reconciled;
        assert forall i :: 0 <= i < |w.log[r]| ==> w'.log[r][i] == w.log[r][i];
      }
    }
  }

  /** The verdict over one coherent book. */
  function VerdictFor(book: Book, r: RequestId): Verdict {
    var matches := PositionsWith(book.positions, r.magic);
    RecoveryVerdict(matches, if matches == [] then OrdersWith(book.pending, r.magic) else [])
  }

  /** The world after a worker has acted on a verdict. */
  function Decided(w: World, id: WorkerId, r: RequestId, v: Verdict): World
    requires r in w.log
  {
    if v.Leave? then Move(w, id, Idle)
    else Move(w, id, AfterVerdict(v)).(log := w.log[r := w.log[r] + [v.event]])
  }

  function PointAfter(at: ChainPoint): ChainPoint {
    match at
    case ClaimInserted => ClaimLogged
    case ClaimLogged => RiskPassed
    case RiskPassed => OrderAccepted
    case _ => GateOpen
  }

  /** Only the named request's log may differ, and nothing is sent or consumed. */
  ghost predicate QuietExcept(w: World, w': World, r: RequestId) {
    && w'.claims == w.claims && w'.permits == w.permits && w'.consumed == w.consumed && w'.sends == w.sends
       && w'.book == w.book
    && r in w.log && r in w'.log && w'.log == w.log[r := w'.log[r]]
  }

  /** Over a book that stays put: either nothing is written, or one row after SUBMISSION_STARTED that says
      `submitted` exactly when one position carries the magic, and never says false over a resting order. */
  ghost predicate RecoveryOutcome(w: World, w': World, r: RequestId)
    requires r in w.log && r in w'.log
  {
    var matches, orders := PositionsWith(w.book.positions, r.magic), OrdersWith(w.book.pending, r.magic);
    w'.log[r] == w.log[r] ||
    (&& LastIs(w.log[r], SubmissionStarted)
     && |w'.log[r]| == |w.log[r]| + 1 && w.log[r] <= w'.log[r]
     && var e := w'.log[r][|w.log[r]|];
        && e.kind == AmbiguousOutcomeResolved && e.payload.Some?
        && (SharesMagic(e) <==> |matches| > 1 || (|matches| == 0 && |orders| > 1))
        && (!SharesMagic(e) ==>
              && (e.payload.value.submitted == Some(true) <==> |matches| == 1)
              && (e.payload.value.submitted == Some(false) <==> |matches| == 0)
              && (|matches| == 0 ==> orders == [])
              && e.payload.value.matchingTickets == Tickets(matches)))
  }

  lemma VerdictMeansOutcome(w: World, id: WorkerId, r: RequestId)
    requires r in w.log && LastIs(w.log[r], SubmissionStarted)
    ensures var v := VerdictFor(w.book, r);
            forall w': World :: w'.log == Decided(w, id, r, v).log ==>
                           RecoveryOutcome(w, w', r)
                             && ((v.Write? && v.trips ==> w'.halted) ==> RecoveryComplete(w, w', r))
  {
    var matches, orders := PositionsWith(w.book.positions, r.magic), OrdersWith(w.book.pending, r.magic);
    var v := VerdictFor(w.book, r);
    if v.Write? {
      var h' := w.log[r] + [v.event];
      assert h'[|w.log[r]|] == v.event && |h'| != |w.log[r]|;
    }
  }

  /** A pass that survives always writes, unless one order rests; duplicates leave the system halted. */
  ghost predicate RecoveryComplete(w: World, w': World, r: RequestId)
    requires r in w.log && r in w'.log
  {
    var matches, orders := PositionsWith(w.book.positions, r.magic), OrdersWith(w.book.pending, r.magic);
    && (w'.log[r] != w.log[r] <==> LastIs(w.log[r], SubmissionStarted) && !(|matches| == 0 && |orders| == 1))
    && (LastIs(w.log[r], SubmissionStarted) && (|matches| > 1 || (|matches| == 0 && |orders| > 1)) ==> w'.halted)
  }

  /** One row more for the request if `alive`, and nothing else. */
  ghost predicate Wrote(w: World, w': World, r: RequestId, e: ExecutionEvent, alive: bool) {
    && QuietExcept(w, w', r) && w'.halted == w.halted
    && w'.log[r] == w.log[r] + (if alive then [e] else [])
  }

  /** The request's rows go on along the path, to its end if `whole`, and nothing else changes. */
  ghost predicate Advanced(w: World, w': World, r: RequestId, path: seq<ExecutionEvent>, whole: bool) {
    && QuietExcept(w, w', r) && w'.halted == w.halted
    && w'.log[r] <= path && (whole ==> w'.log[r] == path)
  }

  /** No other request's log, no permit and no book changes; the switch is left alone. */
  ghost predicate OnlyThis(w: World, w': World, r: RequestId) {
    && w'.claims == w.claims && w'.permits == w.permits && w'.book == w.book && w'.halted == w.halted
    && r in w.log && r in w'.log && w'.log == w.log[r := w'.log[r]]
  }

  function AttemptRows(fits: bool, o: ApprovedCapsule, a: Answers): seq<ExecutionEvent> {
    if fits then [Started(o.entry, o.stopLoss)] + ReplyPath(a.reply) else [Bare(CanaryPermitBlocked)]
  }

  /** What an attempt under a fitting, or unfitting, permit appends, and whether it sends. */
  ghost predicate Attempted(w: World, w': World, setup: Setup, fits: bool, o: ApprovedCapsule, a: Answers, whole: bool)
    requires setup.Canary?
  {
    var r := o.capsule.req;
    && r in w.log && r in w'.log
    && w'.log[r] <= w.log[r] + AttemptRows(fits, o, a)
    && (whole ==> w'.log[r] == w.log[r] + AttemptRows(fits, o, a))
    && (w'.sends == w.sends
        || (fits && w'.sends == w.sends + [Send(r, setup.permit, o.capsule.id, setup.capsule)]))
    && (whole && fits ==> |w'.sends| == |w.sends| + 1)
  }

  /** A committed and sent order whose reply, if it is one that can come, is recorded or is still outstanding. */
  lemma RepliedIsAttempted(w: World, mid: World, w': World, setup: Setup, o: ApprovedCapsule, a: Answers)
    requires setup.Canary? && o.capsule.req in w.log
    requires mid.log == w.log[o.capsule.req := w.log[o.capsule.req] + [Started(o.entry, o.stopLoss)]]
    requires mid.sends == w.sends + [Send(o.capsule.req, setup.permit, o.capsule.id, setup.capsule)] == w'.sends
    requires QuietExcept(mid, w', o.capsule.req)
    requires var h := mid.log[o.capsule.req];
             w'.log[o.capsule.req] == h || w'.log[o.capsule.req] == h + ReplyPath(a.reply)
    ensures Attempted(w, w', setup, true, o, a, w'.log[o.capsule.req] == mid.log[o.capsule.req] + ReplyPath(a.reply))
    ensures w'.log[o.capsule.req] == mid.log[o.capsule.req] + ReplyPath(a.reply) ==>
              Attempted(w, w', setup, true, o, a, true) && Attempted(w, w', setup, true, o, a, false)
  {
    hide ReplyPath;
    var h := w.log[o.capsule.req];
    assert h + AttemptRows(true, o, a) == h + [Started(o.entry, o.stopLoss)] + ReplyPath(a.reply);
  }

  /** The row that a passed point logs. */
  function PassRow(at: ChainPoint): ExecutionEvent
    requires at != GateOpen
  {
    match at
    case ClaimInserted => Bare(RequestClaimed)
    case ClaimLogged => Bare(FinalRiskPassed)
    case RiskPassed => Bare(OrderChecked)
    case OrderAccepted => Bare(SubmissionGatePassed)
  }

  /** The id is claimed under another approval chain. */
  predicate Conflicts(w: World, c: Capsule) {
    c.req in w.claims && w.claims[c.req].approval != c.approval
  }

  lemma NoPermitWithoutAdapter(setup: Setup, permits: set<PermitId>, consumed: map<PermitId, RequestId>, id: CapsuleId,
                               a: Answers)
    requires setup.PreflightOnly?
    ensures !PermitFits(setup, permits, consumed, id, a)
  {
  }

  lemma FittingPermitsCover(setup: Setup, permits: set<PermitId>, consumed: map<PermitId, RequestId>, id: CapsuleId,
                            a: Answers)
    requires PermitFits(setup, permits, consumed, id, a)
    ensures setup.Canary? && id == setup.capsule && CanaryScope.Covers(a.permit, a.facts)
  {
  }

  /** What recovery leaves is about the request's rows and the book alone. */
  lemma SameBookSameRecovery(w: World, v: World, w': World, r: RequestId)
    requires r in w.log && r in v.log && r in w'.log && w.log[r] == v.log[r] && w.book == v.book
    ensures RecoveryOutcome(w, w', r) == RecoveryOutcome(v, w', r)
    ensures RecoveryComplete(w, w', r) == RecoveryComplete(v, w', r)
  {
  }

  /** Rows that do not end in SUBMISSION_STARTED are left alone. */
  lemma NothingToRecover(w: World, w': World, r: RequestId)
    requires r in w.log && r in w'.log && w'.log[r] == w.log[r]
    ensures RecoveryOutcome(w, w', r) && (!LastIs(w.log[r], SubmissionStarted) ==> RecoveryComplete(w, w', r))
  {
  }

  // ---------------------------------------------------------------------------------------------
  // The orchestrator
  // ---------------------------------------------------------------------------------------------

  class ExecutionOrchestrator {
    const me: WorkerId
    const setup: Setup
    var world: World
    var left: nat   // the effects the process still lives to perform
    var dead: bool  // the process died, or raised
    ghost var path: seq<World>
    ghost var acts: seq<Action>

    constructor (me: WorkerId, setup: Setup)
      ensures Valid() && this.me == me && this.setup == setup && world == INITIAL
    {
      this.me, this.setup := me, setup;
      world, left, dead, path, acts := INITIAL, 0, false, [INITIAL], [];
    }

    ghost predicate Valid()
      reads this
    {
      && IsSoloRun(path, acts)
      && world == path[|acts|]
      && (forall id :: id in world.workers && id != me ==> world.workers[id] == Idle)
    }

    function Stage(): Stage
      reads this
    {
      At(world, me)
    }

    /** The theorems about one-worker runs, at the present world. */
    lemma Standing()
      requires Valid()
      ensures Safe(world) && Regular(world)
    {
      RunsAreSafe(path, acts);
      SoloRunsAreRegular(path, acts);
    }

    /** One effect. */
    method Do(a: Action)
      requires Valid() && Enabled(world, a) && (a.IssuePermit? || a.MoveBook? || a.id == me)
      modifies this
      ensures Valid() && world == Next(old(world), a) && left == old(left) && dead == old(dead)
      ensures RowOf(old(world), a).Some? ==> RowOf(old(world), a).value.req in old(world).log
      ensures RowOf(old(world), a).Some? ==>
                var row := RowOf(old(world), a).value;
                world == Move(old(world), me, row.next)
                         .(log := old(world).log[row.req := old(world).log[row.req] + [row.event]])
    {
      hide Next, Safe, Regular;
      Standing();
      if RowOf(world, a).Some? {
        AppendsAreFresh(world, a);
      }
      var w := Next(world, a);
      OwnStageOnly(world, a);
      StepKeepsSafe(world, a);
      StepKeepsRegular(world, a);
      path, acts := path + [w], acts + [a];
      world := w;
    }

    /** The process may die before its next effect. */
    method Survives() returns (alive: bool)
      requires Valid()
      modifies this
      ensures Valid() && alive == (old(left) > 0) && left == (if alive then old(left) - 1 else 0)
      ensures alive ==> world == old(world) && dead == old(dead)
      ensures !alive ==> world == Move(old(world), me, Idle) && dead
    {
      alive := left > 0;
      if alive {
        left := left - 1;
      } else {
        Do(Crash(me));
        dead := true;
      }
    }

    /** An effect the process may not live to perform. */
    method Try(a: Action) returns (alive: bool)
      requires Valid() && Enabled(world, a) && !a.IssuePermit? && !a.MoveBook? && a.id == me
      modifies this
      ensures Valid() && alive == (old(left) > 0) && left == (if alive then old(left) - 1 else 0)
      ensures alive ==> world == Next(old(world), a) && dead == old(dead)
      ensures alive && RowOf(old(world), a).Some? ==> RowOf(old(world), a).value.req in old(world).log
      ensures alive && RowOf(old(world), a).Some? ==>
                var row := RowOf(old(world), a).value;
                world == Move(old(world), me, row.next)
                         .(log := old(world).log[row.req := old(world).log[row.req] + [row.event]])
      ensures !alive ==> world == Move(old(world), me, Idle) && dead
    {
      alive := Survives();
      if alive {
        Do(a);
      }
    }

    /** A step that could take `n` effects: it takes no more, and with as many left the process lives on. */
    twostate predicate Within(n: nat)
      reads this
    {
      left + n >= old(left) && (old(left) >= n ==> dead == old(dead)) && (old(dead) ==> dead)
    }

    // -------------------------------------------------------------------------------------------
    // The gated chain of `_process`
    // -------------------------------------------------------------------------------------------

    /** Append the first no and stop. */
    method Refusing(c: Capsule, at: ChainPoint, kind: EventType)
      requires Valid() && Stage() == Walking(c, setup, at) && Refusal(at, setup, kind) && c.req in world.log
      modifies this
      ensures Valid() && Stage() == Idle && Wrote(old(world), world, c.req, Bare(kind), old(left) > 0) && Within(1)
    {
      hide IsSoloRun;
      var _ := Try(Refuse(me, kind));
    }

    /** Log the event that carries the chain from one point to the next. */
    method Pass(c: Capsule, at: ChainPoint) returns (alive: bool)
      requires Valid() && Stage() == Walking(c, setup, at) && at != GateOpen && c.req in world.log
      modifies this
      ensures Valid() && alive == (old(left) > 0) && Within(1)
      ensures Wrote(old(world), world, c.req, PassRow(at), alive)
      ensures Stage() == if alive then Walking(c, setup, PointAfter(at)) else Idle
    {
      hide IsSoloRun;
      var a := match at
        case ClaimInserted => LogClaim(me)
        case ClaimLogged => PassRisk(me)
        case RiskPassed => PassCheck(me)
        case _ => PassGate(me);
      assert RowOf(world, a) == Some(Row(c.req, PassRow(at), Walking(c, setup, PointAfter(at))));
      alive := Try(a);
    }

    /** From a won claim through eligibility, the preflight gate, reconciliation and FINAL Risk. */
    method WalkToRisk(c: Capsule, a: Answers) returns (open: bool)
      requires Valid() && Stage() == Walking(c, setup, ClaimInserted) && c.req in world.log && world.log[c.req] == []
      modifies this
      ensures Valid() && Advanced(old(world), world, c.req, RiskPath(a), open || old(left) >= 2) && Within(2)
      ensures Stage() == if open then Walking(c, setup, RiskPassed) else Idle
      ensures open ==> RiskYes(a)
      ensures RiskYes(a) && old(left) >= 2 ==> open
    {
      hide IsSoloRun;
      open := Pass(c, ClaimInserted);
      if !open { return; }
      if !a.eligible {
        Refusing(c, ClaimLogged, Ineligible);
        return false;
      }
      if !a.preflight {
        Refusing(c, ClaimLogged, GateClosed);
        return false;
      }
      if a.book != Matched {
        Refusing(c, ClaimLogged, ReconciliationBlocked);
        return false;
      }
      if !a.finalRisk {
        Refusing(c, ClaimLogged, FinalRiskBlocked);
        return false;
      }
      open := Pass(c, ClaimLogged);
    }

    /** From FINAL Risk through the order check and the submission gate. */
    method WalkToGate(c: Capsule, a: Answers) returns (open: bool)
      requires Valid() && Stage() == Walking(c, setup, RiskPassed) && c.req in world.log
      requires RiskYes(a) && world.log[c.req] == RiskPath(a)
      modifies this
      ensures Valid() && Advanced(old(world), world, c.req, GatePath(a), open || old(left) >= 2) && Within(2)
      ensures Stage() == if open then Walking(c, setup, GateOpen) else Idle
      ensures open ==> AllYes(a)
      ensures AllYes(a) && old(left) >= 2 ==> open
    {
      hide IsSoloRun;
      if !a.orderCheck {
        Refusing(c, RiskPassed, OrderCheckRejected);
        return false;
      }
      open := Pass(c, RiskPassed);
      if !open { return; }
      if !a.submissionGate {
        Refusing(c, OrderAccepted, SubmissionGateBlocked);
        return false;
      }
      open := Pass(c, OrderAccepted);
    }

    /** One capsule, start to finish: claim, walk the chain, and at most one `order_send`; or, if the claim is
        an earlier one, recovery.  An order goes out only after a yes to every question, for the configured
        capsule, under a stored, unused permit that covers it; every row of a new chain has its answer; and a
        process that lives leaves the first no as the last row. */
    method Process(o: ApprovedCapsule, a: Answers)
      requires Valid() && Stage() == Idle
      modifies this
      ensures Valid() && Stage() == Idle && world.book == old(world.book) && world.permits == old(world.permits)
      ensures old(world).log.Keys <= world.log.Keys <= old(world).log.Keys + {o.capsule.req}
      ensures forall q :: q in old(world).claims ==> q in world.claims && world.claims[q] == old(world).claims[q]
      ensures forall q :: q != o.capsule.req && q in old(world).log ==> world.log[q] == old(world).log[q]
      ensures world.sends == old(world.sends)
              || (&& SendsFor(setup, old(world), world.sends, o, a)
                  && PermitFits(setup, old(world).permits, old(world).consumed, o.capsule.id, a))
      ensures o.capsule.req !in old(world).log && o.capsule.req in world.log ==>
                RowsHaveAnswers(world.log[o.capsule.req], setup, o, a)
      ensures o.capsule.req !in old(world).log && old(left) >= 8 ==>
                && o.capsule.req in world.log
                && EndsAtTheFirstNo(world.log[o.capsule.req], setup,
                                    PermitFits(setup, old(world).permits, old(world).consumed, o.capsule.id, a), o, a)
                && (AllYes(a) && PermitFits(setup, old(world).permits, old(world).consumed, o.capsule.id, a) ==>
                      |world.sends| == |old(world.sends)| + 1)
      ensures o.capsule.req in old(world).log ==>
                && o.capsule.req in old(world).claims
                && RecoveryOutcome(old(world), world, o.capsule.req)
                && (Conflicts(old(world), o.capsule) ==> world.log == old(world).log)
                && (!Conflicts(old(world), o.capsule) && old(left) >= 6 ==>
                      RecoveryComplete(old(world), world, o.capsule.req))
      ensures left + 8 >= old(left) && (old(dead) ==> dead)
      ensures old(left) >= 8 && dead && !old(dead) ==> Conflicts(old(world), o.capsule) || Impossible(a.reply)
      ensures Conflicts(old(world), o.capsule) ==> dead
      ensures !dead ==> o.capsule.req in world.log
    {
      hide IsSoloRun, RowsHaveAnswers, EndsAtTheFirstNo, PermitFits, ChainPath;
      Claim(o.capsule);
      if Stage().LostClaim? {
        var _ := RecoverAmbiguousSubmission(o.capsule.req);
        return;
      }
      if Stage() == Idle { return; }
      RunChain(o, a);
      var fits := PermitFits(setup, old(world).permits, old(world).consumed, o.capsule.id, a);
      if fits { FittingPermitsCover(setup, old(world).permits, old(world).consumed, o.capsule.id, a); }
      PathsHaveAnswers(world.log[o.capsule.req], setup, fits, o, a);
      PathsEndAtTheFirstNo(setup, fits, o, a);
    }

    /** From the won claim to the end of the chain. */
    method RunChain(o: ApprovedCapsule, a: Answers)
      requires Valid() && Stage() == Walking(o.capsule, setup, ClaimInserted)
      requires o.capsule.req in world.log && world.log[o.capsule.req] == []
      modifies this
      ensures Valid() && Stage() == Idle && OnlyThis(old(world), world, o.capsule.req)
      ensures var fits := PermitFits(setup, old(world).permits, old(world).consumed, o.capsule.id, a);
              && world.log[o.capsule.req] <= ChainPath(setup, fits, o, a)
              && (old(left) >= 7 ==> world.log[o.capsule.req] == ChainPath(setup, fits, o, a))
              && (world.sends == old(world.sends)
                  || (AllYes(a) && fits && world.sends == old(world.sends) +
                      [Send(o.capsule.req, setup.permit, o.capsule.id, setup.capsule)]))
              && (old(left) >= 7 && AllYes(a) && fits ==> |world.sends| == |old(world.sends)| + 1)
      ensures left + 7 >= old(left) && (old(dead) ==> dead)
      ensures old(left) >= 7 && dead && !old(dead) ==> Impossible(a.reply)
    {
      hide IsSoloRun, PermitFits;
      var open := WalkToRisk(o.capsule, a);
      if !open { return; }
      open := WalkToGate(o.capsule, a);
      if !open { return; }
      if setup.PreflightOnly? {
        NoPermitWithoutAdapter(setup, old(world).permits, old(world).consumed, o.capsule.id, a);
        StartSubmission(o);
      } else {
        AttemptRealEntrySubmission(o, a);
      }
    }

    /** The winning insert is the claim. */
    method Claim(c: Capsule)
      requires Valid() && Stage() == Idle
      modifies this
      ensures Valid() && world.book == old(world.book) && world.sends == old(world.sends)
      ensures world.permits == old(world.permits) && world.consumed == old(world.consumed)
      ensures world.halted == old(world.halted)
      ensures Stage() == if old(left) == 0 || Conflicts(old(world), c) then Idle
                         else if c.req in old(world).log then LostClaim(c.req)
                         else Walking(c, setup, ClaimInserted)
      ensures c.req in old(world).log <==> c.req in old(world).claims
      ensures c.req in old(world).log || Stage() == Idle ==>
                world.log == old(world).log && world.claims == old(world).claims
      ensures c.req !in old(world).log && Stage() != Idle ==>
                && world.log == old(world).log[c.req := []]
                && world.claims == old(world).claims[c.req := ExecutionProtocol.Claim(c.id, c.approval)]
      ensures left == (if old(left) > 0 then old(left) - 1 else 0)
      ensures dead == (old(dead) || old(left) == 0 || Conflicts(old(world), c))
    {
      hide IsSoloRun;
      Standing();
      var alive := Try(TryClaim(me, c, setup));
      if alive && Stage() == Idle {
        dead := true;  // a different approval chain under this id raises
      }
    }

    method StartSubmission(o: ApprovedCapsule)
      requires Valid() && setup.PreflightOnly? && Stage() == Walking(o.capsule, setup, GateOpen)
      requires o.capsule.req in world.log
      modifies this
      ensures Valid() && Stage() == Idle && Within(1)
      ensures Wrote(old(world), world, o.capsule.req, Started(o.entry, o.stopLoss), old(left) > 0)
    {
      hide IsSoloRun;
      var _ := Try(StartWithoutSending(me, o.entry, o.stopLoss));
    }

    /** The canary path: capsule identity, permit scope, the one-shot transaction, and only then the send. */
    method AttemptRealEntrySubmission(o: ApprovedCapsule, a: Answers)
      requires Valid() && setup.Canary? && Stage() == Walking(o.capsule, setup, GateOpen)
      requires o.capsule.req in world.log
      modifies this
      ensures Valid() && Stage() == Idle && OnlyThis(old(world), world, o.capsule.req)
      ensures var fits := PermitFits(setup, old(world).permits, old(world).consumed, o.capsule.id, a);
              Attempted(old(world), world, setup, fits, o, a, old(left) >= 3)
      ensures left + 3 >= old(left) && (old(dead) ==> dead)
      ensures old(left) >= 3 && dead && !old(dead) ==> Impossible(a.reply)
    {
      hide IsSoloRun;
      if o.capsule.id != setup.capsule {
        Refusing(o.capsule, GateOpen, CanaryPermitBlocked);
        return;
      }
      var mismatches := CanaryScope.ScopeMismatches(a.permit, a.facts);
      hide CanaryScope.Covers;
      if mismatches != [] || setup.permit !in world.permits || setup.permit in world.consumed {
        Refusing(o.capsule, GateOpen, CanaryPermitBlocked);
        return;
      }
      CommitThenSend(o, a);
    }

    /** Durable commitment first; the order goes out only after it. */
    method CommitThenSend(o: ApprovedCapsule, a: Answers)
      requires Valid() && setup.Canary? && Stage() == Walking(o.capsule, setup, GateOpen)
      requires o.capsule.req in world.log && o.capsule.id == setup.capsule
      requires setup.permit in world.permits && setup.permit !in world.consumed
      modifies this
      ensures Valid() && Stage() == Idle && OnlyThis(old(world), world, o.capsule.req)
      ensures Attempted(old(world), world, setup, true, o, a, old(left) >= 3)
      ensures left + 3 >= old(left) && (old(dead) ==> dead)
      ensures old(left) >= 3 && dead && !old(dead) ==> Impossible(a.reply)
    {
      hide IsSoloRun;
      var alive := CommitWithPermit(o);
      if !alive { return; }
      alive := SendOrder(o.capsule);
      if !alive { return; }
      hide Attempted;
      ghost var mid := world;
      RecordReply(o.capsule, a.reply);
      RepliedIsAttempted(old(world), mid, world, setup, o, a);
    }

    method SendOrder(c: Capsule) returns (alive: bool)
      requires Valid() && setup.Canary? && Stage() == Committed(c, setup)
      modifies this
      ensures Valid() && alive == (old(left) > 0) && Within(1)
      ensures if alive
              then world == Move(old(world), me, AwaitingReply(c, setup)).(
                     sends := old(world).sends + [Send(c.req, setup.permit, c.id, setup.capsule)])
              else world == Move(old(world), me, Idle)
    {
      alive := Try(OrderSend(me));
    }

    /** A transport failure leaves SUBMISSION_STARTED last on purpose; a reply is recorded as what it means;
        a reply that cannot come back from `order_send` raises. */
    method RecordReply(c: Capsule, reply: Option<BrokerReply>)
      requires Valid() && Stage() == AwaitingReply(c, setup) && c.req in world.log
      modifies this
      ensures Valid() && Stage() == Idle && QuietExcept(old(world), world, c.req) && world.halted == old(world.halted)
      ensures world.log[c.req] ==
              old(world).log[c.req]
              + (if reply.Some? && NormalizeExecutionResult(reply.value.state).Some? && old(left) > 0
                 then [ReplyEvent(reply.value)] else [])
      ensures left + 1 >= old(left) && (old(dead) ==> dead)
      ensures old(left) >= 1 && dead && !old(dead) ==> Impossible(reply)
      ensures Impossible(reply) ==> dead
    {
      if reply.None? {
        var _ := Try(TransportFailed(me));
        return;
      }
      var kind := NormalizeExecutionResult(reply.value.state);
      if kind.None? {
        Do(Crash(me));
        dead := true;
        return;
      }
      var _ := Try(LogReply(me, kind.value, reply.value.orderTicket));
    }

    /** The transaction: consumption and SUBMISSION_STARTED become durable together or not at all. */
    method CommitWithPermit(o: ApprovedCapsule) returns (alive: bool)
      requires Valid() && setup.Canary? && Stage() == Walking(o.capsule, setup, GateOpen)
      requires o.capsule.req in world.log && o.capsule.id == setup.capsule
      requires setup.permit in world.permits && setup.permit !in world.consumed
      modifies this
      ensures Valid() && alive == (old(left) > 0) && Within(1)
      ensures if alive
              then world == Move(old(world), me, Committed(o.capsule, setup)).(
                     consumed := old(world).consumed[setup.permit := o.capsule.req],
                     log := old(world).log[o.capsule.req :=
                                             old(world).log[o.capsule.req] + [Started(o.entry, o.stopLoss)]])
              else world == Move(old(world), me, Idle)
    {
      Standing();
      assert Grounded(world.workers[me], world.log, world.consumed, world.sends);
      alive := Try(CommitPermit(me, o.entry, o.stopLoss));
    }

    // -------------------------------------------------------------------------------------------
    // Recovery and resolution
    // -------------------------------------------------------------------------------------------

    method RecoverAmbiguousSubmission(r: RequestId) returns (completed: bool)
      requires Valid() && Stage() == LostClaim(r) && r in world.log
      modifies this
      ensures Valid() && Stage() == Idle && QuietExcept(old(world), world, r)
      ensures RecoveryOutcome(old(world), world, r)
      ensures completed ==> RecoveryComplete(old(world), world, r)
      ensures Within(5) && (old(left) >= 5 ==> completed)
    {
      hide IsSoloRun, RecoveryOutcome, RecoveryComplete;
      completed := false;
      var alive := ReadHistoryOf(r);
      NothingToRecover(old(world), world, r);
      if !alive { return; }
      if Stage() == Idle { return true; }
      alive := ReadBookFor(r);
      NothingToRecover(old(world), world, r);
      if !alive { return; }
      ghost var mid := world;
      completed := RecordRecovery(r);
      SameBookSameRecovery(old(world), mid, world, r);
    }

    method ReadHistoryOf(r: RequestId) returns (alive: bool)
      requires Valid() && Stage() == LostClaim(r) && r in world.log
      modifies this
      ensures Valid() && alive == (old(left) > 0) && Within(1)
      ensures world == Move(old(world), me, if alive && LastIs(old(world).log[r], SubmissionStarted)
                                            then SawStarted(r) else Idle)
    {
      alive := Try(ReadHistory(me));
    }

    /** Positions first; pending orders only when no position matched. */
    method ReadBookFor(r: RequestId) returns (alive: bool)
      requires Valid() && Stage() == SawStarted(r)
      modifies this
      ensures Valid() && Within(2) && (old(left) >= 2 ==> alive)
      ensures alive ==> var matches := PositionsWith(world.book.positions, r.magic);
                        world == Move(old(world), me, if matches == []
                                                      then SawBook(r, [], OrdersWith(world.book.pending, r.magic))
                                                      else SawPositions(r, matches))
      ensures !alive ==> world == Move(old(world), me, Idle)
    {
      hide IsSoloRun;
      alive := Try(ReadPositions(me));
      if alive && Stage().matches == [] {
        alive := Try(ReadPending(me));
      }
    }

    /** Append what the reads showed, then trip if they showed duplicates. */
    method RecordRecovery(r: RequestId) returns (completed: bool)
      requires Valid() && r in world.log && LastIs(world.log[r], SubmissionStarted)
      requires var matches := PositionsWith(world.book.positions, r.magic);
               if matches == [] then Stage() == SawBook(r, [], OrdersWith(world.book.pending, r.magic))
               else Stage() == SawPositions(r, matches)
      modifies this
      ensures Valid() && Stage() == Idle && QuietExcept(old(world), world, r)
      ensures RecoveryOutcome(old(world), world, r)
      ensures completed ==> RecoveryComplete(old(world), world, r)
      ensures Within(2) && (old(left) >= 2 ==> completed)
    {
      hide IsSoloRun, RecoveryComplete, VerdictFor;
      completed := false;
      var alive := AppendVerdict(r);
      if !alive { return; }
      VerdictMeansOutcome(old(world), me, r);
      if Stage() == MustTrip {
        alive := TripSwitch();
        if !alive { return; }
      }
      completed := true;
    }

    method TripSwitch() returns (alive: bool)
      requires Valid() && Stage() == MustTrip
      modifies this
      ensures Valid() && alive == (old(left) > 0) && Within(1)
      ensures world == (if alive then Move(old(world), me, Idle).(halted := true) else Move(old(world), me, Idle))
    {
      alive := Try(Trip(me));
    }

    method AppendVerdict(r: RequestId) returns (alive: bool)
      requires Valid() && r in world.log && LastIs(world.log[r], SubmissionStarted)
      requires var matches := PositionsWith(world.book.positions, r.magic);
               if matches == [] then Stage() == SawBook(r, [], OrdersWith(world.book.pending, r.magic))
               else Stage() == SawPositions(r, matches)
      modifies this
      ensures Valid() && alive == (old(left) > 0) && Within(1)
      ensures alive ==> world == Decided(old(world), me, r, VerdictFor(old(world).book, r))
      ensures !alive ==> world == Move(old(world), me, Idle)
    {
      alive := Try(LogRecovery(me));
    }

    /** `request_ids_with_event`: every request whose log holds the kind, once. */
    method RequestIdsWithEvent(kind: EventType) returns (ids: seq<RequestId>)
      ensures Lists(ids, world.log, kind) && |ids| <= |world.log|
    {
      ids := [];
      var rest := world.log.Keys;
      while rest != {}
        invariant rest <= world.log.Keys && NoRepeats(ids) && |ids| + |rest| <= |world.log|
        invariant forall r :: r in ids <==> r in world.log && r !in rest && HasKind(world.log[r], kind)
      {
        var r :| r in rest;
        rest := rest - {r};
        if HasKind(world.log[r], kind) {
          ids := ids + [r];
        }
      }
    }

    /** SUBMITTED to FILLED, for every resting request, over one read of the book. */
    method ResolvePendingOnce() returns (completed: bool)
      requires Valid() && Stage() == Idle
      modifies this
      ensures Valid() && Stage() == Idle && Untouched(old(world), world)
      ensures forall r :: r in world.log ==>
                            world.log[r] == old(world).log[r] || world.log[r] == PendingAfter(old(world), r)
      ensures completed ==>
                forall r :: r in world.log ==>
                              && world.log[r] == PendingAfter(old(world), r)
                              && (DuplicatePending(old(world), r) ==> world.halted)
      ensures old(left) >= 3 * |old(world).log| ==> completed && dead == old(dead)
    {
      hide IsSoloRun, PendingAfter, DuplicatePending, PendingSoFar, PendingDone;
      completed := false;
      NothingPendingYet(world);
      var ids := RequestIdsWithEvent(Submitted);
      var seen := world.book;
      for i := 0 to |ids|
        invariant Valid() && Stage() == Idle && world.log.Keys == old(world).log.Keys && seen == world.book
        invariant PendingSoFar(old(world), world, ids[..i]) && PendingDone(old(world), world, ids[..i])
        invariant left + 3 * i >= old(left) && (old(left) >= 3 * |ids| ==> dead == old(dead))
      {
        ghost var mid := world;
        var alive := ResolveOne(ids[i], seen);
        OneMorePending(old(world), mid, world, ids, i, alive);
        if !alive {
          PendingIsUntouched(old(world), world, ids[..i + 1]);
          return;
        }
      }
      completed := true;
      assert ids[..|ids|] == ids;
      PendingIsUntouched(old(world), world, ids);
      PendingIsDone(old(world), world, ids);
      forall r | r in world.log && r !in ids
        ensures PendingAfter(old(world), r) == old(world).log[r] && !DuplicatePending(old(world), r) {
        NotSubmittedMeansLeft(old(world), r);
      }
    }

    method ResolveOne(r: RequestId, seen: Book) returns (alive: bool)
      requires Valid() && Stage() == Idle && r in world.log && seen == world.book
      modifies this
      ensures Valid() && Stage() == Idle && ResolveOutcome(old(world), world, r)
      ensures alive ==> ResolveComplete(old(world), world, r)
      ensures Within(3) && (old(left) >= 3 ==> alive)
    {
      hide IsSoloRun;
      var ticket := RestsAs(world.log[r]);
      if ticket.None? { return true; }
      alive := ReadSubmitted(r, ticket.value, seen);
      if !alive { return; }
      alive := RecordResolution(r, ticket.value, seen);
    }

    /** Append what the book showed, then trip if it showed duplicates. */
    method RecordResolution(r: RequestId, ticket: Ticket, seen: Book) returns (alive: bool)
      requires Valid() && Stage() == SawSubmitted(r, ticket, seen) && r in world.log && seen == world.book
      requires RestsAs(world.log[r]) == Some(ticket)
      modifies this
      ensures Valid() && Stage() == Idle && ResolveOutcome(old(world), world, r)
      ensures alive ==> ResolveComplete(old(world), world, r)
      ensures Within(2) && (old(left) >= 2 ==> alive)
    {
      alive := AppendPendingVerdict(r, ticket, seen);
      if !alive { return; }
      DecidedIsPendingAfter(old(world), me, r, ticket);
      if Stage() == MustTrip {
        alive := TripSwitch();
      }
    }

    method ReadSubmitted(r: RequestId, ticket: Ticket, seen: Book) returns (alive: bool)
      requires Valid() && Stage() == Idle && r in world.log && RestsAs(world.log[r]) == Some(ticket)
      modifies this
      ensures Valid() && alive == (old(left) > 0) && Within(1)
      ensures world == Move(old(world), me, if alive then SawSubmitted(r, ticket, seen) else Idle)
    {
      alive := Try(FindSubmitted(me, r, seen));
    }

    method AppendPendingVerdict(r: RequestId, ticket: Ticket, seen: Book) returns (alive: bool)
      requires Valid() && Stage() == SawSubmitted(r, ticket, seen) && r in world.log
      modifies this
      ensures Valid() && alive == (old(left) > 0) && Within(1)
      ensures alive ==> world == Decided(old(world), me, r, PendingVerdict(ticket, r.magic, seen))
      ensures !alive ==> world == Move(old(world), me, Idle)
    {
      alive := Try(LogPending(me));
    }

    // -------------------------------------------------------------------------------------------
    // Reconciliation
    // -------------------------------------------------------------------------------------------

    /** The whole-book comparison: unknown when the read was incomplete or the expectation is not fully
        determined, otherwise what the comparison says. */
    method CompareBook(exposure: DerivedExposure, complete: bool, compared: BookStatus) returns (status: BookStatus)
      ensures status != Unknown <==> complete && exposure.reasons == [] && compared != Unknown
    {
      status := if !complete || exposure.reasons != [] then Unknown else compared;
    }

    /** A request gets its row exactly when the book was read and could be compared, nothing anywhere is
        undetermined, and it has none yet, is determined itself and has all its remaining tickets observed
        open; a process that lives writes them all. */
    method ReconcileOnce(os: seq<Occurrence>, complete: bool, compared: BookStatus)
      returns (ids: seq<RequestId>, exposure: DerivedExposure, open: set<Ticket>)
      requires Valid() && Stage() == Idle
      modifies this
      ensures Valid() && Stage() == Idle && Untouched(old(world), world)
      ensures Lists(ids, old(world).log, SubmissionStarted)
      ensures open == if complete then OpenTickets(old(world).book) else {}
      ensures exposure == Derive(HistoriesOf(ids, old(world).log), os)
      ensures forall r :: r in world.log ==> ReconcileOutcome(old(world), world, exposure, open, r)
      ensures !complete || compared == Unknown ==> world.log == old(world).log
      ensures !dead ==>
                forall r :: r in world.log ==>
                              (world.log[r] != old(world).log[r] <==>
                                 complete && compared != Unknown && MayReconcile(old(world).log[r], r, exposure, open))
      ensures old(left) >= 2 * |old(world).log| ==> dead == old(dead)
    {
      hide IsSoloRun, Derive;
      ids := RequestIdsWithEvent(SubmissionStarted);
      open := if complete then OpenTickets(world.book) else {};
      exposure := DeriveExpectedExposure(HistoriesOf(ids, world.log), os);
      forall r | r in exposure.determined ensures r in ids && StandingOf(History(r, world.log[r])).Known? {
        DeterminedMeansKnown(ids, world.log, os, r);
      }
      forall r | r in exposure.determined ensures r in exposure.ticketsByRequest {
        DeterminedHasTickets(ids, world.log, os, r);
      }
      var pending := set r | r in ids && !HasKind(world.log[r], Reconciled);
      forall r | r in world.log && MayReconcile(world.log[r], r, exposure, open) ensures r in pending {
      }
      if pending == {} { return; }
      var status := CompareBook(exposure, complete, compared);
      if status == Unknown { return; }
      WriteVerdicts(ids, pending, exposure, open);
    }

    method WriteVerdicts(ids: seq<RequestId>, pending: set<RequestId>, exposure: DerivedExposure, open: set<Ticket>)
      requires Valid() && Stage() == Idle && exposure.reasons == []
      requires Lists(ids, world.log, SubmissionStarted) && |ids| <= |world.log|
      requires pending == set r | r in ids && !HasKind(world.log[r], Reconciled)
      requires forall r :: r in exposure.determined ==>
                             && r in ids && r in exposure.ticketsByRequest
                             && StandingOf(History(r, world.log[r])).Known?
      modifies this
      ensures Valid() && Stage() == Idle && Untouched(old(world), world)
      ensures forall r :: r in world.log ==> ReconcileOutcome(old(world), world, exposure, open, r)
      ensures !dead ==>
                forall r :: r in world.log ==>
                              (world.log[r] != old(world).log[r] <==>
                                 MayReconcile(old(world).log[r], r, exposure, open))
      ensures old(left) >= 2 * |old(world).log| ==> dead == old(dead)
    {
      hide IsSoloRun, VerdictsSoFar, AllVerdicts;
      NoVerdictsYet(world, ids, exposure, open);
      for i := 0 to |ids|
        invariant world.log.Keys == old(world).log.Keys
        invariant Valid() && Stage() == Idle && VerdictsSoFar(old(world), world, ids, i, exposure, open)
        invariant AllVerdicts(old(world), world, ids, i, exposure, open)
        invariant left + 2 * i >= old(left) && (old(left) >= 2 * |ids| ==> dead == old(dead))
      {
        VerdictsKeepTheRest(old(world), world, ids, i, exposure, open);
        ghost var mid := world;
        var alive := true;
        if ids[i] in pending {
          alive := ReconcileRequest(ids[i], exposure, open);
        }
        OneMoreVerdict(old(world), mid, world, ids, i, exposure, open, alive);
        if !alive {
          VerdictsAreOutcomes(old(world), world, ids, i + 1, exposure, open);
          return;
        }
      }
      VerdictsAreOutcomes(old(world), world, ids, |ids|, exposure, open);
      AllVerdictsAreIn(old(world), world, ids, exposure, open);
    }

    /** Write the row unless a remaining ticket is not observed open, or the request is undetermined. */
    method ReconcileRequest(r: RequestId, exposure: DerivedExposure, open: set<Ticket>) returns (alive: bool)
      requires Valid() && Stage() == Idle && exposure.reasons == []
      requires r in world.log && HasKind(world.log[r], SubmissionStarted) && !HasKind(world.log[r], Reconciled)
      requires r in exposure.determined ==>
                 StandingOf(History(r, world.log[r])).Known? && r in exposure.ticketsByRequest
      modifies this
      ensures Valid() && Stage() == Idle && QuietExcept(old(world), world, r) && world.halted == old(world).halted
      ensures ReconcileOutcome(old(world), world, exposure, open, r)
      ensures alive ==> (world.log[r] != old(world).log[r] <==> MayReconcile(old(world).log[r], r, exposure, open))
      ensures Within(2) && (old(left) >= 2 ==> alive) && (!alive ==> dead)
    {
      hide IsSoloRun;
      alive := true;
      if r in exposure.determined && r in exposure.ticketsByRequest && exposure.ticketsByRequest[r] - open == {} {
        assert exposure.ticketsByRequest[r] <= open by {
          assert forall t :: t in exposure.ticketsByRequest[r] ==> t !in exposure.ticketsByRequest[r] - open;
        }
        alive := WriteReconciled(r, RecordOf(world.log[r], exposure.ticketsByRequest[r], open));
      }
    }

    method WriteReconciled(r: RequestId, record: Payload) returns (alive: bool)
      requires Valid() && Stage() == Idle && r in world.log
      requires HasKind(world.log[r], SubmissionStarted) && !HasKind(world.log[r], Reconciled)
               && StandingOf(History(r, world.log[r])).Known?
      modifies this
      ensures Valid() && Stage() == Idle && QuietExcept(old(world), world, r) && world.halted == old(world).halted
      ensures world.log[r] == old(world).log[r] + (if alive then [ExecutionEvent(Reconciled, Some(record))] else [])
      ensures Within(2) && (old(left) >= 2 ==> alive) && (!alive ==> dead)
    {
      hide IsSoloRun;
      alive := Try(FindDetermined(me, r, record));
      if alive {
        alive := Try(LogReconciled(me));
      }
    }

    /** A whole pass: the flatten, every approved capsule in turn, then reconciliation; it ends where the
        process dies or raises.  Whatever the capsules and wherever it ends, it calls `order_send` at most
        once, for a capsule with a yes to every question under a permit that covers it.  A process that lives
        leaves every capsule claimed and nothing that could be reconciled. */
    method RunOnce(capsules: seq<ApprovedCapsule>, answers: seq<Answers>, flatten: Flatten.FlattenDriver,
                   day: Flatten.Day, told: Flatten.Answers, complete: bool, compared: BookStatus, effects: nat)
      returns (ids: seq<RequestId>, os: seq<Occurrence>, exposure: DerivedExposure)
      requires Valid() && Stage() == Idle && flatten.Valid() && |answers| == |capsules|
      modifies this, flatten
      ensures Valid() && Stage() == Idle && world.book == old(world.book)
      ensures flatten.Valid() && |flatten.passes| == |old(flatten.passes)| + 1 && old(flatten.passes) < flatten.passes
      ensures SentBy(setup, old(world), world.sends, capsules, answers)
      ensures NewChainsHaveAnswers(old(world), world, setup, capsules, answers, |capsules|)
      ensures !dead ==> forall i :: 0 <= i < |capsules| ==> capsules[i].capsule.req in world.log
      ensures !dead ==> && Lists(ids, world.log, SubmissionStarted)
                        && (forall o :: o in os <==> o.id in flatten.log && o.events == flatten.log[o.id])
                        && exposure == Derive(HistoriesOf(ids, world.log), os)
      ensures !dead && complete && compared != Unknown ==>
                forall r :: r in world.log ==>
                              !MayReconcile(world.log[r], r, exposure, OpenTickets(world.book))
      ensures dead ==>
                || !flatten.passes[|old(flatten.passes)|].alive
                || SomeRaises(world, capsules, answers)
                || effects < 8 * |capsules| + 2 * |world.log|
    {
      hide IsSoloRun, RowsHaveAnswers, Derive, RecoveryOutcome, ReconcileOutcome;
      dead, left := false, effects;
      ids, os, exposure := [], [], NOTHING_DERIVED;
      var pass := flatten.FlattenOnce(day, told);
      if !pass.alive {
        dead := true;
        return;
      }
      ProcessAll(capsules, answers);
      if dead { return; }
      os := flatten.OccurrenceHistories();
      ghost var mid, open := world, {};
      ids, exposure, open := ReconcileOnce(os, complete, compared);
      ReconciledChains(old(world), mid, world, setup, capsules, answers, exposure, open);
      SameStartedRequests(ids, mid, world, exposure, open);
      ReconciliationKeepsExposure(ids, mid, world, os, exposure, open);
    }

    /** Every capsule in turn, until the process dies or raises. */
    method ProcessAll(capsules: seq<ApprovedCapsule>, answers: seq<Answers>)
      requires Valid() && Stage() == Idle && |answers| == |capsules| && !dead
      modifies this
      ensures Valid() && Stage() == Idle && world.book == old(world.book)
      ensures SentBy(setup, old(world), world.sends, capsules, answers)
      ensures NewChainsHaveAnswers(old(world), world, setup, capsules, answers, |capsules|)
      ensures !dead ==> forall i :: 0 <= i < |capsules| ==> capsules[i].capsule.req in world.log
      ensures left + 8 * |capsules| >= old(left)
      ensures dead ==> old(left) < 8 * |capsules| || SomeRaises(world, capsules, answers)
    {
      assert PassSoFar(world, world, setup, capsules, answers, 0);
      hide IsSoloRun, PassSoFar;
      for i := 0 to |capsules|
        invariant Valid() && Stage() == Idle && !dead && left + 8 * i >= old(left)
        invariant PassSoFar(old(world), world, setup, capsules, answers, i)
      {
        ProcessNext(old(world), capsules, answers, i);
        if dead {
          PassKeeps(old(world), world, setup, capsules, answers, i + 1);
          return;
        }
      }
      PassKeeps(old(world), world, setup, capsules, answers, |capsules|);
    }

    method ProcessNext(ghost w: World, capsules: seq<ApprovedCapsule>, answers: seq<Answers>, i: nat)
      requires Valid() && Stage() == Idle && !dead && i < |capsules| == |answers|
      requires PassSoFar(w, world, setup, capsules, answers, i)
      modifies this
      ensures Valid() && Stage() == Idle && left + 8 >= old(left)
      ensures PassSoFar(w, world, setup, capsules, answers, i + 1) || dead
      ensures PassSoFarButLast(w, world, setup, capsules, answers, i + 1)
      ensures dead ==> old(left) < 8 || SomeRaises(world, capsules, answers)
    {
      hide IsSoloRun, RowsHaveAnswers, EndsAtTheFirstNo, PermitFits, RecoveryComplete, RecoveryOutcome, SendsFor,
        NewChainsHaveAnswers, SentBy, Safe, Regular;
      ghost var before := world;
      Process(capsules[i], answers[i]);
      Standing();
      SentByOneMore(w, before, world, setup, capsules, answers, i);
      OneMoreChain(w, before, world, setup, capsules, answers, i);
    }
  }
}
