/**
 What the platform's own durable history says it should hold at the broker
 (`application/expected_state.py`).  The loops that fill dictionaries, sets and lists are methods;
 each is proved against folds, and the folds are proved equal to a set-level specification that
 names no loop.
 */
module ExpectedExposure {
  import opened ExecutionEvents
  import opened FlattenEvents

  datatype Exposure = NoExposure | Determined | Undetermined | NotRelevant

  /** The table every event kind has an entry in. */
  function Classify(kind: EventType): Exposure {
    match kind
    case SubmissionStarted | Submitted | BrokerAck | Filled | Closed => Undetermined
    case AmbiguousOutcomeResolved | Rejected => Determined
    case Reconciled => NotRelevant
    case _ => NoExposure
  }

  datatype History = History(id: RequestId, events: seq<ExecutionEvent>)

  datatype Reason =
    | StuckAtStarted(id: RequestId)
    | RestingOrder(id: RequestId)
    | SharedMagic(id: RequestId)
    | MalformedResolution(id: RequestId)
    | UnattributablePending(id: RequestId, entry: EntryType)
    | FlattenUnconfirmed(occurrence: OccurrenceId, tickets: seq<Ticket>)

  datatype DerivedExposure = DerivedExposure(
    tickets: set<Ticket>,
    reasons: seq<Reason>,
    ticketsByRequest: map<RequestId, set<Ticket>>,
    determined: set<RequestId>,
    stopLoss: map<RequestId, real>)

  // ---------------------------------------------------------------------------------------------
  // One request
  // ---------------------------------------------------------------------------------------------

  /** The newest event that is not skipped, searched from the end. */
  function LastRelevant(h: seq<ExecutionEvent>): Option<ExecutionEvent> {
    if h == [] then None
    else if Classify(h[|h| - 1].kind) == NotRelevant then LastRelevant(h[..|h| - 1])
    else Some(h[|h| - 1])
  }

  /** The first SUBMISSION_STARTED payload that names an entry type. */
  function EntryTypeOf(h: seq<ExecutionEvent>): Option<EntryType> {
    if h == [] then None
    else if h[0].kind == SubmissionStarted && h[0].payload.Some? && h[0].payload.value.entryType.Some?
    then h[0].payload.value.entryType
    else EntryTypeOf(h[1..])
  }

  function StopLossOf(h: seq<ExecutionEvent>): Option<real> {
    if h == [] then None
    else if h[0].kind == SubmissionStarted && h[0].payload.Some? && h[0].payload.value.stopLoss.Some?
    then h[0].payload.value.stopLoss
    else StopLossOf(h[1..])
  }

  function TicketSet(s: seq<Ticket>): (r: set<Ticket>)
    ensures forall t :: t in r <==> t in s
  {
    set t | t in s
  }

  /** Where one request stands: nothing to say, an open question, or a known set of tickets. */
  datatype Standing =
    | Silent
    | Open(reason: Reason)
    | Known(tickets: set<Ticket>, submitted: bool)

  function StandingOf(r: History): Standing {
    match LastRelevant(r.events)
    case None => Silent
    case Some(e) =>
      match e.kind
      case SubmissionStarted => Open(StuckAtStarted(r.id))
      case Submitted => Open(RestingOrder(r.id))
      case Rejected => Known({}, false)
      case AmbiguousOutcomeResolved =>
        if e.payload.Some? && e.payload.value.integrityAmbiguity then Open(SharedMagic(r.id))
        else if e.payload.None? || e.payload.value.submitted.None? then Open(MalformedResolution(r.id))
        else if !e.payload.value.submitted.value then Known({}, false)
        else Known(TicketSet(e.payload.value.matchingTickets), true)
      case _ => Silent
  }

  /** The reasons one request contributes: an open question, or a non-market entry whose pending
      order could not be attributed. */
  function ReasonsOf(r: History): seq<Reason> {
    match StandingOf(r)
    case Silent => []
    case Open(reason) => [reason]
    case Known(_, submitted) =>
      var entry := EntryTypeOf(r.events);
      if submitted && entry.Some? && entry.value != Market
      then [UnattributablePending(r.id, entry.value)] else []
  }

  // ---------------------------------------------------------------------------------------------
  // Flatten occurrences
  // ---------------------------------------------------------------------------------------------

  /** The payload of the last event of `kind`; a later event without payload hides an earlier one. */
  function LastPayload(es: seq<FlattenEvent>, kind: FlattenEventType): Option<FlattenPayload> {
    if es == [] then None
    else if es[|es| - 1].kind == kind then es[|es| - 1].payload
    else LastPayload(es[..|es| - 1], kind)
  }

  function ClosedBy(o: Occurrence): set<Ticket> {
    var resolved := LastPayload(o.events, FlattenOutcomeResolved);
    if LastPayload(o.events, FlattenSubmissionStarted).Some? && resolved.Some?
    then TicketSet(resolved.value.closed) else {}
  }

  function FlattenReasonsOf(o: Occurrence): seq<Reason> {
    var commitment := LastPayload(o.events, FlattenSubmissionStarted);
    if commitment.Some? && LastPayload(o.events, FlattenOutcomeResolved).None? && commitment.value.instructions != []
    then [FlattenUnconfirmed(o.id, commitment.value.instructions)] else []
  }

  // ---------------------------------------------------------------------------------------------
  // Folds in call order
  // ---------------------------------------------------------------------------------------------

  function RequestReasons(rs: seq<History>): seq<Reason> {
    if rs == [] then [] else RequestReasons(rs[..|rs| - 1]) + ReasonsOf(rs[|rs| - 1])
  }

  function OccurrenceReasons(os: seq<Occurrence>): seq<Reason> {
    if os == [] then [] else OccurrenceReasons(os[..|os| - 1]) + FlattenReasonsOf(os[|os| - 1])
  }

  function FlattenClosed(os: seq<Occurrence>): set<Ticket> {
    if os == [] then {} else FlattenClosed(os[..|os| - 1]) + ClosedBy(os[|os| - 1])
  }

  /** Dictionary assignment: with a repeated id the later history wins. */
  function TicketMap(rs: seq<History>): map<RequestId, set<Ticket>> {
    if rs == [] then map[]
    else
      var rest, last := TicketMap(rs[..|rs| - 1]), rs[|rs| - 1];
      if StandingOf(last).Known? then rest[last.id := StandingOf(last).tickets] else rest
  }

  function StopMap(rs: seq<History>): map<RequestId, real> {
    if rs == [] then map[]
    else
      var rest, last := StopMap(rs[..|rs| - 1]), rs[|rs| - 1];
      if StandingOf(last).Known? && StandingOf(last).submitted && StopLossOf(last.events).Some?
      then rest[last.id := StopLossOf(last.events).value] else rest
  }

  function DeterminedIds(rs: seq<History>): set<RequestId> {
    if rs == [] then {}
    else DeterminedIds(rs[..|rs| - 1]) + if StandingOf(rs[|rs| - 1]).Known? then {rs[|rs| - 1].id} else {}
  }

  function TicketsOf(r: History): set<Ticket> {
    if StandingOf(r).Known? then StandingOf(r).tickets else {}
  }

  function KnownTickets(rs: seq<History>): set<Ticket> {
    if rs == [] then {} else KnownTickets(rs[..|rs| - 1]) + TicketsOf(rs[|rs| - 1])
  }

  function Derive(rs: seq<History>, os: seq<Occurrence>): DerivedExposure {
    var closed := FlattenClosed(os);
    DerivedExposure(
      KnownTickets(rs) - closed,
      RequestReasons(rs) + OccurrenceReasons(os),
      map id | id in TicketMap(rs) :: TicketMap(rs)[id] - closed,
      DeterminedIds(rs),
      StopMap(rs))
  }

  // ---------------------------------------------------------------------------------------------
  // The loops
  // ---------------------------------------------------------------------------------------------

  method FlattenRemovedAndUndetermined(os: seq<Occurrence>) returns (closed: set<Ticket>, reasons: seq<Reason>)
    ensures closed == FlattenClosed(os)
    ensures reasons == OccurrenceReasons(os)
  {
    closed, reasons := {}, [];
    for i := 0 to |os|
      invariant closed == FlattenClosed(os[..i])
      invariant reasons == OccurrenceReasons(os[..i])
    {
      var o := os[i];
      var commitment: Option<FlattenPayload> := None;
      var resolved: Option<FlattenPayload> := None;
      for j := 0 to |o.events|
        invariant commitment == LastPayload(o.events[..j], FlattenSubmissionStarted)
        invariant resolved == LastPayload(o.events[..j], FlattenOutcomeResolved)
      {
        var e := o.events[j];
        assert o.events[..j + 1][..j] == o.events[..j];
        if e.kind == FlattenSubmissionStarted {
          commitment := e.payload;
        } else if e.kind == FlattenOutcomeResolved {
          resolved := e.payload;
        }
      }
      assert o.events[..|o.events|] == o.events;
      assert os[..i + 1][..i] == os[..i];
      if commitment.Some? {
        if resolved.Some? {
          closed := closed + TicketSet(resolved.value.closed);
        } else if commitment.value.instructions != [] {
          reasons := reasons + [FlattenUnconfirmed(o.id, commitment.value.instructions)];
        }
      }
    }
    assert os[..|os|] == os;
  }

  method RemoveClosed(before: map<RequestId, set<Ticket>>, closed: set<Ticket>)
    returns (after: map<RequestId, set<Ticket>>)
    ensures after == map id | id in before :: before[id] - closed
  {
    after := before;
    var pending := before.Keys;
    while pending != {}
      invariant pending <= after.Keys == before.Keys
      invariant forall id :: id in after ==> after[id] == if id in pending then before[id] else before[id] - closed
    {
      var id :| id in pending;
      after := after[id := after[id] - closed];
      pending := pending - {id};
    }
  }

  /** The branches over one request's newest relevant event. */
  method Judge(r: History) returns (standing: Standing, reasons: seq<Reason>)
    ensures standing == StandingOf(r) && reasons == ReasonsOf(r)
    ensures standing.Known? && !standing.submitted ==> standing.tickets == {}
  {
    var last := LastRelevant(r.events);
    if last.None? { return Silent, []; }
    var kind, payload := last.value.kind, last.value.payload;
    if kind == SubmissionStarted { return Open(StuckAtStarted(r.id)), [StuckAtStarted(r.id)]; }
    if kind == Submitted { return Open(RestingOrder(r.id)), [RestingOrder(r.id)]; }
    if kind == Rejected { return Known({}, false), []; }
    if kind != AmbiguousOutcomeResolved { return Silent, []; }
    if payload.Some? && payload.value.integrityAmbiguity { return Open(SharedMagic(r.id)), [SharedMagic(r.id)]; }
    if payload.None? || payload.value.submitted.None? {
      return Open(MalformedResolution(r.id)), [MalformedResolution(r.id)];
    }
    if !payload.value.submitted.value { return Known({}, false), []; }
    standing, reasons := Known(TicketSet(payload.value.matchingTickets), true), [];
    var entry := EntryTypeOf(r.events);
    if entry.Some? && entry.value != Market {
      reasons := [UnattributablePending(r.id, entry.value)];
    }
  }

  method DeriveExpectedExposure(rs: seq<History>, os: seq<Occurrence>) returns (d: DerivedExposure)
    ensures d == Derive(rs, os)
  {
    hide StandingOf, ReasonsOf, StopLossOf;
    var ticketsByRequest: map<RequestId, set<Ticket>> := map[];
    var determined: set<RequestId> := {};
    var reasons: seq<Reason> := [];
    var all: set<Ticket> := {};
    var stopLoss: map<RequestId, real> := map[];
    for i := 0 to |rs|
      invariant ticketsByRequest == TicketMap(rs[..i])
      invariant determined == DeterminedIds(rs[..i])
      invariant reasons == RequestReasons(rs[..i])
      invariant all == KnownTickets(rs[..i])
      invariant stopLoss == StopMap(rs[..i])
    {
      assert rs[..i + 1][..i] == rs[..i];
      var standing, more := Judge(rs[i]);
      reasons := reasons + more;
      if standing.Known? {
        determined := determined + {rs[i].id};
        ticketsByRequest := ticketsByRequest[rs[i].id := standing.tickets];
        if standing.submitted {
          all := all + standing.tickets;
          var stop := StopLossOf(rs[i].events);
          if stop.Some? {
            stopLoss := stopLoss[rs[i].id := stop.value];
          }
        }
      }
    }
    assert rs[..|rs|] == rs;
    var closed, flattenReasons := FlattenRemovedAndUndetermined(os);
    all := all - closed;
    ticketsByRequest := RemoveClosed(ticketsByRequest, closed);
    d := DerivedExposure(all, reasons + flattenReasons, ticketsByRequest, determined, stopLoss);
  }

  // ---------------------------------------------------------------------------------------------
  // What the folds mean
  // ---------------------------------------------------------------------------------------------

  ghost predicate DistinctIds(rs: seq<History>) {
    forall i, j :: 0 <= i < j < |rs| ==> rs[i].id != rs[j].id
  }

  /** The set-level specification: every clause ranges over requests, none over positions in a list. */
  ghost predicate MeetsSpecification(rs: seq<History>, os: seq<Occurrence>, d: DerivedExposure) {
    && (forall t :: t in d.tickets <==>
                      (exists r :: r in rs && t in TicketsOf(r))
                      && !(exists o :: o in os && t in ClosedBy(o)))
    && (forall id :: id in d.determined <==> exists r :: r in rs && r.id == id && StandingOf(r).Known?)
    && d.ticketsByRequest.Keys == d.determined
    && (forall r :: r in rs && StandingOf(r).Known? ==>
                      d.ticketsByRequest[r.id] == StandingOf(r).tickets - FlattenClosed(os))
    && (forall reason :: reason in d.reasons <==>
                           (exists r :: r in rs && reason in ReasonsOf(r))
                             || (exists o :: o in os && reason in FlattenReasonsOf(o)))
    && (forall id :: id in d.stopLoss <==>
                       exists r :: r in rs && r.id == id && StandingOf(r).Known?
                                   && StandingOf(r).submitted && StopLossOf(r.events).Some?)
    && (forall r :: r in rs && StandingOf(r).Known? && StandingOf(r).submitted && StopLossOf(r.events).Some? ==>
                      d.stopLoss[r.id] == StopLossOf(r.events).value)
  }

  lemma {:induction false} FoldMembership(rs: seq<History>, os: seq<Occurrence>)
    ensures forall reason :: reason in RequestReasons(rs) <==> exists r :: r in rs && reason in ReasonsOf(r)
    ensures forall reason :: reason in OccurrenceReasons(os) <==> exists o :: o in os && reason in FlattenReasonsOf(o)
    ensures forall t :: t in KnownTickets(rs) <==> exists r :: r in rs && t in TicketsOf(r)
    ensures forall t :: t in FlattenClosed(os) <==> exists o :: o in os && t in ClosedBy(o)
    ensures forall id :: id in DeterminedIds(rs) <==> exists r :: r in rs && r.id == id && StandingOf(r).Known?
    decreases |rs| + |os|
  {
    if rs == [] && os == [] {
    } else if rs != [] {
      FoldMembership(rs[..|rs| - 1], os);
      assert forall r :: r in rs <==> r in rs[..|rs| - 1] || r == rs[|rs| - 1];
    } else {
      FoldMembership(rs, os[..|os| - 1]);
      assert forall o :: o in os <==> o in os[..|os| - 1] || o == os[|os| - 1];
    }
  }

  predicate HasStop(r: History) {
    StandingOf(r).Known? && StandingOf(r).submitted && StopLossOf(r.events).Some?
  }

  lemma {:induction false} MapMembership(rs: seq<History>)
    requires DistinctIds(rs)
    ensures forall r :: r in rs && StandingOf(r).Known? ==>
                          r.id in TicketMap(rs) && TicketMap(rs)[r.id] == StandingOf(r).tickets
    ensures forall r :: r in rs && HasStop(r) ==> r.id in StopMap(rs) && StopMap(rs)[r.id] == StopLossOf(r.events).value
    ensures forall id :: id in TicketMap(rs) ==> exists r :: r in rs && r.id == id && StandingOf(r).Known?
    ensures forall id :: id in StopMap(rs) ==> exists r :: r in rs && r.id == id && HasStop(r)
  {
    if rs == [] {
    } else {
      var front, last := rs[..|rs| - 1], rs[|rs| - 1];
      MapMembership(front);
      assert last in rs;
      assert forall r :: r in rs <==> r in front || r == last;
      forall r | r in front ensures r.id != last.id {
        var i :| 0 <= i < |front| && front[i] == r;
        assert rs[i] == r;
      }
    }
  }

  /** The derivation equals its simple specification for all histories with distinct request ids. */
  lemma DerivationMeetsSpecification(rs: seq<History>, os: seq<Occurrence>)
    requires DistinctIds(rs)
    ensures MeetsSpecification(rs, os, Derive(rs, os))
  {
    FoldMembership(rs, os);
    MapMembership(rs);
  }

  /** Dropping every RECONCILED event. */
  function Erase(h: seq<ExecutionEvent>): seq<ExecutionEvent> {
    if h == [] then []
    else if h[|h| - 1].kind == Reconciled then Erase(h[..|h| - 1])
    else Erase(h[..|h| - 1]) + [h[|h| - 1]]
  }

  lemma {:induction false} SearchAppend(h: seq<ExecutionEvent>, e: ExecutionEvent)
    ensures EntryTypeOf(h + [e]) == (if EntryTypeOf(h).Some? then EntryTypeOf(h) else EntryTypeOf([e]))
    ensures StopLossOf(h + [e]) == (if StopLossOf(h).Some? then StopLossOf(h) else StopLossOf([e]))
  {
    if h == [] {
      assert h + [e] == [e];
    } else {
      SearchAppend(h[1..], e);
      assert (h + [e])[1..] == h[1..] + [e];
    }
  }

  lemma SameStanding(r: History, r': History)
    requires r.id == r'.id && Erase(r.events) == Erase(r'.events)
    ensures StandingOf(r) == StandingOf(r') && ReasonsOf(r) == ReasonsOf(r')
            && StopLossOf(r.events) == StopLossOf(r'.events)
  {
    EraseKeepsSearches(r.events);
    EraseKeepsSearches(r'.events);
  }

  lemma {:induction false} EraseKeepsSearches(h: seq<ExecutionEvent>)
    ensures LastRelevant(h) == LastRelevant(Erase(h))
    ensures EntryTypeOf(h) == EntryTypeOf(Erase(h))
    ensures StopLossOf(h) == StopLossOf(Erase(h))
  {
    if h == [] {
    } else {
      var front, last := h[..|h| - 1], h[|h| - 1];
      EraseKeepsSearches(front);
      assert h == front + [last];
      SearchAppend(front, last);
      SearchAppend(Erase(front), last);
    }
  }

  /** Two lists of histories that differ only in where RECONCILED events stand. */
  ghost predicate SameButReconciled(rs: seq<History>, rs': seq<History>) {
    && |rs| == |rs'|
    && forall i :: 0 <= i < |rs| ==> rs[i].id == rs'[i].id && Erase(rs[i].events) == Erase(rs'[i].events)
  }

  /** Inserting or removing RECONCILED events anywhere changes nothing, not even the order of reasons. */
  lemma {:induction false} ReconciledEventsAreInvisible(rs: seq<History>, rs': seq<History>, os: seq<Occurrence>)
    requires SameButReconciled(rs, rs')
    ensures Derive(rs, os) == Derive(rs', os)
  {
    ReconciledEventsAreInvisibleToFolds(rs, rs');
  }

  lemma {:induction false} ReconciledEventsAreInvisibleToFolds(rs: seq<History>, rs': seq<History>)
    requires SameButReconciled(rs, rs')
    ensures KnownTickets(rs) == KnownTickets(rs') && RequestReasons(rs) == RequestReasons(rs')
    ensures TicketMap(rs) == TicketMap(rs') && StopMap(rs) == StopMap(rs') && DeterminedIds(rs) == DeterminedIds(rs')
  {
    if rs == [] {
    } else {
      var n := |rs| - 1;
      ReconciledEventsAreInvisibleToFolds(rs[..n], rs'[..n]);
      SameStanding(rs[n], rs'[n]);
    }
  }

  // ---------------------------------------------------------------------------------------------
  // Reordering
  // ---------------------------------------------------------------------------------------------

  lemma {:induction false} DistinctMeansOnce(rs: seq<History>, x: History)
    requires DistinctIds(rs)
    ensures multiset(rs)[x] <= 1
  {
    if rs == [] {
    } else {
      var front, last := rs[..|rs| - 1], rs[|rs| - 1];
      DistinctMeansOnce(front, x);
      assert rs == front + [last];
      forall i | 0 <= i < |front| ensures front[i] != last {
        assert rs[i].id != rs[|rs| - 1].id;
      }
      assert last !in front;
    }
  }

  lemma OnceMeansDifferent(s: seq<History>, i: nat, j: nat)
    requires i < j < |s| && multiset(s)[s[i]] <= 1
    ensures s[i] != s[j]
  {
    assert s == s[..j] + s[j..];
    assert s[i] in s[..j];
    assert s[j..][0] == s[j];
  }

  lemma PermutationKeepsDistinct(rs: seq<History>, rs': seq<History>)
    requires DistinctIds(rs) && multiset(rs) == multiset(rs')
    ensures DistinctIds(rs')
  {
    forall i, j | 0 <= i < j < |rs'| ensures rs'[i].id != rs'[j].id {
      var x, y := rs'[i], rs'[j];
      assert x in multiset(rs') && y in multiset(rs');
      DistinctMeansOnce(rs, x);
      OnceMeansDifferent(rs', i, j);
      assert x in rs && y in rs;
    }
  }

  lemma OneMoreRequest(rs: seq<History>)
    requires rs != []
    ensures multiset(RequestReasons(rs))
            == multiset(RequestReasons(rs[..|rs| - 1])) + multiset(ReasonsOf(rs[|rs| - 1]))
  {
  }

  lemma {:induction false} TakeOutReason(rs: seq<History>, k: nat)
    requires k < |rs|
    ensures multiset(RequestReasons(rs)) == multiset(RequestReasons(rs[..k] + rs[k + 1..])) + multiset(ReasonsOf(rs[k]))
  {
    hide RequestReasons, ReasonsOf;
    var n := |rs| - 1;
    OneMoreRequest(rs);
    if k == n {
      assert rs[..k] + rs[k + 1..] == rs[..n];
    } else {
      var cut := rs[..k] + rs[k + 1..];
      TakeOutReason(rs[..n], k);
      OneMoreRequest(cut);
      assert cut[..|cut| - 1] == rs[..n][..k] + rs[..n][k + 1..];
      assert cut[|cut| - 1] == rs[n];
    }
  }

  /** Taking one occurrence of an element out of a sequence. */
  lemma TakenOut(s: seq<History>, k: nat)
    requires k < |s|
    ensures multiset(s[..k] + s[k + 1..]) == multiset(s) - multiset{s[k]}
  {
    assert s == s[..k] + [s[k]] + s[k + 1..];
  }

  lemma {:induction false} PermutedReasons(rs: seq<History>, rs': seq<History>)
    requires multiset(rs) == multiset(rs')
    ensures multiset(RequestReasons(rs)) == multiset(RequestReasons(rs'))
  {
    hide RequestReasons, ReasonsOf;
    assert |multiset(rs)| == |rs| && |multiset(rs')| == |rs'|;
    if rs == [] {
      assert rs' == [];
    } else {
      var n := |rs| - 1;
      assert rs[n] in multiset(rs');
      var k :| 0 <= k < |rs'| && rs'[k] == rs[n];
      TakenOut(rs, n);
      TakenOut(rs', k);
      assert rs[..n] + rs[n + 1..] == rs[..n];
      PermutedReasons(rs[..n], rs'[..k] + rs'[k + 1..]);
      TakeOutReason(rs', k);
      OneMoreRequest(rs);
    }
  }

  /** Reordering the requests changes only the order of the reasons. */
  lemma ReorderingChangesOnlyReasonOrder(rs: seq<History>, rs': seq<History>, os: seq<Occurrence>)
    requires DistinctIds(rs) && multiset(rs) == multiset(rs')
    ensures Derive(rs, os).(reasons := []) == Derive(rs', os).(reasons := [])
    ensures multiset(Derive(rs, os).reasons) == multiset(Derive(rs', os).reasons)
  {
    PermutationKeepsDistinct(rs, rs');
    PermutedReasons(rs, rs');
    assert forall r :: r in multiset(rs) <==> r in rs;
    assert forall r :: r in multiset(rs') <==> r in rs';
    SameSets(rs, rs');
    SameMaps(rs, rs');
  }

  lemma SameSets(rs: seq<History>, rs': seq<History>)
    requires forall r :: r in rs <==> r in rs'
    ensures KnownTickets(rs) == KnownTickets(rs') && DeterminedIds(rs) == DeterminedIds(rs')
  {
    SubsetFolds(rs, rs');
    SubsetFolds(rs', rs);
  }

  lemma SubsetFolds(rs: seq<History>, rs': seq<History>)
    requires forall r :: r in rs ==> r in rs'
    ensures KnownTickets(rs) <= KnownTickets(rs') && DeterminedIds(rs) <= DeterminedIds(rs')
  {
    FoldMembership(rs, []);
    FoldMembership(rs', []);
    forall t | t in KnownTickets(rs) ensures t in KnownTickets(rs') {
      var r :| r in rs && t in TicketsOf(r);
      assert r in rs';
    }
  }

  lemma SameMaps(rs: seq<History>, rs': seq<History>)
    requires DistinctIds(rs) && DistinctIds(rs') && (forall r :: r in rs <==> r in rs')
    ensures TicketMap(rs) == TicketMap(rs') && StopMap(rs) == StopMap(rs')
  {
    hide TicketMap, StopMap, StandingOf, StopLossOf;
    MapMembership(rs);
    MapMembership(rs');
    forall id | id in TicketMap(rs) || id in TicketMap(rs')
      ensures id in TicketMap(rs) && id in TicketMap(rs') && TicketMap(rs)[id] == TicketMap(rs')[id]
    {
      var r :| r in rs && r.id == id && StandingOf(r).Known?;
      assert r in rs';
    }
    forall id | id in StopMap(rs) || id in StopMap(rs')
      ensures id in StopMap(rs) && id in StopMap(rs') && StopMap(rs)[id] == StopMap(rs')[id]
    {
      var r :| r in rs && r.id == id && HasStop(r);
      assert r in rs';
    }
  }

  // ---------------------------------------------------------------------------------------------
  // Failing closed, and where the table and the code disagree
  // ---------------------------------------------------------------------------------------------

  predicate SharesMagic(e: ExecutionEvent) {
    e.kind == AmbiguousOutcomeResolved && e.payload.Some? && e.payload.value.integrityAmbiguity
  }

  /** A request whose newest relevant event is SUBMISSION_STARTED, SUBMITTED or an integrity
      ambiguity always leaves a reason, so the whole-book verdict cannot be MATCHED. */
  lemma OpenQuestionsAreReported(rs: seq<History>, os: seq<Occurrence>, r: History)
    requires r in rs && LastRelevant(r.events).Some?
    requires var e := LastRelevant(r.events).value; e.kind in {SubmissionStarted, Submitted} || SharesMagic(e)
    ensures Derive(rs, os).reasons != []
    ensures DistinctIds(rs) ==> r.id !in Derive(rs, os).determined
  {
    FoldMembership(rs, os);
    assert StandingOf(r).Open? && StandingOf(r).reason in ReasonsOf(r);
    assert StandingOf(r).reason in RequestReasons(rs);
    assert StandingOf(r).reason in Derive(rs, os).reasons;
    if DistinctIds(rs) {
      var i :| 0 <= i < |rs| && rs[i] == r;
      forall q | q in rs && q.id == r.id ensures q == r {
        var j :| 0 <= j < |rs| && rs[j] == q;
      }
    }
  }

  /** The table calls five kinds UNDETERMINED.  A request standing at one of them is reported exactly
      when it stands at SUBMISSION_STARTED or SUBMITTED; at FILLED, BROKER_ACK or CLOSED it is neither
      reported nor determined, so it contributes nothing at all. */
  lemma UndeterminedIsReportedExactlyWhen(r: History)
    requires LastRelevant(r.events).Some? && Classify(LastRelevant(r.events).value.kind) == Undetermined
    ensures ReasonsOf(r) != [] <==> LastRelevant(r.events).value.kind in {SubmissionStarted, Submitted}
    ensures LastRelevant(r.events).value.kind in {Filled, BrokerAck, Closed} ==>
              StandingOf(r) == Silent && ReasonsOf(r) == []
  {
  }

  predicate SaysNothing(h: seq<ExecutionEvent>) {
    var last := LastRelevant(h);
    last.None? || Classify(last.value.kind) == NoExposure || last.value.kind in {Filled, BrokerAck, Closed}
  }

  function Insert(rs: seq<History>, k: nat, x: History): (r: seq<History>)
    requires k <= |rs|
    ensures |r| == |rs| + 1
  {
    rs[..k] + [x] + rs[k..]
  }

  lemma InsertFromTheEnd(rs: seq<History>, k: nat, x: History)
    requires k <= |rs|
    ensures var r := Insert(rs, k, x);
            var n := |rs|;
            if k == n then r[..n] == rs && r[n] == x
            else r[..n] == Insert(rs[..n - 1], k, x) && r[n] == rs[n - 1]
  {
  }

  lemma {:induction false} SilentRequestsFoldAway(rs: seq<History>, k: nat, x: History)
    requires k <= |rs| && StandingOf(x) == Silent
    ensures var r := Insert(rs, k, x);
            && KnownTickets(r) == KnownTickets(rs) && RequestReasons(r) == RequestReasons(rs)
               && TicketMap(r) == TicketMap(rs)
            && DeterminedIds(r) == DeterminedIds(rs) && StopMap(r) == StopMap(rs)
    decreases |rs|
  {
    assert ReasonsOf(x) == [] && TicketsOf(x) == {};
    hide StandingOf, StopLossOf, ReasonsOf, TicketsOf;
    InsertFromTheEnd(rs, k, x);
    if k == |rs| {
      hide Insert;
    } else {
      SilentRequestsFoldAway(rs[..|rs| - 1], k, x);
      hide Insert;
    }
  }

  /** A request can stand anywhere among any others without changing what is derived from them exactly when
      its newest relevant event, if any, is one from before the submission, or FILLED, BROKER_ACK or CLOSED. */
  lemma InvisibleExactlyWhenSilent(x: History)
    ensures (forall rs, k: nat, os :: k <= |rs| ==> Derive(Insert(rs, k, x), os) == Derive(rs, os))
            <==> SaysNothing(x.events)
  {
    SilentExactlyWhen(x);
    if StandingOf(x) == Silent {
      forall rs, k: nat, os | k <= |rs| ensures Derive(Insert(rs, k, x), os) == Derive(rs, os) {
        SilentRequestsFoldAway(rs, k, x);
      }
    } else {
      assert Insert([], 0, x) == [x] && [x][..0] == [];
      assert RequestReasons([x]) == ReasonsOf(x);
      assert Derive(Insert([], 0, x), []) != Derive([], []);
    }
  }

  lemma RelevantIsRelevant(h: seq<ExecutionEvent>)
    ensures LastRelevant(h).Some? ==> Classify(LastRelevant(h).value.kind) != NotRelevant
  {
  }

  lemma SilentExactlyWhen(r: History)
    ensures StandingOf(r) == Silent
            <==> SaysNothing(r.events)
  {
    RelevantIsRelevant(r.events);
  }

  /** So a filled order with an open position looks flat: whatever its history, if FILLED is the newest
      relevant event, the book is derived as if that order did not exist. */
  lemma FilledRequestLooksFlat(rs: seq<History>, k: nat, x: History, os: seq<Occurrence>)
    requires k <= |rs| && LastRelevant(x.events).Some? && LastRelevant(x.events).value.kind == Filled
    ensures Derive(Insert(rs, k, x), os) == Derive(rs, os)
  {
    SilentExactlyWhen(x);
    SilentRequestsFoldAway(rs, k, x);
  }
}
