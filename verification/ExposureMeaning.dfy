/**
 What the derivation of expected exposure says, in terms of the durable events alone: which rows make a
 request determined, which tickets it is then expected to hold, which reasons are given and which stop is
 expected.
 */
module ExposureMeaning {
  import opened ExecutionEvents
  import opened FlattenEvents
  import opened ExpectedExposure

  // ---------------------------------------------------------------------------------------------
  // What the events say
  // ---------------------------------------------------------------------------------------------

  /** `e` is the newest row that is not a RECONCILED. */
  ghost predicate Decides(h: seq<ExecutionEvent>, e: ExecutionEvent) {
    exists i :: 0 <= i < |h| && h[i] == e && e.kind != Reconciled && forall j :: i < j < |h| ==> h[j].kind == Reconciled
  }

  /** Recovery attributed these tickets to the request. */
  predicate Recovers(e: ExecutionEvent) {
    && e.kind == AmbiguousOutcomeResolved && e.payload.Some? && !e.payload.value.integrityAmbiguity
    && e.payload.value.submitted == Some(true)
  }

  /** The broker holds nothing of the request. */
  predicate SettlesFlat(e: ExecutionEvent) {
    || e.kind == Rejected
    || (&& e.kind == AmbiguousOutcomeResolved && e.payload.Some? && !e.payload.value.integrityAmbiguity
        && e.payload.value.submitted == Some(false))
  }

  ghost predicate HasVerdict(r: History) {
    exists e :: Decides(r.events, e) && (Recovers(e) || SettlesFlat(e))
  }

  ghost predicate Recovered(r: History, t: Ticket) {
    exists e :: Decides(r.events, e) && Recovers(e) && t in e.payload.value.matchingTickets
  }

  predicate NamesEntry(e: ExecutionEvent) {
    e.kind == SubmissionStarted && e.payload.Some? && e.payload.value.entryType.Some?
  }

  predicate NamesStop(e: ExecutionEvent) {
    e.kind == SubmissionStarted && e.payload.Some? && e.payload.value.stopLoss.Some?
  }

  /** The first SUBMISSION_STARTED that names an entry type names this one. */
  ghost predicate EntryIs(h: seq<ExecutionEvent>, entry: EntryType) {
    exists i :: 0 <= i < |h| && NamesEntry(h[i]) && h[i].payload.value.entryType == Some(entry)
                && forall j :: 0 <= j < i ==> !NamesEntry(h[j])
  }

  ghost predicate StopIs(h: seq<ExecutionEvent>, stop: real) {
    exists i :: 0 <= i < |h| && NamesStop(h[i]) && h[i].payload.value.stopLoss == Some(stop)
                && forall j :: 0 <= j < i ==> !NamesStop(h[j])
  }

  /** The newest row of this kind carries this payload. */
  ghost predicate NewestSays(es: seq<FlattenEvent>, kind: FlattenEventType, p: FlattenPayload) {
    exists i :: 0 <= i < |es| && es[i] == FlattenEvent(kind, Some(p)) && forall j :: i < j < |es| ==> es[j].kind != kind
  }

  ghost predicate WasCommitted(o: Occurrence) {
    exists p :: NewestSays(o.events, FlattenSubmissionStarted, p)
  }

  ghost predicate WasResolved(o: Occurrence) {
    exists p :: NewestSays(o.events, FlattenOutcomeResolved, p)
  }

  /** A committed flatten whose outcome lists the ticket as closed. */
  ghost predicate Closes(o: Occurrence, t: Ticket) {
    WasCommitted(o) && exists p :: NewestSays(o.events, FlattenOutcomeResolved, p) && t in p.closed
  }

  ghost predicate IsClosed(os: seq<Occurrence>, t: Ticket) {
    exists o :: o in os && Closes(o, t)
  }

  /** The reasons a request gives: an open question, or an entry other than a market order whose pending order
      could not be attributed. */
  ghost predicate GivesReason(r: History, reason: Reason) {
    exists e :: Decides(r.events, e) && RowGivesReason(r, e, reason)
  }

  ghost predicate RowGivesReason(r: History, e: ExecutionEvent, reason: Reason) {
    match reason
    case StuckAtStarted(id) => id == r.id && e.kind == SubmissionStarted
    case RestingOrder(id) => id == r.id && e.kind == Submitted
    case SharedMagic(id) =>
      id == r.id && e.kind == AmbiguousOutcomeResolved && e.payload.Some? && e.payload.value.integrityAmbiguity
    case MalformedResolution(id) =>
      && id == r.id && e.kind == AmbiguousOutcomeResolved
      && (e.payload.None? || (!e.payload.value.integrityAmbiguity && e.payload.value.submitted.None?))
    case UnattributablePending(id, entry) => id == r.id && Recovers(e) && entry != Market && EntryIs(r.events, entry)
    case FlattenUnconfirmed(_, _) => false
  }

  /** A committed flatten without an outcome is an open question. */
  ghost predicate FlattenGivesReason(o: Occurrence, reason: Reason) {
    && !WasResolved(o)
    && exists p :: NewestSays(o.events, FlattenSubmissionStarted, p) && p.instructions != []
                   && reason == FlattenUnconfirmed(o.id, p.instructions)
  }

  // ---------------------------------------------------------------------------------------------
  // The searches find what the events say
  // ---------------------------------------------------------------------------------------------

  lemma {:induction false} NewestRowDecides(h: seq<ExecutionEvent>)
    ensures LastRelevant(h).Some? ==> Decides(h, LastRelevant(h).value)
    ensures LastRelevant(h).None? ==> forall i :: 0 <= i < |h| ==> h[i].kind == Reconciled
  {
    if h == [] {
    } else {
      var n := |h| - 1;
      if h[n].kind == Reconciled {
        NewestRowDecides(h[..n]);
        assert forall i :: 0 <= i < n ==> h[..n][i] == h[i];
        if LastRelevant(h).Some? {
          var e := LastRelevant(h).value;
          var i :| 0 <= i < n && h[..n][i] == e && e.kind != Reconciled
                   && forall j :: i < j < n ==> h[..n][j].kind == Reconciled;
          assert forall j :: i < j < |h| ==> h[j].kind == Reconciled;
          assert h[i] == e;
        }
      } else {
        assert LastRelevant(h) == Some(h[n]);
      }
    }
  }

  lemma OneRowDecides(h: seq<ExecutionEvent>, e: ExecutionEvent)
    requires Decides(h, e)
    ensures LastRelevant(h) == Some(e)
  {
    NewestRowDecides(h);
    var i :| 0 <= i < |h| && h[i] == e && e.kind != Reconciled && forall j :: i < j < |h| ==> h[j].kind == Reconciled;
    if LastRelevant(h).Some? {
      var x := LastRelevant(h).value;
      var k :| 0 <= k < |h| && h[k] == x && x.kind != Reconciled && forall j :: k < j < |h| ==> h[j].kind == Reconciled;
      assert i == k;
    }
  }

  lemma {:induction false} FirstEntryIs(h: seq<ExecutionEvent>)
    ensures forall x :: EntryTypeOf(h) == Some(x) <==> EntryIs(h, x)
  {
    if h == [] {
    } else {
      FirstEntryIs(h[1..]);
      forall x ensures EntryTypeOf(h) == Some(x) <==> EntryIs(h, x) {
        if NamesEntry(h[0]) {
          if EntryTypeOf(h) == Some(x) {
            assert h[0].payload.value.entryType == Some(x);
          }
        } else {
          if EntryIs(h[1..], x) {
            var i :| 0 <= i < |h[1..]| && NamesEntry(h[1..][i]) && h[1..][i].payload.value.entryType == Some(x)
                     && forall j :: 0 <= j < i ==> !NamesEntry(h[1..][j]);
            assert NamesEntry(h[i + 1]);
            assert forall j :: 0 < j < i + 1 ==> h[j] == h[1..][j - 1];
          }
          if EntryIs(h, x) {
            var i :| 0 <= i < |h| && NamesEntry(h[i]) && h[i].payload.value.entryType == Some(x)
                     && forall j :: 0 <= j < i ==> !NamesEntry(h[j]);
            assert h[1..][i - 1] == h[i];
            assert forall j :: 0 <= j < i - 1 ==> h[1..][j] == h[j + 1];
          }
        }
      }
    }
  }

  lemma {:induction false} FirstStopIs(h: seq<ExecutionEvent>)
    ensures forall x :: StopLossOf(h) == Some(x) <==> StopIs(h, x)
  {
    if h == [] {
    } else {
      FirstStopIs(h[1..]);
      forall x ensures StopLossOf(h) == Some(x) <==> StopIs(h, x) {
        if NamesStop(h[0]) {
          if StopLossOf(h) == Some(x) {
            assert h[0].payload.value.stopLoss == Some(x);
          }
        } else {
          if StopIs(h[1..], x) {
            var i :| 0 <= i < |h[1..]| && NamesStop(h[1..][i]) && h[1..][i].payload.value.stopLoss == Some(x)
                     && forall j :: 0 <= j < i ==> !NamesStop(h[1..][j]);
            assert NamesStop(h[i + 1]);
            assert forall j :: 0 < j < i + 1 ==> h[j] == h[1..][j - 1];
          }
          if StopIs(h, x) {
            var i :| 0 <= i < |h| && NamesStop(h[i]) && h[i].payload.value.stopLoss == Some(x)
                     && forall j :: 0 <= j < i ==> !NamesStop(h[j]);
            assert h[1..][i - 1] == h[i];
            assert forall j :: 0 <= j < i - 1 ==> h[1..][j] == h[j + 1];
          }
        }
      }
    }
  }

  lemma {:induction false} NewestPayloadSays(es: seq<FlattenEvent>, kind: FlattenEventType, p: FlattenPayload)
    ensures LastPayload(es, kind) == Some(p) <==> NewestSays(es, kind, p)
  {
    if es == [] {
    } else {
      var n := |es| - 1;
      NewestPayloadSays(es[..n], kind, p);
      if es[n].kind == kind {
        if es[n].payload == Some(p) {
          assert es[n] == FlattenEvent(kind, Some(p));
        }
      } else {
        EarlierSays(es, kind, p);
      }
    }
  }

  lemma EarlierSays(es: seq<FlattenEvent>, kind: FlattenEventType, p: FlattenPayload)
    requires es != [] && es[|es| - 1].kind != kind
    ensures NewestSays(es[..|es| - 1], kind, p) <==> NewestSays(es, kind, p)
  {
    var n := |es| - 1;
    assert forall j :: 0 <= j < n ==> es[..n][j] == es[j];
    if NewestSays(es[..n], kind, p) {
      var i :| 0 <= i < n && es[..n][i] == FlattenEvent(kind, Some(p))
               && forall j :: i < j < n ==> es[..n][j].kind != kind;
      assert es[i] == FlattenEvent(kind, Some(p)) && forall j :: i < j < |es| ==> es[j].kind != kind;
    }
    if NewestSays(es, kind, p) {
      var i :| 0 <= i < |es| && es[i] == FlattenEvent(kind, Some(p)) && forall j :: i < j < |es| ==> es[j].kind != kind;
      assert es[..n][i] == FlattenEvent(kind, Some(p));
    }
  }

  // ---------------------------------------------------------------------------------------------
  // Requests and occurrences one by one
  // ---------------------------------------------------------------------------------------------

  lemma StandingFromEvents(r: History, e: ExecutionEvent)
    requires Decides(r.events, e)
    ensures Recovers(e) ==> StandingOf(r) == Known(TicketSet(e.payload.value.matchingTickets), true)
    ensures SettlesFlat(e) ==> StandingOf(r) == Known({}, false)
    ensures StandingOf(r).Known? ==> Recovers(e) || SettlesFlat(e)
  {
    OneRowDecides(r.events, e);
  }

  lemma KnownNeedsARow(r: History)
    requires StandingOf(r).Known? || ReasonsOf(r) != []
    ensures LastRelevant(r.events).Some? && Decides(r.events, LastRelevant(r.events).value)
  {
    NewestRowDecides(r.events);
  }

  lemma ReasonsFromEvents(r: History)
    ensures forall reason :: reason in ReasonsOf(r) <==> GivesReason(r, reason)
  {
    forall reason ensures reason in ReasonsOf(r) <==> GivesReason(r, reason) {
      FirstEntryIs(r.events);
      if reason in ReasonsOf(r) {
        KnownNeedsARow(r);
        assert RowGivesReason(r, LastRelevant(r.events).value, reason);
      }
      if GivesReason(r, reason) {
        var e :| Decides(r.events, e) && RowGivesReason(r, e, reason);
        OneRowDecides(r.events, e);
      }
    }
  }

  lemma ClosesFromEvents(o: Occurrence)
    ensures forall t :: t in ClosedBy(o) <==> Closes(o, t)
    ensures forall reason :: reason in FlattenReasonsOf(o) <==> FlattenGivesReason(o, reason)
  {
    forall kind, p ensures LastPayload(o.events, kind) == Some(p) <==> NewestSays(o.events, kind, p) {
      NewestPayloadSays(o.events, kind, p);
    }
  }

  // ---------------------------------------------------------------------------------------------
  // Main result
  // ---------------------------------------------------------------------------------------------

  ghost predicate SaysWhoIsDetermined(rs: seq<History>, d: DerivedExposure) {
    && d.ticketsByRequest.Keys == d.determined
    && forall id :: id in d.determined <==> exists r :: r in rs && r.id == id && HasVerdict(r)
  }

  ghost predicate SaysWhichTickets(rs: seq<History>, os: seq<Occurrence>, d: DerivedExposure) {
    && (forall r, e :: r in rs && Decides(r.events, e) && Recovers(e) ==>
                         && r.id in d.ticketsByRequest
                         && forall t :: t in d.ticketsByRequest[r.id] <==>
                                          t in e.payload.value.matchingTickets && !IsClosed(os, t))
    && (forall r, e :: r in rs && Decides(r.events, e) && SettlesFlat(e) ==>
                         r.id in d.ticketsByRequest && d.ticketsByRequest[r.id] == {})
  }

  ghost predicate SaysAllTickets(rs: seq<History>, os: seq<Occurrence>, d: DerivedExposure) {
    forall t :: t in d.tickets <==> !IsClosed(os, t) && exists r :: r in rs && Recovered(r, t)
  }

  ghost predicate SaysWhy(rs: seq<History>, os: seq<Occurrence>, d: DerivedExposure) {
    forall reason :: reason in d.reasons <==>
                       (exists r :: r in rs && GivesReason(r, reason))
                       || (exists o :: o in os && FlattenGivesReason(o, reason))
  }

  ghost predicate SaysWhichStops(rs: seq<History>, d: DerivedExposure) {
    && (forall r, e, stop :: r in rs && Decides(r.events, e) && Recovers(e) && StopIs(r.events, stop) ==>
                               r.id in d.stopLoss && d.stopLoss[r.id] == stop)
    && (forall id :: id in d.stopLoss ==>
                       exists r, e :: r in rs && r.id == id && Decides(r.events, e) && Recovers(e)
                                      && StopIs(r.events, d.stopLoss[id]))
  }

  lemma VerdictsFromEvents(r: History)
    ensures StandingOf(r).Known? <==> HasVerdict(r)
    ensures forall t :: t in TicketsOf(r) <==> Recovered(r, t)
  {
    if LastRelevant(r.events).Some? {
      NewestRowDecides(r.events);
      StandingFromEvents(r, LastRelevant(r.events).value);
    }
    forall e | Decides(r.events, e) ensures LastRelevant(r.events) == Some(e) {
      OneRowDecides(r.events, e);
    }
  }

  lemma DeterminedFromEvents(rs: seq<History>, os: seq<Occurrence>)
    requires DistinctIds(rs)
    ensures SaysWhoIsDetermined(rs, Derive(rs, os))
  {
    DerivationMeetsSpecification(rs, os);
    hide Derive;
    forall r | r in rs ensures StandingOf(r).Known? <==> HasVerdict(r) {
      VerdictsFromEvents(r);
    }
    hide StandingOf, HasVerdict;
  }

  lemma ClosedFromEvents(os: seq<Occurrence>, t: Ticket)
    ensures t in FlattenClosed(os) <==> IsClosed(os, t)
  {
    FoldMembership([], os);
    forall o | o in os ensures t in ClosedBy(o) <==> Closes(o, t) {
      ClosesFromEvents(o);
    }
  }

  lemma OneRequestFromEvents(rs: seq<History>, os: seq<Occurrence>, r: History, e: ExecutionEvent)
    requires DistinctIds(rs) && r in rs && Decides(r.events, e) && (Recovers(e) || SettlesFlat(e))
    ensures var d := Derive(rs, os);
            && r.id in d.ticketsByRequest
            && forall t :: t in d.ticketsByRequest[r.id] <==>
                             Recovers(e) && t in e.payload.value.matchingTickets && !IsClosed(os, t)
    ensures SettlesFlat(e) ==> Derive(rs, os).ticketsByRequest[r.id] == {}
  {
    DerivationMeetsSpecification(rs, os);
    StandingFromEvents(r, e);
    var d := Derive(rs, os);
    assert r.id in d.ticketsByRequest && d.ticketsByRequest[r.id] == StandingOf(r).tickets - FlattenClosed(os);
    assert SettlesFlat(e) ==> d.ticketsByRequest[r.id] == {} - FlattenClosed(os);
    hide Derive, MeetsSpecification, Decides, IsClosed, FlattenClosed;
    forall t ensures t in d.ticketsByRequest[r.id] <==>
        Recovers(e) && t in e.payload.value.matchingTickets && !IsClosed(os, t) {
      ClosedFromEvents(os, t);
    }
  }

  lemma TicketsFromEvents(rs: seq<History>, os: seq<Occurrence>)
    requires DistinctIds(rs)
    ensures SaysWhichTickets(rs, os, Derive(rs, os))
  {
    hide Derive, Decides, IsClosed;
    var d := Derive(rs, os);
    forall r, e | r in rs && Decides(r.events, e) && (Recovers(e) || SettlesFlat(e))
      ensures r.id in d.ticketsByRequest
      ensures forall t :: t in d.ticketsByRequest[r.id] <==>
                            Recovers(e) && t in e.payload.value.matchingTickets && !IsClosed(os, t)
      ensures SettlesFlat(e) ==> d.ticketsByRequest[r.id] == {}
    {
      OneRequestFromEvents(rs, os, r, e);
    }
  }

  lemma AllTicketsFromEvents(rs: seq<History>, os: seq<Occurrence>)
    requires DistinctIds(rs)
    ensures SaysAllTickets(rs, os, Derive(rs, os))
  {
    forall t ensures t in FlattenClosed(os) <==> IsClosed(os, t) {
      ClosedFromEvents(os, t);
    }
    FoldMembership(rs, os);
    forall r | r in rs ensures forall t :: t in TicketsOf(r) <==> Recovered(r, t) {
      VerdictsFromEvents(r);
    }
    hide TicketsOf, Recovered, IsClosed, KnownTickets, FlattenClosed;
  }

  lemma WhyFromEvents(rs: seq<History>, os: seq<Occurrence>)
    requires DistinctIds(rs)
    ensures SaysWhy(rs, os, Derive(rs, os))
  {
    DerivationMeetsSpecification(rs, os);
    hide Derive;
    forall r | r in rs ensures forall reason :: reason in ReasonsOf(r) <==> GivesReason(r, reason) {
      ReasonsFromEvents(r);
    }
    forall o | o in os ensures forall reason :: reason in FlattenReasonsOf(o) <==> FlattenGivesReason(o, reason) {
      ClosesFromEvents(o);
    }
    hide ReasonsOf, FlattenReasonsOf, GivesReason, FlattenGivesReason;
  }

  lemma StopsFromEvents(rs: seq<History>, os: seq<Occurrence>)
    requires DistinctIds(rs)
    ensures SaysWhichStops(rs, Derive(rs, os))
  {
    var d := Derive(rs, os);
    DerivationMeetsSpecification(rs, os);
    hide Derive, StandingOf, StopLossOf;
    forall r, e, stop | r in rs && Decides(r.events, e) && Recovers(e) && StopIs(r.events, stop)
      ensures r.id in d.stopLoss && d.stopLoss[r.id] == stop {
      StandingFromEvents(r, e);
      FirstStopIs(r.events);
    }
    forall id | id in d.stopLoss
      ensures exists r, e :: r in rs && r.id == id && Decides(r.events, e) && Recovers(e)
                             && StopIs(r.events, d.stopLoss[id]) {
      var r :| r in rs && r.id == id && StandingOf(r).Known? && StandingOf(r).submitted && StopLossOf(r.events).Some?;
      KnownNeedsARow(r);
      StandingFromEvents(r, LastRelevant(r.events).value);
      FirstStopIs(r.events);
      assert StopIs(r.events, d.stopLoss[id]);
    }
  }

  /** For all histories with distinct ids and all flattens, in terms of the rows alone.  A request is
      determined exactly when its newest row other than RECONCILED is a rejection or a resolution with a
      verdict and no ambiguity.  If that says submitted, the request is expected to hold exactly the tickets
      it lists minus those that flattens closed, otherwise none; all expected tickets come so.  A reason is
      given exactly for a row that leaves a question open, a resolution without a verdict, a submitted entry
      that is not a market order, and a committed flatten without an outcome.  The expected stop is that of
      the first SUBMISSION_STARTED that names one. */
  lemma DerivationSaysWhatTheEventsSay(rs: seq<History>, os: seq<Occurrence>)
    requires DistinctIds(rs)
    ensures var d := Derive(rs, os);
            && SaysWhoIsDetermined(rs, d) && SaysWhichTickets(rs, os, d) && SaysAllTickets(rs, os, d)
            && SaysWhy(rs, os, d) && SaysWhichStops(rs, d)
  {
    DeterminedFromEvents(rs, os);
    TicketsFromEvents(rs, os);
    AllTicketsFromEvents(rs, os);
    WhyFromEvents(rs, os);
    StopsFromEvents(rs, os);
  }
}
