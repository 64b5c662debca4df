/**
 What the answers a flatten pass is given decide: exactly when it claims, commits, closes, records and
 halts.  Everything is said of the durable tables before and after and of the answers.
 */
module FlattenAnswers {
  import opened ExecutionEvents
  import opened FlattenEvents
  import opened ExpectedExposure
  import opened Flatten

  /** A halt the flatten gate looks past consists of six reasons and no other. */
  ghost predicate LooksPast(halt: Option<set<HaltReason>>) {
    halt.Some? ==> forall r :: r in halt.value ==>
                                 r == OvernightExposure || r == FlattenStateUnknown || r == ProtectiveStopMissing
                                 || r == ProtectiveStopMismatch || r == SubmissionIntegrity || r == FlattenCloseFailed
  }

  /** There is something to flatten and it is time: the day has a flatten, its deadline or the weekly close is
      past, and the read shows a position. */
  predicate IsDue(day: Day, o: Answers) {
    day.scheduled && (day.pastDeadline || day.crossedClose) && o.firstComplete && o.first != []
  }

  predicate MayCommit(t: Tables, day: Day, o: Answers) {
    IsDue(day, o) && day.id !in t.claims && o.gateLegs
  }

  ghost predicate Holds(h: seq<FlattenEvent>, kind: FlattenEventType) {
    exists i :: 0 <= i < |h| && h[i].kind == kind
  }

  // ---------------------------------------------------------------------------------------------
  // The first pass
  // ---------------------------------------------------------------------------------------------

  lemma TolerationIsLookingPast(halt: Option<set<HaltReason>>)
    ensures (halt.Some? ==> halt.value <= TOLERATED) <==> LooksPast(halt)
  {
  }

  function FirstRows(open: bool, tickets: seq<Ticket>): seq<FlattenEvent> {
    if open then [Note(FlattenRequestClaimed), Note(FlattenGatePassed), Commitment(tickets)]
    else [Note(FlattenRequestClaimed), Note(FlattenGateBlocked)]
  }

  /** The tables a pass leaves from its won claim on. */
  lemma CommittingDecides(p: Progress, seen: Pass, o: Answers)
    requires p.alive && seen.first == ReadOf(o.first, o.firstComplete) && seen.id !in p.tables.log && o.first != []
    requires o.firstComplete
    ensures var (t', p') := Committing(p, seen, o);
            var open := o.gateLegs && LooksPast(p.tables.halt);
            var h := EventsIn(t'.log, seen.id);
            && t'.claims == p.tables.claims && t'.halt == p.tables.halt && p'.closes == seen.closes
            && h <= FirstRows(open, o.first) && (p'.alive ==> h == FirstRows(open, o.first))
            && (p.left >= 3 ==> p'.alive)
  {
    TolerationIsLookingPast(p.tables.halt);
    var path := CommitPath(GateOpens(o.gateLegs, seen.first.complete, p.tables.halt), seen.first.tickets);
    assert path[..|path|] == path;
  }

  /** The rows, claims and halt that a first pass may leave. */
  ghost predicate FirstPassLeaves(t: Tables, t': Tables, day: Day, o: Answers, alive: bool) {
    var h := EventsIn(t'.log, day.id);
    var wins := IsDue(day, o) && day.id !in t.claims;
    var commits := wins && o.gateLegs && LooksPast(t.halt);
    && (h != [] ==> wins)
    && (Holds(h, FlattenGatePassed) || Holds(h, FlattenSubmissionStarted) ==> commits)
    && (Holds(h, FlattenGateBlocked) ==> !commits)
    && (forall e :: e in h && e.kind == FlattenSubmissionStarted ==> e == Commitment(o.first))
    && (t'.claims == t.claims || (wins && t'.claims == t.claims[day.id := day.fingerprint]))
    && (alive ==>
          && (LastKind(h, FlattenSubmissionStarted) <==> commits)
          && (LastKind(h, FlattenGateBlocked) <==> wins && !commits)
          && (day.id in t'.claims && day.id !in t.claims <==> wins)
          && t'.halt == (if t.halt.Some? || !day.scheduled then t.halt
                         else if day.deadlinePhase && !o.firstComplete then Some({FlattenStateUnknown})
                         else if IsDue(day, o) then Some({OvernightExposure})
                         else None))
  }

  lemma RowsOfTheCommit(h: seq<FlattenEvent>, open: bool, tickets: seq<Ticket>)
    requires h <= CommitPath(open, tickets)
    ensures Holds(h, FlattenGatePassed) || Holds(h, FlattenSubmissionStarted) ==> open
    ensures Holds(h, FlattenGateBlocked) ==> !open
    ensures forall e :: e in h && e.kind == FlattenSubmissionStarted ==> e == Commitment(tickets)
  {
    assert forall i :: 0 <= i < |h| ==> h[i] == CommitPath(open, tickets)[i];
  }

  /** The occurrence is claimed under another fingerprint: the claim raises. */
  predicate ClaimConflicts(t: Tables, day: Day, o: Answers) {
    IsDue(day, o) && day.id in t.claims && t.claims[day.id] != day.fingerprint
  }

  /** From an occurrence without rows, over every answer and wherever the pass dies.  It is claimed exactly
      when it is due and free; a gate that says no, or a halt that the gate does not look past, never leaves a
      GATE_PASSED or a commitment, and a living pass then ends in GATE_BLOCKED; otherwise it commits to
      exactly the positions it read.  A deadline without a complete read, or a due position, leaves a living
      pass halted.  With five effects left only a conflicting claim ends it early. */
  lemma FirstPassDecides(t: Tables, adapter: bool, day: Day, o: Answers)
    requires day.id !in t.log
    ensures var (t', p) := PassOf(t, adapter, day, o);
            && FirstPassLeaves(t, t', day, o, p.alive) && p.closes == []
            && (ClaimConflicts(t, day, o) ==> !p.alive)
            && (o.effects >= 5 ==> (p.alive <==> !ClaimConflicts(t, day, o)))
  {
    hide Committing;
    var (t', p) := PassOf(t, adapter, day, o);
    if day.scheduled {
      var first := ReadOf(o.first, o.firstComplete);
      var seen := Unread(day, []).(first := first, final := first);
      var start := Progress(t, o.effects, true);
      var q := if day.deadlinePhase && !first.complete then Trip(start, FlattenStateUnknown) else start;
      if q.alive && IsDue(day, o) && day.id !in t.claims {
        var c := Perform(q, q.tables.(claims := q.tables.claims[day.id := day.fingerprint]));
        var w := if c.alive then TripOvernight(c, first.tickets) else c;
        if w.alive {
          CommittingDecides(w, seen, o);
          RowsOfTheCommit(EventsIn(t'.log, day.id), o.gateLegs && LooksPast(t.halt), o.first);
        }
      }
    }
  }

  // ---------------------------------------------------------------------------------------------
  // Later passes
  // ---------------------------------------------------------------------------------------------

  /** `StillOpen` keeps what is open, once for every time it is listed, in order. */
  lemma {:induction false} StillOpenFilters(s1: seq<Ticket>, s2: seq<Ticket>, open: seq<Ticket>)
    ensures StillOpen(s1 + s2, open) == StillOpen(s1, open) + StillOpen(s2, open)
    ensures |StillOpen(s1, open)| <= |s1|
  {
    if s1 == [] {
      assert s1 + s2 == s2;
    } else {
      StillOpenFilters(s1[1..], s2, open);
      assert (s1 + s2)[0] == s1[0] && (s1 + s2)[1..] == s1[1..] + s2;
    }
  }

  lemma StillOpenOfOne(t: Ticket, open: seq<Ticket>)
    ensures StillOpen([t], open) == if t in open then [t] else []
  {
  }

  /** The commitment in force: the last row, naming these tickets. */
  predicate CommittedTo(h: seq<FlattenEvent>, plan: seq<Ticket>) {
    && h != [] && h[|h| - 1].kind == FlattenSubmissionStarted
    && h[|h| - 1].payload.Some? && h[|h| - 1].payload.value.instructions == plan
  }

  /** The position set a pass believes: none when the read failed. */
  function Seen(open: seq<Ticket>, complete: bool): seq<Ticket> {
    if complete then open else []
  }

  predicate Attempts(adapter: bool, plan: seq<Ticket>, o: Answers) {
    adapter && o.closesEnabled && exists x :: x in plan && x in Seen(o.first, o.firstComplete)
  }

  predicate Remains(plan: seq<Ticket>, o: Answers) {
    exists x :: x in plan && x in Seen(o.last, o.lastComplete)
  }

  /** What a pass over a standing commitment closes. */
  ghost predicate ClosesAsAsked(adapter: bool, plan: seq<Ticket>, o: Answers, closes: seq<Ticket>, alive: bool) {
    && (!Attempts(adapter, plan, o) ==> closes == [])
    && closes <= StillOpen(plan, Seen(o.first, o.firstComplete))
    && (alive && Attempts(adapter, plan, o) ==> closes == StillOpen(plan, Seen(o.first, o.firstComplete)))
  }

  /** What it records. */
  ghost predicate RecordsAsSeen(t: Tables, t': Tables, id: OccurrenceId, adapter: bool, plan: seq<Ticket>, o: Answers,
                                alive: bool)
  {
    var h, h' := EventsIn(t.log, id), EventsIn(t'.log, id);
    var attempts := Attempts(adapter, plan, o);
    && t'.claims == t.claims
    && (h' != h ==>
          && |h'| == |h| + 1 && h <= h'
          && Records(h'[|h|], plan, if attempts then Seen(o.last, o.lastComplete) else Seen(o.first, o.firstComplete)))
    && (alive ==> (h' == h <==> attempts && Remains(plan, o)))
  }

  /** And what it halts for. */
  ghost predicate HaltsOverExposure(t: Tables, t': Tables, adapter: bool, plan: seq<Ticket>, o: Answers, alive: bool) {
    && (alive && Attempts(adapter, plan, o) && Remains(plan, o) ==> t'.halt.Some?)
    && (alive && Seen(o.first, o.firstComplete) != [] ==> t'.halt.Some?)
    && (t.halt.Some? ==> t'.halt == t.halt)
    && (t'.halt.Some? && t.halt.None? ==> t'.halt.value <= {OvernightExposure, FlattenCloseFailed})
  }

  ghost predicate LaterPassDoes(t: Tables, t': Tables, id: OccurrenceId, adapter: bool, plan: seq<Ticket>, o: Answers,
                                closes: seq<Ticket>, alive: bool)
  {
    && ClosesAsAsked(adapter, plan, o, closes, alive)
    && RecordsAsSeen(t, t', id, adapter, plan, o, alive)
    && HaltsOverExposure(t, t', adapter, plan, o, alive)
  }

  /** The outcome row: the plan, and which of it the believed positions show as open or closed. */
  ghost predicate Records(e: FlattenEvent, plan: seq<Ticket>, seen: seq<Ticket>) {
    && e.kind == FlattenOutcomeResolved && e.payload.Some? && e.payload.value.targets == plan
    && (forall x :: x in e.payload.value.stillOpen <==> x in plan && x in seen)
    && (forall x :: x in e.payload.value.closed <==> x in plan && x !in seen)
    && (e.payload.value.flattened <==> forall x :: x in plan ==> x !in seen)
  }

  lemma NothingStillOpen(plan: seq<Ticket>, seen: seq<Ticket>)
    ensures StillOpen(plan, seen) == [] <==> forall x :: x in plan ==> x !in seen
  {
    var still := StillOpen(plan, seen);
    if still != [] {
      var x: Ticket := still[0];
      assert x in still;
      assert x in plan && x in seen;
    } else {
      forall x | x in plan ensures x !in seen {
        assert x in seen ==> x in still;
      }
    }
  }

  lemma ResolvedRecords(plan: seq<Ticket>, seen: seq<Ticket>)
    ensures Records(Resolved(plan, seen), plan, seen)
  {
    NothingStillOpen(plan, seen);
  }

  /** A pass about to act on a commitment. */
  ghost predicate Standing(p: Progress, seen: Pass, plan: seq<Ticket>, o: Answers) {
    && p.alive && seen.first == ReadOf(o.first, o.firstComplete) && seen.closes == [] && seen.final == seen.first
    && !seen.attempted && seen.alive
    && seen.id in p.tables.log && seen.before == p.tables.log[seen.id] && CommittedTo(seen.before, plan)
    && seen.after == seen.before && (Seen(o.first, o.firstComplete) != [] ==> p.tables.halt.Some?)
  }

  lemma DueExactlyWhenSeen(plan: seq<Ticket>, seen: seq<Ticket>)
    ensures var due := StillOpen(plan, seen);
            && |due| <= |plan| && due[..|due|] == due
            && (due != [] <==> exists x :: x in plan && x in seen)
  {
    StillOpenFilters(plan, [], seen);
    NothingStillOpen(plan, seen);
  }

  lemma ResolvingCloses(p: Progress, seen: Pass, adapter: bool, plan: seq<Ticket>, o: Answers)
    requires Standing(p, seen, plan, o)
    ensures var (t', p') := Resolving(p, seen, adapter, o);
            && ClosesAsAsked(adapter, plan, o, p'.closes, p'.alive)
            && (p.left > |plan| ==> p'.alive)
  {
    hide StillOpen, Resolved;
    DueExactlyWhenSeen(plan, Seen(o.first, o.firstComplete));
  }

  lemma ResolvingRecords(p: Progress, seen: Pass, adapter: bool, plan: seq<Ticket>, o: Answers)
    requires Standing(p, seen, plan, o)
    ensures var (t', p') := Resolving(p, seen, adapter, o);
            RecordsAsSeen(p.tables, t', seen.id, adapter, plan, o, p'.alive)
  {
    hide StillOpen, Resolved, Records;
    DueExactlyWhenSeen(plan, Seen(o.first, o.firstComplete));
    DueExactlyWhenSeen(plan, Seen(o.last, o.lastComplete));
    ResolvedRecords(plan, Seen(o.first, o.firstComplete));
    ResolvedRecords(plan, Seen(o.last, o.lastComplete));
  }

  lemma ResolvingHalts(p: Progress, seen: Pass, adapter: bool, plan: seq<Ticket>, o: Answers)
    requires Standing(p, seen, plan, o)
    ensures var (t', p') := Resolving(p, seen, adapter, o);
            HaltsOverExposure(p.tables, t', adapter, plan, o, p'.alive)
  {
    hide StillOpen, Resolved;
    DueExactlyWhenSeen(plan, Seen(o.first, o.firstComplete));
    DueExactlyWhenSeen(plan, Seen(o.last, o.lastComplete));
  }

  lemma NothingToClose(adapter: bool, plan: seq<Ticket>, o: Answers)
    ensures ClosesAsAsked(adapter, plan, o, [], false)
  {
  }

  /** Over a standing commitment, over every answer and wherever the pass dies.  Nothing is closed without an
      adapter, with closing disabled, or when none of the plan is seen open; otherwise a living pass closes
      what it sees of the plan, in order.  It leaves the log as it was exactly when it attempted something and
      some of the plan is still seen, and is then halted; else it records what it saw. */
  lemma LaterPassDecides(t: Tables, adapter: bool, day: Day, plan: seq<Ticket>, o: Answers)
    requires day.scheduled && day.id in t.log && CommittedTo(t.log[day.id], plan)
    ensures var (t', p) := PassOf(t, adapter, day, o);
            && LaterPassDoes(t, t', day.id, adapter, plan, o, p.closes, p.alive)
            && (o.effects > |plan| + 1 ==> p.alive)
  {
    NothingToClose(adapter, plan, o);
    hide Resolving, StillOpen, Records, ClosesAsAsked;
    var first := ReadOf(o.first, o.firstComplete);
    var seen := Unread(day, t.log[day.id]).(first := first, final := first);
    var q := TripOvernight(Progress(t, o.effects, true), first.tickets);
    if q.alive {
      ResolvingCloses(q, seen, adapter, plan, o);
      ResolvingRecords(q, seen, adapter, plan, o);
      ResolvingHalts(q, seen, adapter, plan, o);
    }
  }

  /** A day without a flatten, and an occurrence refused or resolved, change nothing. */
  lemma NothingLeftToDecide(t: Tables, adapter: bool, day: Day, o: Answers)
    requires !day.scheduled
             || (day.id in t.log && t.log[day.id] != [] && !LastKind(t.log[day.id], FlattenSubmissionStarted))
    ensures var (t', p) := PassOf(t, adapter, day, o); t' == t && p.closes == [] && p.alive
  {
  }
}
