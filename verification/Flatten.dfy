/**
 The automatic flatten of `application/execution.py`: one occurrence per trading day, committed by one
 pass and acted on only by later ones.  One worker; every pass may die between any two effects, the
 broker may move at any moment, and every position read may fail (and then looks like an empty book).
 */
module Flatten {
  import opened ExecutionEvents
  import opened FlattenEvents
  import opened ExpectedExposure

  /** One position read.  A failed read carries no positions. */
  datatype Observation = Observation(tickets: seq<Ticket>, complete: bool)

  /** `Untrusted` stands for every other reason. */
  datatype HaltReason =
    | OvernightExposure | FlattenStateUnknown | ProtectiveStopMissing | ProtectiveStopMismatch
    | SubmissionIntegrity | FlattenCloseFailed | Untrusted

  /** Halts the flatten gate looks past: becoming flat is their resolution. */
  const TOLERATED: set<HaltReason> := {
    OvernightExposure, FlattenStateUnknown, ProtectiveStopMissing, ProtectiveStopMismatch, SubmissionIntegrity,
    FlattenCloseFailed}

  /** A trip of a switch that is already halted changes nothing. */
  function Tripped(halt: Option<set<HaltReason>>, reason: HaltReason): Option<set<HaltReason>> {
    if halt.Some? then halt else Some({reason})
  }

  /** The gate: `rest` stands for the legs that depend on neither the book nor the switch. */
  predicate GateOpens(rest: bool, complete: bool, halt: Option<set<HaltReason>>) {
    rest && complete && (halt.Some? ==> halt.value <= TOLERATED)
  }

  /** The trading day a pass runs on, with what clock, calendar and configuration say about it;
      `crossedClose` is whether some open position crossed the weekly close. */
  datatype Day = Day(
    id: OccurrenceId, fingerprint: nat, scheduled: bool, deadlinePhase: bool, pastDeadline: bool, crossedClose: bool)

  function Note(kind: FlattenEventType): FlattenEvent {
    FlattenEvent(kind, None)
  }

  function Commitment(tickets: seq<Ticket>): FlattenEvent {
    FlattenEvent(FlattenSubmissionStarted, Some(FlattenPayload(tickets, [], [], [], false)))
  }

  /** The members of `s`, in order, that are (or are not) among `open`. */
  function StillOpen(s: seq<Ticket>, open: seq<Ticket>): (r: seq<Ticket>)
    ensures forall t :: t in r <==> t in s && t in open
  {
    if s == [] then [] else (if s[0] in open then [s[0]] else []) + StillOpen(s[1..], open)
  }

  function Without(s: seq<Ticket>, open: seq<Ticket>): (r: seq<Ticket>)
    ensures forall t :: t in r <==> t in s && t !in open
  {
    if s == [] then [] else (if s[0] in open then [] else [s[0]]) + Without(s[1..], open)
  }

  function Resolved(targets: seq<Ticket>, open: seq<Ticket>): FlattenEvent {
    var still := StillOpen(targets, open);
    FlattenEvent(FlattenOutcomeResolved, Some(FlattenPayload([], targets, still, Without(targets, still), still == [])))
  }

  predicate LastKind(h: seq<FlattenEvent>, kind: FlattenEventType) {
    h != [] && h[|h| - 1].kind == kind
  }

  /** The plan of an occurrence whose last event is its commitment. */
  function Committed(h: seq<FlattenEvent>): seq<Ticket> {
    if LastKind(h, FlattenSubmissionStarted) && h[|h| - 1].payload.Some? then h[|h| - 1].payload.value.instructions
      else []
  }

  /** What a pass that wins the claim writes. */
  function CommitPath(open: bool, tickets: seq<Ticket>): seq<FlattenEvent> {
    if open then [Note(FlattenRequestClaimed), Note(FlattenGatePassed), Commitment(tickets)]
    else [Note(FlattenRequestClaimed), Note(FlattenGateBlocked)]
  }

  // ---------------------------------------------------------------------------------------------
  // What one pass may do
  // ---------------------------------------------------------------------------------------------

  /** One pass over one occurrence: its log before and after, the first and the last position read, whether
      the day has a flatten at all, what the gate said, whether closes were attempted and which, and whether
      the pass lived to its end. */
  datatype Pass = Pass(
    id: OccurrenceId,
    before: seq<FlattenEvent>,
    after: seq<FlattenEvent>,
    first: Observation,
    final: Observation,
    scheduled: bool,
    gate: bool,
    attempted: bool,
    closes: seq<Ticket>,
    alive: bool)

  predicate GoodObservation(o: Observation) {
    !o.complete ==> o.tickets == []
  }

  /** Nothing is durable yet: the pass may claim, gate and commit, but it closes nothing. */
  ghost predicate Commits(p: Pass) {
    && p.closes == [] && !p.attempted
    && (p.gate ==> p.first.complete)
    && p.after <= CommitPath(p.gate, p.first.tickets)
    && (p.after != [] ==> p.first.tickets != [])
    && (p.alive && p.after != [] ==> p.after == CommitPath(p.gate, p.first.tickets))
  }

  /** A commitment is durable: the pass may close what it committed to and observed open, and records
      the outcome only when nothing is left or nothing could be attempted.  On a day without a flatten it
      does nothing at all. */
  ghost predicate Resolves(p: Pass, adapter: bool) {
    var plan := Committed(p.before);
    var due := StillOpen(plan, p.first.tickets);
    && p.closes <= due
    && (p.attempted ==> adapter && due != [])
    && (!p.attempted ==> p.closes == [] && p.final == p.first)
    && (p.alive && p.attempted ==> p.closes == due)
    && (p.after == p.before || p.after == p.before + [Resolved(plan, p.final.tickets)])
    && (p.after != p.before && p.attempted ==> p.closes == due && StillOpen(plan, p.final.tickets) == [])
    && (p.alive && p.scheduled && p.after == p.before ==> p.attempted && StillOpen(plan, p.final.tickets) != [])
    && (!p.scheduled ==> p.after == p.before && p.closes == [])
  }

  ghost predicate GoodPass(p: Pass, adapter: bool) {
    && GoodObservation(p.first) && GoodObservation(p.final)
    && (if p.before == [] then Commits(p)
        else if LastKind(p.before, FlattenSubmissionStarted) then Resolves(p, adapter)
        else p.after == p.before && p.closes == [])
  }

  const BLOCKED_WORD: seq<FlattenEventType> := [FlattenRequestClaimed, FlattenGateBlocked]
  const RESOLVED_WORD: seq<FlattenEventType> :=
    [FlattenRequestClaimed, FlattenGatePassed, FlattenSubmissionStarted, FlattenOutcomeResolved]

  function KindsOf(h: seq<FlattenEvent>): (ks: seq<FlattenEventType>)
    ensures |ks| == |h| && forall i :: 0 <= i < |h| ==> ks[i] == h[i].kind
  {
    seq(|h|, i requires 0 <= i < |h| => h[i].kind)
  }

  /** The event kinds are a prefix of one of two words, and a commitment names at least one ticket. */
  ghost predicate InFlattenLanguage(h: seq<FlattenEvent>) {
    && (KindsOf(h) <= BLOCKED_WORD || KindsOf(h) <= RESOLVED_WORD)
    && (forall i :: 0 <= i < |h| && h[i].kind == FlattenSubmissionStarted ==>
                      h[i].payload.Some? && h[i].payload.value.instructions != [])
  }

  // ---------------------------------------------------------------------------------------------
  // Runs of passes
  // ---------------------------------------------------------------------------------------------

  function EventsAfter(ps: seq<Pass>, id: OccurrenceId): seq<FlattenEvent> {
    if ps == [] then []
    else if ps[|ps| - 1].id == id then ps[|ps| - 1].after
    else EventsAfter(ps[..|ps| - 1], id)
  }

  /** Each pass finds the log as the passes before it left it. */
  ghost predicate IsFlattenRun(ps: seq<Pass>, adapter: bool) {
    forall i :: 0 <= i < |ps| ==> GoodPass(ps[i], adapter) && ps[i].before == EventsAfter(ps[..i], ps[i].id)
  }

  type FlattenLog = map<OccurrenceId, seq<FlattenEvent>>

  function EventsIn(log: FlattenLog, id: OccurrenceId): seq<FlattenEvent> {
    if id in log then log[id] else []
  }

  /** The tables agree with the run so far. */
  ghost predicate Linked(log: FlattenLog, ps: seq<Pass>) {
    forall o :: EventsIn(log, o) == EventsAfter(ps, o)
  }

  ghost predicate SameElsewhere(log: FlattenLog, log': FlattenLog, id: OccurrenceId) {
    forall o :: o != id ==> EventsIn(log', o) == EventsIn(log, o)
  }

  ghost predicate RegularTables(log: FlattenLog, claims: map<OccurrenceId, nat>) {
    forall o :: o in log ==> o in claims && log[o] != [] && InFlattenLanguage(log[o])
  }

  lemma ExtendRun(ps: seq<Pass>, p: Pass, adapter: bool, log: FlattenLog, log': FlattenLog)
    requires IsFlattenRun(ps, adapter) && GoodPass(p, adapter) && Linked(log, ps)
    requires p.before == EventsIn(log, p.id) && p.after == EventsIn(log', p.id) && SameElsewhere(log, log', p.id)
    ensures IsFlattenRun(ps + [p], adapter) && Linked(log', ps + [p])
  {
    var ps' := ps + [p];
    assert ps'[..|ps|] == ps;
    forall i | 0 <= i < |ps'| ensures GoodPass(ps'[i], adapter) && ps'[i].before == EventsAfter(ps'[..i], ps'[i].id) {
      if i < |ps| { assert ps'[..i] == ps[..i]; }
    }
    forall o ensures EventsIn(log', o) == EventsAfter(ps', o) {
      assert EventsIn(log, o) == EventsAfter(ps, o);
    }
  }

  lemma CommitPathIsRegular(open: bool, tickets: seq<Ticket>, k: nat)
    requires tickets != [] && k <= |CommitPath(open, tickets)|
    ensures InFlattenLanguage(CommitPath(open, tickets)[..k])
    ensures k < |CommitPath(open, tickets)| ==>
              forall x :: x in CommitPath(open, tickets)[..k] ==> x.kind != CommitPath(open, tickets)[k].kind
  {
    var h := CommitPath(open, tickets);
    assert KindsOf(h) <= if open then RESOLVED_WORD else BLOCKED_WORD;
    assert KindsOf(h[..k]) == KindsOf(h)[..k];
  }

  lemma ResolutionIsRegular(h: seq<FlattenEvent>, plan: seq<Ticket>, open: seq<Ticket>)
    requires InFlattenLanguage(h) && LastKind(h, FlattenSubmissionStarted)
    ensures InFlattenLanguage(h + [Resolved(plan, open)])
    ensures forall x :: x in h ==> x.kind != Resolved(plan, open).kind
  {
    assert KindsOf(h)[|h| - 1] == FlattenSubmissionStarted;
    assert KindsOf(h + [Resolved(plan, open)]) == RESOLVED_WORD;
  }

  // ---------------------------------------------------------------------------------------------
  // One pass as a function of what it is told
  // ---------------------------------------------------------------------------------------------

  /** The driver's durable tables and the kill switch. */
  datatype Tables = Tables(claims: map<OccurrenceId, nat>, log: FlattenLog, halt: Option<set<HaltReason>>)

  const NO_TABLES: Tables := Tables(map[], map[], None)

  /** What one pass is told: what is open at its first and at its last position read and whether those reads
      succeed, the legs of the gate, whether closes may be submitted, and after how many effects it dies. */
  datatype Answers = Answers(
    first: seq<Ticket>, firstComplete: bool, gateLegs: bool, closesEnabled: bool, last: seq<Ticket>, lastComplete: bool,
    effects: nat)

  /** A failed read looks like an empty book. */
  function ReadOf(open: seq<Ticket>, complete: bool): (o: Observation)
    ensures GoodObservation(o) && o.complete == complete
  {
    Observation(if complete then open else [], complete)
  }

  /** A pass in progress, with the effects it still lives to perform. */
  datatype Progress = Progress(tables: Tables, left: nat, alive: bool)

  /** One effect, or the death before it. */
  function Perform(p: Progress, t: Tables): Progress {
    if !p.alive || p.left == 0 then p.(alive := false) else Progress(t, p.left - 1, true)
  }

  function Trip(p: Progress, reason: HaltReason): Progress {
    if p.tables.halt.Some? then p else Perform(p, p.tables.(halt := Tripped(p.tables.halt, reason)))
  }

  function TripOvernight(p: Progress, open: seq<Ticket>): Progress {
    if open == [] then p else Trip(p, OvernightExposure)
  }

  function Unread(day: Day, before: seq<FlattenEvent>): Pass {
    Pass(day.id, before, before, Observation([], false), Observation([], false), day.scheduled, false, false, [], true)
  }

  function Min(a: nat, b: nat): nat {
    if a < b then a else b
  }

  function WithLog(log: FlattenLog, id: OccurrenceId, h: seq<FlattenEvent>): FlattenLog {
    if h == [] then log else log[id := h]
  }

  /** From a won claim: gate, then commit or refuse, as far as the pass lives. */
  function Committing(p: Progress, seen: Pass, o: Answers): (Tables, Pass) {
    var open := GateOpens(o.gateLegs, seen.first.complete, p.tables.halt);
    var path := CommitPath(open, seen.first.tickets);
    var n := Min(p.left, |path|);
    (p.tables.(log := WithLog(p.tables.log, seen.id, path[..n])),
     seen.(after := path[..n], gate := open, alive := p.left >= |path|))
  }

  /** No event yet: claim the occurrence, unless an earlier pass did. */
  function Claiming(p: Progress, seen: Pass, day: Day, o: Answers): (Tables, Pass) {
    if day.id in p.tables.claims then
      if p.tables.claims[day.id] != day.fingerprint then (p.tables, seen.(alive := false))  // a conflict raises
      else
        var q := TripOvernight(p, seen.first.tickets);
        (q.tables, seen.(alive := q.alive))  // an earlier pass died between its claim and its first event
    else
      var q := Perform(p, p.tables.(claims := p.tables.claims[day.id := day.fingerprint]));
      var t := if q.alive then TripOvernight(q, seen.first.tickets) else q;
      if t.alive then Committing(t, seen, o) else (t.tables, seen.(alive := false))
  }

  /** A commitment is last: attempt what is due, and record the outcome if nothing is left or tried. */
  function Resolving(p: Progress, seen: Pass, adapter: bool, o: Answers): (Tables, Pass) {
    var plan := Committed(seen.before);
    var due := StillOpen(plan, seen.first.tickets);
    var attempted := due != [] && adapter && o.closesEnabled;
    var closes := if attempted then due[..Min(p.left, |due|)] else [];
    if attempted && |closes| < |due| then (p.tables, seen.(attempted := true, closes := closes, alive := false))
    else
      var last := if attempted then ReadOf(o.last, o.lastComplete) else seen.first;
      var after := seen.(final := last, attempted := attempted, closes := closes);
      var q := p.(left := p.left - |closes|);
      if attempted && StillOpen(plan, last.tickets) != [] then
        var t := Trip(q, FlattenCloseFailed);
        (t.tables, after.(alive := t.alive))
      else
        var e := Resolved(plan, last.tickets);
        var t := Perform(q, q.tables.(log := q.tables.log[seen.id := seen.before + [e]]));
        (t.tables, after.(after := if t.alive then seen.before + [e] else seen.before, alive := t.alive))
  }

  /** Closes are attempted in order on what was committed to and observed open.  The outcome is recorded only
      when the last read shows none of it, or when nothing was attempted; the record says what that read
      showed. */
  ghost predicate ClosesThenRecords(log: FlattenLog, log': FlattenLog, seen: Pass, p: Pass) {
    var plan := Committed(seen.before);
    && p.closes <= StillOpen(plan, seen.first.tickets)
    && (!p.attempted ==> p.final == seen.first && p.closes == [])
    && (log' != log ==>
          && log' == log[seen.id := seen.before + [Resolved(plan, p.final.tickets)]]
          && (p.attempted ==> StillOpen(plan, p.final.tickets) == []))
  }

  lemma ResolvingClosesThenRecords(p: Progress, seen: Pass, adapter: bool, o: Answers)
    requires p.alive && seen.final == seen.first && seen.closes == [] && !seen.attempted
    ensures var (t', p') := Resolving(p, seen, adapter, o); ClosesThenRecords(p.tables.log, t'.log, seen, p')
  {
    hide Resolved;
    var due := StillOpen(Committed(seen.before), seen.first.tickets);
    assert due[..|due|] == due;
  }

  /** Durable state first, then the broker. */
  function PassOf(t: Tables, adapter: bool, day: Day, o: Answers): (Tables, Pass) {
    var before := EventsIn(t.log, day.id);
    if !day.scheduled || (before != [] && !LastKind(before, FlattenSubmissionStarted)) then (t, Unread(day, before))
    else
      var first := ReadOf(o.first, o.firstComplete);
      var seen := Unread(day, before).(first := first, final := first);
      var p := Progress(t, o.effects, true);
      if before != [] then
        var q := TripOvernight(p, first.tickets);
        if q.alive then Resolving(q, seen, adapter, o) else (q.tables, seen.(alive := false))
      else
        var q := if day.deadlinePhase && !first.complete then Trip(p, FlattenStateUnknown) else p;
        if !q.alive then (q.tables, seen.(alive := false))
        else if first.tickets == [] || !(day.pastDeadline || day.crossedClose) then (q.tables, seen)
        else Claiming(q, seen, day, o)
  }

  // ---------------------------------------------------------------------------------------------
  // The pass is a good one
  // ---------------------------------------------------------------------------------------------

  /** How the tables after a pass stand to those before it. */
  ghost predicate GoodStep(t: Tables, adapter: bool, t': Tables, p: Pass) {
    && RegularTables(t'.log, t'.claims) && SameElsewhere(t.log, t'.log, p.id)
    && p.before == EventsIn(t.log, p.id) && p.after == EventsIn(t'.log, p.id) && GoodPass(p, adapter)
    && (t.halt.Some? ==> t'.halt == t.halt)
    && (p.gate ==> t'.halt.Some? && t'.halt.value <= TOLERATED)
  }

  lemma CommittingIsGood(t: Tables, adapter: bool, p: Progress, seen: Pass, o: Answers)
    requires RegularTables(p.tables.log, p.tables.claims) && p.tables.log == t.log && seen.id in p.tables.claims
    requires t.halt.Some? ==> p.tables.halt == t.halt
    requires p.tables.halt.Some? && seen.before == [] == EventsIn(t.log, seen.id) && seen.first.tickets != []
    requires seen.closes == [] && !seen.attempted && GoodObservation(seen.first) && seen.final == seen.first
    ensures var (t', p') := Committing(p, seen, o); GoodStep(t, adapter, t', p') && p'.id == seen.id
  {
    var open := GateOpens(o.gateLegs, seen.first.complete, p.tables.halt);
    var path := CommitPath(open, seen.first.tickets);
    CommitPathIsRegular(open, seen.first.tickets, Min(p.left, |path|));
  }

  lemma UnrecordedIsGood(t: Tables, adapter: bool, t': Tables, p: Pass)
    requires RegularTables(t.log, t.claims) && t'.log == t.log && RegularTables(t'.log, t'.claims)
    requires p.before == p.after == EventsIn(t.log, p.id) && !p.gate && (t.halt.Some? ==> t'.halt == t.halt)
    requires GoodPass(p, adapter)
    ensures GoodStep(t, adapter, t', p)
  {
  }

  lemma RecordedIsGood(t: Tables, adapter: bool, t': Tables, p: Pass, e: FlattenEvent)
    requires RegularTables(t'.log, t'.claims) && p.id in t.log && p.before == t.log[p.id] && p.after == p.before + [e]
    requires t'.log == t.log[p.id := p.after] && !p.gate && (t.halt.Some? ==> t'.halt == t.halt) && GoodPass(p, adapter)
    ensures GoodStep(t, adapter, t', p)
  {
  }

  lemma ResolvingIsGood(t: Tables, adapter: bool, p: Progress, seen: Pass, o: Answers)
    requires RegularTables(p.tables.log, p.tables.claims) && p.tables.log == t.log && p.tables.claims == t.claims
             && p.alive
    requires t.halt.Some? ==> p.tables.halt == t.halt
    requires seen.id in t.log && seen.before == t.log[seen.id] && LastKind(seen.before, FlattenSubmissionStarted)
    requires seen.after == seen.before && seen.closes == [] && !seen.attempted && !seen.gate && seen.scheduled
             && seen.alive
    requires GoodObservation(seen.first) && seen.final == seen.first
    ensures var (t', p') := Resolving(p, seen, adapter, o); GoodStep(t, adapter, t', p') && p'.id == seen.id
  {
    hide InFlattenLanguage, GoodStep, Resolved, Committed, StillOpen;
    var plan := Committed(seen.before);
    var due := StillOpen(plan, seen.first.tickets);
    var (t', p') := Resolving(p, seen, adapter, o);
    assert due[..|due|] == due;
    if p'.after == p'.before {
      UnrecordedIsGood(t, adapter, t', p');
    } else {
      ResolutionIsRegular(seen.before, plan, p'.final.tickets);
      RecordedIsGood(t, adapter, t', p', Resolved(plan, p'.final.tickets));
    }
  }

  /** Whatever a pass is told, what it does is what a good pass may do. */
  lemma PassOfIsGood(t: Tables, adapter: bool, day: Day, o: Answers)
    requires RegularTables(t.log, t.claims)
    ensures var (t', p) := PassOf(t, adapter, day, o); GoodStep(t, adapter, t', p) && p.id == day.id
  {
    hide InFlattenLanguage, Committing, Resolving;
    var before := EventsIn(t.log, day.id);
    if day.scheduled {
      var first := ReadOf(o.first, o.firstComplete);
      var seen := Unread(day, before).(first := first, final := first);
      var p := Progress(t, o.effects, true);
      if LastKind(before, FlattenSubmissionStarted) {
        var q := TripOvernight(p, first.tickets);
        if q.alive {
          ResolvingIsGood(t, adapter, q, seen, o);
        }
      } else if before == [] {
        var q := if day.deadlinePhase && !first.complete then Trip(p, FlattenStateUnknown) else p;
        if q.alive && first.tickets != [] {
          ClaimingIsGood(t, adapter, q, seen, day, o);
        }
      }
    }
  }

  lemma ClaimingIsGood(t: Tables, adapter: bool, p: Progress, seen: Pass, day: Day, o: Answers)
    requires RegularTables(t.log, t.claims) && p.tables.log == t.log && p.tables.claims == t.claims && p.alive
    requires t.halt.Some? ==> p.tables.halt == t.halt
    requires seen.id == day.id && seen.before == seen.after == [] == EventsIn(t.log, seen.id)
             && seen.first.tickets != []
    requires seen.closes == [] && !seen.attempted && !seen.gate && GoodObservation(seen.first)
             && seen.final == seen.first
    ensures var (t', p') := Claiming(p, seen, day, o); GoodStep(t, adapter, t', p') && p'.id == seen.id
  {
    hide InFlattenLanguage, Committing;
    if day.id !in t.claims {
      var q := Perform(p, p.tables.(claims := p.tables.claims[day.id := day.fingerprint]));
      var u := if q.alive then TripOvernight(q, seen.first.tickets) else q;
      if u.alive {
        CommittingIsGood(t, adapter, u, seen, o);
      }
    }
  }

  /** An occurrence is claimed only on a day with a flatten that is due, and a book that could not be read
      by the deadline leaves the system halted if the pass lives. */
  lemma OccurrencesNeedAReason(t: Tables, adapter: bool, day: Day, o: Answers)
    requires EventsIn(t.log, day.id) == []
    ensures var (t', p) := PassOf(t, adapter, day, o);
            && (t'.claims != t.claims || t'.log != t.log ==> day.scheduled && (day.pastDeadline || day.crossedClose))
            && (p.alive && day.scheduled && day.deadlinePhase && !o.firstComplete ==> t'.halt.Some?)
            && (!day.scheduled ==> t' == t && p.closes == [])
  {
    hide Claiming, Resolving;
  }

  /** One cycle of the deployment: the switch as others left it, the day, and the answers. */
  datatype Cycle = Cycle(halt: Option<set<HaltReason>>, day: Day, answers: Answers)

  /** The tables and the passes of a run of cycles. */
  function DriverRun(cycles: seq<Cycle>, adapter: bool): (Tables, seq<Pass>) {
    if cycles == [] then (NO_TABLES, [])
    else
      var (t, ps) := DriverRun(cycles[..|cycles| - 1], adapter);
      var c := cycles[|cycles| - 1];
      var (t', p) := PassOf(t.(halt := c.halt), adapter, c.day, c.answers);
      (t', ps + [p])
  }

  /** Every run of the driver is a run of good passes, so all that follows holds of it. */
  lemma {:induction false} DriverRunsAreFlattenRuns(cycles: seq<Cycle>, adapter: bool)
    ensures var (t, ps) := DriverRun(cycles, adapter);
            RegularTables(t.log, t.claims) && IsFlattenRun(ps, adapter) && Linked(t.log, ps)
  {
    if cycles == [] {
    } else {
      var (t, ps) := DriverRun(cycles[..|cycles| - 1], adapter);
      var c := cycles[|cycles| - 1];
      var (t', p) := PassOf(t.(halt := c.halt), adapter, c.day, c.answers);
      DriverRunsAreFlattenRuns(cycles[..|cycles| - 1], adapter);
      PassOfIsGood(t.(halt := c.halt), adapter, c.day, c.answers);
      ExtendRun(ps, p, adapter, t.log, t'.log);
    }
  }

  // ---------------------------------------------------------------------------------------------
  // The driver as an object
  // ---------------------------------------------------------------------------------------------

  class FlattenDriver {
    const adapter: bool
    var claims: map<OccurrenceId, nat>
    var log: FlattenLog
    var halt: Option<set<HaltReason>>
    var left: nat
    ghost var passes: seq<Pass>

    constructor (adapter: bool)
      ensures Valid() && passes == [] && Now() == NO_TABLES && this.adapter == adapter
    {
      this.adapter := adapter;
      claims, log, halt, left := map[], map[], None, 0;
      passes := [];
    }

    function Now(): Tables
      reads this
    {
      Tables(claims, log, halt)
    }

    function Events(id: OccurrenceId): seq<FlattenEvent>
      reads this
    {
      EventsIn(log, id)
    }

    ghost predicate Valid()
      reads this
    {
      RegularTables(log, claims) && IsFlattenRun(passes, adapter) && Linked(log, passes)
    }

    /** Another tier or an operator halts or clears the switch between passes. */
    method Elsewhere(halt: Option<set<HaltReason>>)
      requires Valid()
      modifies this`halt
      ensures Valid() && this.halt == halt
    {
      this.halt := halt;
    }

    /** One effect, unless the process dies before it. */
    method Spend() returns (alive: bool)
      modifies this`left
      ensures alive == (old(left) > 0) && left == if alive then old(left) - 1 else old(left)
    {
      alive := left > 0;
      if alive {
        left := left - 1;
      }
    }

    /** Idempotent: a halted switch stays as it is. */
    method TripSwitch(reason: HaltReason) returns (alive: bool)
      modifies this`halt, this`left
      ensures Progress(Now(), left, alive) == Trip(Progress(old(Now()), old(left), true), reason)
    {
      if halt.Some? { return true; }
      alive := Spend();
      if alive {
        halt := Some({reason});
      }
    }

    method TripOvernightExposure(open: seq<Ticket>) returns (alive: bool)
      modifies this`halt, this`left
      ensures Progress(Now(), left, alive) == TripOvernight(Progress(old(Now()), old(left), true), open)
    {
      alive := true;
      if open != [] {
        alive := TripSwitch(OvernightExposure);
      }
    }

    /** Rows are unique per (occurrence, kind); within a run the row is always new. */
    method AppendFlatten(id: OccurrenceId, e: FlattenEvent) returns (alive: bool)
      requires forall x :: x in Events(id) ==> x.kind != e.kind
      modifies this`log, this`left
      ensures alive == (old(left) > 0) && left == if alive then old(left) - 1 else old(left)
      ensures log == if alive then old(log)[id := old(Events(id)) + [e]] else old(log)
    {
      alive := Spend();
      if alive {
        log := log[id := Events(id) + [e]];
      }
    }

    /** One pass.  It is the pass that the answers determine, a good one, and the run stays linked. */
    method FlattenOnce(day: Day, o: Answers) returns (p: Pass)
      requires Valid()
      modifies this
      ensures Valid() && (Now(), p) == PassOf(old(Now()), adapter, day, o) && passes == old(passes) + [p]
      ensures p.id == day.id && GoodStep(old(Now()), adapter, Now(), p)
    {
      hide PassOf, InFlattenLanguage;
      ghost var before := Now();
      left := o.effects;
      p := RunPass(day, o);
      ExtendRun(passes, p, adapter, before.log, log);
      passes := passes + [p];
    }

    /** Durable state first, then the broker.  Other occurrences keep their logs, a halt in force stays as it
        was, and the gate opens only under a halt that it tolerates. */
    method RunPass(day: Day, o: Answers) returns (p: Pass)
      requires RegularTables(log, claims) && left == o.effects
      modifies this`claims, this`log, this`halt, this`left
      ensures (Now(), p) == PassOf(old(Now()), adapter, day, o) && p.id == day.id
      ensures GoodStep(old(Now()), adapter, Now(), p)
    {
      hide InFlattenLanguage, Committing, Resolving, GoodStep;
      PassOfIsGood(Now(), adapter, day, o);
      p := Unread(day, Events(day.id));
      if !day.scheduled || (p.before != [] && !LastKind(p.before, FlattenSubmissionStarted)) { return; }
      p := p.(first := ReadOf(o.first, o.firstComplete), final := ReadOf(o.first, o.firstComplete));
      if p.before != [] {
        var alive := TripOvernightExposure(p.first.tickets);
        if !alive { return p.(alive := false); }
        p := AttemptAndResolve(p, o);
        return;
      }
      if day.deadlinePhase && !p.first.complete {
        var alive := TripSwitch(FlattenStateUnknown);
        if !alive { return p.(alive := false); }
      }
      if p.first.tickets == [] || !(day.pastDeadline || day.crossedClose) { return; }
      p := Claim(p, day, o);
    }

    /** The winning insert is the claim; a lost one has nothing to recover from. */
    method Claim(seen: Pass, day: Day, o: Answers) returns (p: Pass)
      requires RegularTables(log, claims) && seen.id == day.id && seen.before == [] && day.id !in log
               && seen.first.tickets != []
      modifies this`claims, this`log, this`halt, this`left
      ensures (Now(), p) == Claiming(Progress(old(Now()), old(left), true), seen, day, o)
    {
      hide InFlattenLanguage, Committing;
      if day.id in claims {
        if claims[day.id] != day.fingerprint { return seen.(alive := false); }
        var survives := TripOvernightExposure(seen.first.tickets);
        return seen.(alive := survives);
      }
      var alive := Spend();
      if !alive { return seen.(alive := false); }
      claims := claims[day.id := day.fingerprint];
      alive := TripOvernightExposure(seen.first.tickets);
      if !alive { return seen.(alive := false); }
      p := CommitFlatten(seen, o);
    }

    /** The just-claimed branch: gate, then commit or refuse.  It never closes anything. */
    method CommitFlatten(seen: Pass, o: Answers) returns (p: Pass)
      requires seen.before == [] && seen.id !in log
      modifies this`log, this`left
      ensures (Now(), p) == Committing(Progress(old(Now()), old(left), true), seen, o)
      ensures p.closes == seen.closes && (p.gate ==> p.first.complete && (halt.Some? ==> halt.value <= TOLERATED))
    {
      var open := GateOpens(o.gateLegs, seen.first.complete, halt);
      ghost var path, log0 := CommitPath(open, seen.first.tickets), log;
      p := seen.(gate := open, after := [], alive := true);
      p := Advance(p, Note(FlattenRequestClaimed), path, 0, log0);
      if !p.alive { return; }
      if !open {
        p := Advance(p, Note(FlattenGateBlocked), path, 1, log0);
        return;
      }
      p := Advance(p, Note(FlattenGatePassed), path, 1, log0);
      if !p.alive { return; }
      p := Advance(p, Commitment(seen.first.tickets), path, 2, log0);
    }

    /** The next event of a pass that is committing. */
    method Advance(p: Pass, e: FlattenEvent, ghost path: seq<FlattenEvent>, ghost k: nat, ghost log0: FlattenLog)
      returns (q: Pass)
      requires k < |path| && p.after == path[..k] && e == path[k] && p.id !in log0
      requires forall i :: 0 <= i < k ==> path[i].kind != e.kind
      requires log == WithLog(log0, p.id, p.after)
      modifies this`log, this`left
      ensures left == if old(left) > 0 then old(left) - 1 else 0
      ensures q == if old(left) > 0 then p.(after := path[..k + 1]) else p.(alive := false)
      ensures log == WithLog(log0, p.id, q.after)
    {
      assert path[..k + 1] == path[..k] + [e];
      var alive := AppendFlatten(p.id, e);
      q := if alive then p.(after := p.after + [e]) else p.(alive := false);
    }

    /** The one place a close is attempted and the one place an outcome is recorded. */
    method AttemptAndResolve(seen: Pass, o: Answers) returns (p: Pass)
      requires seen.id in log && seen.before == log[seen.id] && LastKind(seen.before, FlattenSubmissionStarted)
      requires InFlattenLanguage(seen.before) && seen.after == seen.before && seen.final == seen.first
      requires seen.closes == [] && !seen.attempted
      modifies this`log, this`halt, this`left
      ensures (Now(), p) == Resolving(Progress(old(Now()), old(left), true), seen, adapter, o)
      ensures ClosesThenRecords(old(log), log, seen, p)
    {
      hide InFlattenLanguage, Resolved, ClosesThenRecords;
      ResolvingClosesThenRecords(Progress(Now(), left, true), seen, adapter, o);
      var plan := Committed(seen.before);
      var due := StillOpen(plan, seen.first.tickets);
      p := seen.(final := seen.first, attempted := false, closes := []);
      if due != [] && adapter && o.closesEnabled {
        var closes := CloseEach(due);
        p := p.(attempted := true, closes := closes);
        if |closes| < |due| { return seen.(attempted := true, closes := closes, alive := false); }
        p := p.(final := ReadOf(o.last, o.lastComplete));
      }
      var alive;
      if p.attempted && StillOpen(plan, p.final.tickets) != [] {
        alive := TripSwitch(FlattenCloseFailed);
      } else {
        ResolutionIsRegular(seen.before, plan, p.final.tickets);
        alive := AppendFlatten(seen.id, Resolved(plan, p.final.tickets));
        p := p.(after := if alive then seen.before + [Resolved(plan, p.final.tickets)] else seen.before);
      }
      p := p.(alive := alive);
    }

    /** Every due ticket in turn, whatever the broker answers; only the next read is believed. */
    method CloseEach(due: seq<Ticket>) returns (closes: seq<Ticket>)
      modifies this`left
      ensures closes == due[..Min(old(left), |due|)] && left == old(left) - |closes|
    {
      closes := [];
      for i := 0 to |due|
        invariant closes == due[..i] && left == old(left) - i
      {
        var alive := Spend();
        if !alive { return; }
        closes := closes + [due[i]];
      }
    }

    /** Every occurrence with its events, each once. */
    method OccurrenceHistories() returns (os: seq<Occurrence>)
      ensures forall o :: o in os <==> o.id in log && o.events == log[o.id]
      ensures forall i, j :: 0 <= i < j < |os| ==> os[i].id != os[j].id
    {
      os := [];
      var rest := log.Keys;
      while rest != {}
        invariant rest <= log.Keys
        invariant forall o :: o in os <==> o.id in log && o.id !in rest && o.events == log[o.id]
        invariant forall i, j :: 0 <= i < j < |os| ==> os[i].id != os[j].id
        decreases |rest|
      {
        var id :| id in rest;
        rest := rest - {id};
        assert forall i :: 0 <= i < |os| ==> os[i] in os;
        os := os + [Occurrence(id, log[id])];
      }
    }
  }

  // ---------------------------------------------------------------------------------------------
  // Main results
  // ---------------------------------------------------------------------------------------------

  /** A log only grows from pass to pass, and stays a prefix of one of the two words. */
  lemma {:induction false} FlattenLogsOnlyGrow(ps: seq<Pass>, adapter: bool, i: nat, j: nat)
    requires IsFlattenRun(ps, adapter) && i <= j < |ps| && ps[i].id == ps[j].id
    ensures ps[i].after <= ps[j].after && (i < j ==> ps[i].after <= ps[j].before)
    decreases j
  {
    PassGrows(ps[j], adapter);
    if i < j {
      assert ps[j].before == EventsAfter(ps[..j], ps[j].id);
      var k := LastPassOf(ps, i, j);
      FlattenLogsOnlyGrow(ps, adapter, i, k);
    }
  }

  lemma PassGrows(p: Pass, adapter: bool)
    requires GoodPass(p, adapter)
    ensures p.before <= p.after
  {
  }

  /** The most recent pass before `j` over the occurrence of pass `i`. */
  lemma {:induction false} LastPassOf(ps: seq<Pass>, i: nat, j: nat) returns (k: nat)
    requires i < j <= |ps|
    ensures i <= k < j && ps[k].id == ps[i].id && EventsAfter(ps[..j], ps[i].id) == ps[k].after
    decreases j
  {
    var front := ps[..j];
    if ps[j - 1].id == ps[i].id {
      k := j - 1;
    } else {
      assert front[..j - 1] == ps[..j - 1];
      k := LastPassOf(ps, i, j - 1);
    }
  }

  lemma {:induction false} FlattenHistoriesStayInTheLanguage(ps: seq<Pass>, adapter: bool, id: OccurrenceId)
    requires IsFlattenRun(ps, adapter)
    ensures InFlattenLanguage(EventsAfter(ps, id))
    decreases |ps|
  {
    if ps == [] {
    } else {
      var n := |ps| - 1;
      var p := ps[n];
      FlattenRunPrefix(ps, adapter, n);
      FlattenHistoriesStayInTheLanguage(ps[..n], adapter, id);
      if p.id == id {
        PassStaysInTheLanguage(p, adapter);
      }
    }
  }

  lemma FlattenRunPrefix(ps: seq<Pass>, adapter: bool, n: nat)
    requires IsFlattenRun(ps, adapter) && n <= |ps|
    ensures IsFlattenRun(ps[..n], adapter)
  {
    forall i | 0 <= i < n
      ensures GoodPass(ps[..n][i], adapter) && ps[..n][i].before == EventsAfter(ps[..n][..i], ps[..n][i].id) {
      assert ps[..n][..i] == ps[..i];
    }
  }

  lemma PassStaysInTheLanguage(p: Pass, adapter: bool)
    requires GoodPass(p, adapter) && InFlattenLanguage(p.before)
    ensures InFlattenLanguage(p.after)
  {
    if p.before == [] {
      if p.after != [] {
        CommitPathIsRegular(p.gate, p.first.tickets, |p.after|);
      }
    } else if p.after != p.before {
      ResolutionIsRegular(p.before, Committed(p.before), p.final.tickets);
    }
  }

  /** The pass that committed the plan now last in the log. */
  ghost predicate CommittedBy(p: Pass, id: OccurrenceId, plan: seq<Ticket>) {
    p.id == id && p.before == [] && p.closes == [] && p.first.complete && p.first.tickets == plan
      && p.after == CommitPath(true, plan)
  }

  lemma {:induction false} CommitmentHasItsPass(ps: seq<Pass>, adapter: bool, id: OccurrenceId)
    requires IsFlattenRun(ps, adapter) && LastKind(EventsAfter(ps, id), FlattenSubmissionStarted)
    ensures exists j :: 0 <= j < |ps| && CommittedBy(ps[j], id, Committed(EventsAfter(ps, id)))
    decreases |ps|
  {
    var n := |ps| - 1;
    var p := ps[n];
    assert GoodPass(p, adapter) && p.before == EventsAfter(ps[..n], p.id);
    if p.id == id && p.before == [] {
      assert p.after == CommitPath(true, p.first.tickets) by {
        StartedEndsTheCommitPath(p.gate, p.first.tickets, p.after);
      }
      assert CommittedBy(ps[n], id, Committed(p.after));
    } else {
      if p.id == id {
        UnresolvedMeansUnchanged(p, adapter);
      }
      FlattenRunPrefix(ps, adapter, n);
      CommitmentHasItsPass(ps[..n], adapter, id);
      var j :| 0 <= j < n && CommittedBy(ps[..n][j], id, Committed(EventsAfter(ps[..n], id)));
      assert ps[..n][j] == ps[j];
    }
  }

  lemma StartedEndsTheCommitPath(gate: bool, tickets: seq<Ticket>, h: seq<FlattenEvent>)
    requires h <= CommitPath(gate, tickets) && LastKind(h, FlattenSubmissionStarted)
    ensures gate && h == CommitPath(true, tickets)
  {
    assert h[|h| - 1] == CommitPath(gate, tickets)[|h| - 1];
  }

  lemma UnresolvedMeansUnchanged(p: Pass, adapter: bool)
    requires GoodPass(p, adapter) && p.before != [] && LastKind(p.after, FlattenSubmissionStarted)
    ensures p.after == p.before
  {
  }

  /** Two phases, over every run: whatever a pass closes was committed by an earlier pass that closed
      nothing, from a complete read, and was observed open again when this pass began. */
  lemma CommitAndCloseAreDifferentPasses(ps: seq<Pass>, adapter: bool, i: nat)
    requires IsFlattenRun(ps, adapter) && i < |ps| && ps[i].closes != []
    ensures adapter && ps[i].attempted && LastKind(ps[i].before, FlattenSubmissionStarted)
    ensures forall t :: t in ps[i].closes ==> t in ps[i].first.tickets
    ensures exists j :: 0 <= j < i && CommittedBy(ps[j], ps[i].id, Committed(ps[i].before))
                        && forall t :: t in ps[i].closes ==> t in ps[j].first.tickets
  {
    var due := StillOpen(Committed(ps[i].before), ps[i].first.tickets);
    assert ps[i].closes <= due;
    assert forall k :: 0 <= k < |ps[i].closes| ==> ps[i].closes[k] == due[k];
    FlattenRunPrefix(ps, adapter, i);
    CommitmentHasItsPass(ps[..i], adapter, ps[i].id);
    var j :| 0 <= j < i && CommittedBy(ps[..i][j], ps[i].id, Committed(EventsAfter(ps[..i], ps[i].id)));
    assert ps[..i][j] == ps[j];
  }

  /** An occurrence that was refused or resolved is never touched again. */
  lemma TerminalOccurrencesStayClosed(ps: seq<Pass>, adapter: bool, i: nat, j: nat)
    requires IsFlattenRun(ps, adapter) && i < j < |ps| && ps[i].id == ps[j].id
    requires LastKind(ps[i].after, FlattenGateBlocked) || LastKind(ps[i].after, FlattenOutcomeResolved)
    ensures ps[j].after == ps[i].after && ps[j].closes == []
  {
    FlattenLogsOnlyGrow(ps, adapter, i, j);
    FlattenRunPrefix(ps, adapter, j);
    FlattenRunPrefix(ps, adapter, i + 1);
    FlattenHistoriesStayInTheLanguage(ps[..j], adapter, ps[j].id);
    FlattenHistoriesStayInTheLanguage(ps[..i + 1], adapter, ps[i].id);
    assert InFlattenLanguage(ps[i].after) by { assert ps[..i + 1][i] == ps[i]; }
    assert ps[j].before == EventsAfter(ps[..j], ps[j].id);
    FinalKindEndsTheWord(ps[i].after, ps[j].before);
  }

  lemma FinalKindEndsTheWord(h: seq<FlattenEvent>, h': seq<FlattenEvent>)
    requires InFlattenLanguage(h) && InFlattenLanguage(h') && h <= h'
    requires LastKind(h, FlattenGateBlocked) || LastKind(h, FlattenOutcomeResolved)
    ensures h' == h
  {
    assert KindsOf(h)[|h| - 1] == h[|h| - 1].kind && KindsOf(h')[|h| - 1] == h[|h| - 1].kind;
  }

  /** What a resolution writes: the targets are the plan, split into disjoint open and closed halves;
      `flattened` says that the open half is empty; and after an attempt it is only written when so. */
  lemma ResolvedRecordSplitsThePlan(p: Pass, adapter: bool)
    requires GoodPass(p, adapter) && LastKind(p.before, FlattenSubmissionStarted) && p.after != p.before
    ensures |p.after| == |p.before| + 1 && p.after[|p.before|].kind == FlattenOutcomeResolved
            && p.after[|p.before|].payload.Some?
    ensures var r := p.after[|p.before|].payload.value;
            && r.targets == Committed(p.before)
            && TicketSet(r.stillOpen) !! TicketSet(r.closed)
            && TicketSet(r.stillOpen) + TicketSet(r.closed) == TicketSet(r.targets)
            && (forall t :: t in r.stillOpen <==> t in r.targets && t in p.final.tickets)
            && (r.flattened <==> r.stillOpen == []) && (p.attempted ==> r.flattened)
  {
    assert p.after[|p.before|] == Resolved(Committed(p.before), p.final.tickets);
  }

  /** A failed attempt leaves the log as it was, for the next pass to retry. */
  lemma ResidualLeavesTheLogUnchanged(p: Pass, adapter: bool)
    requires GoodPass(p, adapter) && LastKind(p.before, FlattenSubmissionStarted) && p.attempted
    requires exists t :: t in Committed(p.before) && t in p.final.tickets
    ensures p.after == p.before
  {
    var t :| t in Committed(p.before) && t in p.final.tickets;
    assert t in StillOpen(Committed(p.before), p.final.tickets);
  }

  /** Recovery never asks whether its last position read was complete.  Against the tickets really open
      at that read, the record calls an open ticket closed exactly when the read failed while a target
      was open; expected exposure then drops exactly the targets the read did not show. */
  lemma RecordIsFalseExactlyWhenTheReadFailed(p: Pass, adapter: bool, actual: seq<Ticket>)
    requires GoodPass(p, adapter) && InFlattenLanguage(p.before)
    requires LastKind(p.before, FlattenSubmissionStarted) && p.after != p.before
    requires p.final.tickets == if p.final.complete then actual else []
    ensures var closed := ClosedBy(Occurrence(p.id, p.after));
            && (forall t :: t in closed <==> t in Committed(p.before) && t !in p.final.tickets)
            && ((exists t :: t in closed && t in actual)
                <==> !p.final.complete && (exists t :: t in Committed(p.before) && t in actual))
    ensures FlattenReasonsOf(Occurrence(p.id, p.before)) == [FlattenUnconfirmed(p.id, Committed(p.before))]
    ensures FlattenReasonsOf(Occurrence(p.id, p.after)) == []
  {
    var plan, e := Committed(p.before), Resolved(Committed(p.before), p.final.tickets);
    assert p.after == p.before + [e];
    assert p.after[..|p.before|] == p.before && p.after[|p.before|] == e;
    assert LastPayload(p.after, FlattenOutcomeResolved) == e.payload;
    assert LastPayload(p.after, FlattenSubmissionStarted) == LastPayload(p.before, FlattenSubmissionStarted)
           == p.before[|p.before| - 1].payload;
    NoOutcomeYet(p.before);
    assert forall t :: t in ClosedBy(Occurrence(p.id, p.after)) <==> t in plan && t !in p.final.tickets;
  }

  lemma {:induction false} NoOutcomeYet(h: seq<FlattenEvent>)
    requires InFlattenLanguage(h) && LastKind(h, FlattenSubmissionStarted)
    ensures LastPayload(h, FlattenOutcomeResolved).None?
  {
    assert KindsOf(h)[|h| - 1] == FlattenSubmissionStarted;
    assert |h| == 3 && KindsOf(h) == RESOLVED_WORD[..3];
    assert h[0].kind == KindsOf(h)[0] && h[1].kind == KindsOf(h)[1];
    assert LastPayload(h[..1], FlattenOutcomeResolved).None? by { assert h[..1][..0] == []; }
    assert LastPayload(h[..2], FlattenOutcomeResolved).None? by { assert h[..2][..1] == h[..1]; }
  }

  /** A pass that commits `plan` from a complete read, and a later one that cannot read positions while all
      of it is still open. */
  function CommitThenBlind(plan: seq<Ticket>): seq<Cycle> {
    var day := Day(0, 0, true, true, true, false);
    [Cycle(None, day, Answers(plan, true, true, false, plan, true, 5)),
     Cycle(Some({OvernightExposure}), day, Answers(plan, false, true, false, plan, false, 1))]
  }

  lemma {:induction false} NothingIsOpenInAnEmptyBook(plan: seq<Ticket>)
    ensures StillOpen(plan, []) == []
  {
    if plan == [] {
    } else {
      NothingIsOpenInAnEmptyBook(plan[1..]);
    }
  }

  lemma FirstCommits(plan: seq<Ticket>)
    requires plan != []
    ensures var c := CommitThenBlind(plan)[0];
            var (t, p) := PassOf(NO_TABLES, false, c.day, c.answers);
            t.log == map[0 := CommitPath(true, plan)] && t.claims == map[0 := 0] && p.after == CommitPath(true, plan)
  {
    var path := CommitPath(true, plan);
    assert path[..3] == path;
  }

  lemma ThenRecordsAll(plan: seq<Ticket>, t: Tables)
    requires plan != [] && t.log == map[0 := CommitPath(true, plan)]
    ensures var c := CommitThenBlind(plan)[1];
            var p := PassOf(t.(halt := c.halt), false, c.day, c.answers).1;
            && p.alive && p.closes == [] && p.before == CommitPath(true, plan) && p.final == Observation([], false)
            && p.after == CommitPath(true, plan) + [Resolved(plan, [])]
  {
    NothingIsOpenInAnEmptyBook(plan);
    assert LastKind(CommitPath(true, plan), FlattenSubmissionStarted) && Committed(CommitPath(true, plan)) == plan;
  }

  /** The driver does this: whatever it committed, a blind next pass records all of it as flat without
      closing anything, and expected exposure then drops tickets that are still open. */
  lemma FailedReadLooksFlat(plan: seq<Ticket>, t: Ticket)
    requires t in plan
    ensures var (tables, ps) := DriverRun(CommitThenBlind(plan), false);
            && |ps| == 2 && ps[1].alive && ps[1].closes == [] && !ps[1].final.complete
            && 0 in tables.log && t in ClosedBy(Occurrence(0, tables.log[0]))
            && t in CommitThenBlind(plan)[1].answers.first
  {
    hide PassOf, InFlattenLanguage, GoodPass, Resolved, CommitPath;
    var cs := CommitThenBlind(plan);
    FirstCommits(plan);
    CommitmentIsRegular(plan);
    var (t1, p1) := PassOf(NO_TABLES, false, cs[0].day, cs[0].answers);
    ThenRecordsAll(plan, t1);
    assert cs[..1] == [cs[0]] && cs[..1][..0] == [];
    assert DriverRun(cs[..1], false) == (t1, [p1]) by { assert [] + [p1] == [p1]; }
    var (t2, p2) := PassOf(t1.(halt := cs[1].halt), false, cs[1].day, cs[1].answers);
    assert DriverRun(cs, false) == (t2, [p1] + [p2]);
    PassOfIsGood(t1.(halt := cs[1].halt), false, cs[1].day, cs[1].answers);
    RecordIsFalseExactlyWhenTheReadFailed(p2, false, plan);
  }

  lemma CommitmentIsRegular(plan: seq<Ticket>)
    requires plan != []
    ensures InFlattenLanguage(CommitPath(true, plan)) && LastKind(CommitPath(true, plan), FlattenSubmissionStarted)
    ensures Committed(CommitPath(true, plan)) == plan && RegularTables(map[0 := CommitPath(true, plan)], map[0 := 0])
  {
    CommitPathIsRegular(true, plan, 3);
    assert CommitPath(true, plan)[..3] == CommitPath(true, plan);
  }

  /** A halt the flatten driver causes itself can never close the gate of the same pass, although it is
      tripped before the gate is asked. */
  lemma OwnTripNeverClosesTheGate(rest: bool, complete: bool, halt: Option<set<HaltReason>>, reason: HaltReason)
    requires reason in TOLERATED
    ensures GateOpens(rest, complete, Tripped(halt, reason)) <==> GateOpens(rest, complete, halt)
  {
  }
}
