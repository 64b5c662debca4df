/**
 The replay orchestrator's counting (`application/orchestration.py`) against the recount from the sealed
 capsules and signals (`application/reconstruction.py`), and the two rolling one-hour windows it feeds to
 Risk and to the Supervisor.  Strategy, Risk, Supervisor and broker are oracles: a tick carries what they
 say.
 */
module Replay {
  import opened ExecutionEvents

  type SnapshotKey = nat
  type Instant = int
  const WINDOW: Instant := 3600

  datatype RiskVerdict = PassRisk | BlockRisk | HaltRisk
  datatype SupervisorVerdict = Approve | Veto | HaltAll

  datatype RiskDecision = RiskDecision(verdict: RiskVerdict, reasons: seq<string>)
  datatype SupervisorDecision = SupervisorDecision(verdict: SupervisorVerdict, reasons: seq<string>)

  /** What the oracles say in one window; `accepted` is the broker's pre-flight answer. */
  datatype Window =
    | Unavailable
    | NoTrade(reasons: seq<string>)
    | Proposed(reasons: seq<string>, risk: RiskDecision, supervisor: SupervisorDecision, accepted: bool)

  datatype Tick = Tick(snapshot: SnapshotKey, time: Instant, window: Window)

  datatype DecisionCapsule = DecisionCapsule(
    correlation: SnapshotKey, hasIntent: bool, risk: Option<RiskDecision>, supervisor: Option<SupervisorDecision>,
      executed: bool)

  datatype Signal = Signal(snapshot: SnapshotKey, reasons: seq<string>)

  /** The counters of a run; `decisions` are those of the windows that proposed. */
  datatype Decisions = Decisions(
    intents: nat,
    riskPassed: nat, riskBlocked: nat, riskHalted: nat,
    approved: nat, vetoed: nat, supervisorHalted: nat,
    checkRejected: nat, filled: nat,
    riskReasons: multiset<string>, supervisorReasons: multiset<string>)

  datatype Tally = Tally(windows: nat, unavailable: nat, noTrade: nat, noTradeReasons: multiset<string>,
                         decisions: Decisions)

  const ZERO: Tally := Tally(0, 0, 0, multiset{}, Decisions(0, 0, 0, 0, 0, 0, 0, 0, 0, multiset{}, multiset{}))

  predicate Reviewed(w: Window) {
    w.Proposed? && w.risk.verdict == PassRisk
  }

  predicate Ordered(w: Window) {
    Reviewed(w) && w.supervisor.verdict == Approve
  }

  predicate Fills(w: Window) {
    Ordered(w) && w.accepted
  }

  // ---------------------------------------------------------------------------------------------
  // What a run counts and what it leaves
  // ---------------------------------------------------------------------------------------------

  function CountRisk(t: Decisions, d: RiskDecision): Decisions {
    var t1 := t.(riskReasons := t.riskReasons + multiset(d.reasons));
    match d.verdict
    case PassRisk => t1.(riskPassed := t.riskPassed + 1)
    case BlockRisk => t1.(riskBlocked := t.riskBlocked + 1)
    case HaltRisk => t1.(riskHalted := t.riskHalted + 1)
  }

  function CountSupervisor(t: Decisions, d: SupervisorDecision): Decisions {
    var t1 := t.(supervisorReasons := t.supervisorReasons + multiset(d.reasons));
    match d.verdict
    case Approve => t1.(approved := t.approved + 1)
    case Veto => t1.(vetoed := t.vetoed + 1)
    case HaltAll => t1.(supervisorHalted := t.supervisorHalted + 1)
  }

  function CountOrder(t: Decisions, executed: bool): Decisions {
    if executed then t.(filled := t.filled + 1) else t.(checkRejected := t.checkRejected + 1)
  }

  function CountDecision(t: Decisions, risk: RiskDecision, supervisor: SupervisorDecision, accepted: bool): Decisions {
    var t1 := CountRisk(t.(intents := t.intents + 1), risk);
    if risk.verdict != PassRisk then t1
    else
      var t2 := CountSupervisor(t1, supervisor);
      if supervisor.verdict != Approve then t2 else CountOrder(t2, accepted)
  }

  function CountWindow(t0: Tally, w: Window): Tally {
    var t := t0.(windows := t0.windows + 1);
    match w
    case Unavailable => t.(unavailable := t.unavailable + 1)
    case NoTrade(reasons) => t.(noTrade := t.noTrade + 1, noTradeReasons := t.noTradeReasons + multiset(reasons))
    case Proposed(_, risk, supervisor, accepted) =>
      t.(decisions := CountDecision(t.decisions, risk, supervisor, accepted))
  }

  function LiveTally(ticks: seq<Tick>): Tally {
    if ticks == [] then ZERO else CountWindow(LiveTally(ticks[..|ticks| - 1]), ticks[|ticks| - 1].window)
  }

  function CapsuleOf(tick: Tick): Option<DecisionCapsule> {
    match tick.window
    case Unavailable => None
    case NoTrade(_) => Some(DecisionCapsule(tick.snapshot, false, None, None, false))
    case Proposed(_, risk, supervisor, _) =>
      Some(DecisionCapsule(tick.snapshot, true, Some(risk), if Reviewed(tick.window) then Some(supervisor)
                           else None, Fills(tick.window)))
  }

  function CapsulesOf(ticks: seq<Tick>): seq<DecisionCapsule> {
    if ticks == [] then []
    else
      var c := CapsuleOf(ticks[|ticks| - 1]);
      CapsulesOf(ticks[..|ticks| - 1]) + (if c.Some? then [c.value] else [])
  }

  function SignalsOf(ticks: seq<Tick>): seq<Signal> {
    if ticks == [] then []
    else
      var t := ticks[|ticks| - 1];
      SignalsOf(ticks[..|ticks| - 1]) + (if t.window.Unavailable? then [] else [Signal(t.snapshot, t.window.reasons)])
  }

  // ---------------------------------------------------------------------------------------------
  // The recount
  // ---------------------------------------------------------------------------------------------

  function CountDecided(d: Decisions, c: DecisionCapsule): Decisions {
    var d0 := d.(intents := d.intents + 1);
    var d1 := if c.risk.Some? then CountRisk(d0, c.risk.value) else d0;
    if c.supervisor.None? then d1
    else
      var d2 := CountSupervisor(d1, c.supervisor.value);
      if c.supervisor.value.verdict == Approve then CountOrder(d2, c.executed) else d2
  }

  function CountCapsule(t: Tally, c: DecisionCapsule): Tally {
    if !c.hasIntent then t.(noTrade := t.noTrade + 1) else t.(decisions := CountDecided(t.decisions, c))
  }

  function CountCapsules(cs: seq<DecisionCapsule>): Tally {
    if cs == [] then ZERO else CountCapsule(CountCapsules(cs[..|cs| - 1]), cs[|cs| - 1])
  }

  function IntentFree(cs: seq<DecisionCapsule>): (r: set<SnapshotKey>)
    ensures forall k :: k in r <==> exists i :: 0 <= i < |cs| && !cs[i].hasIntent && cs[i].correlation == k
  {
    set i | 0 <= i < |cs| && !cs[i].hasIntent :: cs[i].correlation
  }

  /** The reasons of every signal whose snapshot is among `free`. */
  function ReasonsAmong(ss: seq<Signal>, free: set<SnapshotKey>): multiset<string> {
    if ss == [] then multiset{}
    else ReasonsAmong(ss[..|ss| - 1], free)
         + (if ss[|ss| - 1].snapshot in free then multiset(ss[|ss| - 1].reasons) else multiset{})
  }

  function Recount(cs: seq<DecisionCapsule>, ss: seq<Signal>): Tally {
    CountCapsules(cs).(noTradeReasons := ReasonsAmong(ss, IntentFree(cs)))
  }

  /** `RunTally.count` for each reason in turn. */
  method CountReasons(bucket: multiset<string>, reasons: seq<string>) returns (r: multiset<string>)
    ensures r == bucket + multiset(reasons)
  {
    r := bucket;
    for i := 0 to |reasons|
      invariant r == bucket + multiset(reasons[..i])
    {
      assert reasons[..i + 1] == reasons[..i] + [reasons[i]];
      r := r[reasons[i] := r[reasons[i]] + 1];
    }
    assert reasons[..|reasons|] == reasons;
  }

  method TallyFromCapsules(cs: seq<DecisionCapsule>, ss: seq<Signal>) returns (t: Tally)
    ensures t == Recount(cs, ss)
  {
    t := ZERO;
    var free: set<SnapshotKey> := {};
    for i := 0 to |cs|
      invariant t == CountCapsules(cs[..i]) && free == IntentFree(cs[..i]) && t.noTradeReasons == multiset{}
    {
      assert cs[..i + 1][..i] == cs[..i];
      t := CountCapsule(t, cs[i]);
      if !cs[i].hasIntent {
        free := free + {cs[i].correlation};
      }
      assert free == IntentFree(cs[..i + 1]) by { OneMoreCapsule(cs, i); }
    }
    assert cs[..|cs|] == cs;
    for i := 0 to |ss|
      invariant t == CountCapsules(cs).(noTradeReasons := ReasonsAmong(ss[..i], free))
    {
      assert ss[..i + 1][..i] == ss[..i];
      if ss[i].snapshot in free {
        var r := CountReasons(t.noTradeReasons, ss[i].reasons);
        t := t.(noTradeReasons := r);
      }
    }
    assert ss[..|ss|] == ss;
  }

  lemma OneMoreCapsule(cs: seq<DecisionCapsule>, i: nat)
    requires i < |cs|
    ensures IntentFree(cs[..i + 1]) == IntentFree(cs[..i]) + (if cs[i].hasIntent then {} else {cs[i].correlation})
  {
    var a, b := cs[..i], cs[..i + 1];
    forall k ensures k in IntentFree(b) <==> k in IntentFree(a) || (!cs[i].hasIntent && k == cs[i].correlation) {
      if k in IntentFree(a) {
        var j :| 0 <= j < |a| && !a[j].hasIntent && a[j].correlation == k;
        assert b[j] == a[j];
      }
      if !cs[i].hasIntent && k == cs[i].correlation {
        assert b[i].correlation == k;
      }
      if k in IntentFree(b) {
        var j :| 0 <= j < |b| && !b[j].hasIntent && b[j].correlation == k;
        assert j < i ==> a[j] == b[j];
      }
    }
  }

  // ---------------------------------------------------------------------------------------------
  // The rolling windows
  // ---------------------------------------------------------------------------------------------

  /** Drop entries from the front while they are more than an hour old. */
  function Trimmed(entries: seq<Instant>, now: Instant): seq<Instant> {
    if entries != [] && now - entries[0] > WINDOW then Trimmed(entries[1..], now) else entries
  }

  /** Every entry at most an hour old, wherever it stands. */
  function Recent(entries: seq<Instant>, now: Instant): seq<Instant> {
    if entries == [] then []
    else Recent(entries[..|entries| - 1], now)
         + (if now - entries[|entries| - 1] > WINDOW then [] else [entries[|entries| - 1]])
  }

  /** The deque the run keeps of its intents: appended and trimmed at every intent. */
  function IntentDeque(ticks: seq<Tick>): seq<Instant> {
    if ticks == [] then []
    else
      var front, t := IntentDeque(ticks[..|ticks| - 1]), ticks[|ticks| - 1];
      if t.window.Proposed? then Trimmed(front + [t.time], t.time) else front
  }

  /** The deque of its orders: trimmed only when another one fills. */
  function OrderDeque(ticks: seq<Tick>): seq<Instant> {
    if ticks == [] then []
    else
      var front, t := OrderDeque(ticks[..|ticks| - 1]), ticks[|ticks| - 1];
      if Fills(t.window) then Trimmed(front + [t.time], t.time) else front
  }

  function IntentTimes(ticks: seq<Tick>): seq<Instant> {
    if ticks == [] then []
    else IntentTimes(ticks[..|ticks| - 1])
         + (if ticks[|ticks| - 1].window.Proposed? then [ticks[|ticks| - 1].time] else [])
  }

  function FillTimes(ticks: seq<Tick>): seq<Instant> {
    if ticks == [] then []
    else FillTimes(ticks[..|ticks| - 1]) + (if Fills(ticks[|ticks| - 1].window) then [ticks[|ticks| - 1].time] else [])
  }

  ghost predicate Nondecreasing(ticks: seq<Tick>) {
    forall i, j :: 0 <= i < j < |ticks| ==> ticks[i].time <= ticks[j].time
  }

  ghost predicate Sorted(s: seq<Instant>) {
    forall i, j :: 0 <= i < j < |s| ==> s[i] <= s[j]
  }

  /** One more window. */
  lemma OneMoreWindow(ticks: seq<Tick>, tick: Tick)
    ensures var all := ticks + [tick];
            && LiveTally(all) == CountWindow(LiveTally(ticks), tick.window)
            && CapsulesOf(all) == CapsulesOf(ticks) + (if CapsuleOf(tick).Some? then [CapsuleOf(tick).value] else [])
            && SignalsOf(all) == SignalsOf(ticks)
               + (if tick.window.Unavailable? then [] else [Signal(tick.snapshot, tick.window.reasons)])
            && IntentDeque(all) == (if tick.window.Proposed? then Trimmed(IntentDeque(ticks) + [tick.time], tick.time)
                                    else IntentDeque(ticks))
            && OrderDeque(all) == (if Fills(tick.window) then Trimmed(OrderDeque(ticks) + [tick.time], tick.time)
                                   else OrderDeque(ticks))
  {
    assert (ticks + [tick])[..|ticks|] == ticks;
  }

  class ReplayOrchestrator {
    var tally: Tally
    var capsules: seq<DecisionCapsule>
    var signals: seq<Signal>
    var recentIntents: seq<Instant>
    var orderTimes: seq<Instant>
    ghost var ticks: seq<Tick>

    constructor ()
      ensures Valid() && ticks == []
    {
      tally, capsules, signals, recentIntents, orderTimes, ticks := ZERO, [], [], [], [], [];
    }

    ghost predicate Valid()
      reads this
    {
      && tally == LiveTally(ticks) && capsules == CapsulesOf(ticks) && signals == SignalsOf(ticks)
      && recentIntents == IntentDeque(ticks) && orderTimes == OrderDeque(ticks)
    }

    method TrimWindow(entries: seq<Instant>, now: Instant) returns (r: seq<Instant>)
      ensures r == Trimmed(entries, now)
    {
      r := entries;
      while r != [] && now - r[0] > WINDOW
        invariant Trimmed(r, now) == Trimmed(entries, now)
        decreases |r|
      {
        r := r[1..];
      }
    }

    /** One decision window; `toRisk` and `toSupervisor` are the counts the two oracles are given. */
    method ProcessWindow(tick: Tick) returns (toRisk: Option<nat>, toSupervisor: Option<nat>)
      requires Valid()
      modifies this
      ensures Valid() && ticks == old(ticks) + [tick]
      ensures toRisk == if tick.window.Proposed? then Some(|OrderDeque(old(ticks))|) else None
      ensures toSupervisor == if Reviewed(tick.window) then Some(|IntentDeque(ticks)|) else None
    {
      toRisk, toSupervisor := None, None;
      OneMoreWindow(ticks, tick);
      ticks := ticks + [tick];
      tally := tally.(windows := tally.windows + 1);
      if tick.window.Unavailable? {
        tally := tally.(unavailable := tally.unavailable + 1);
        return;
      }
      signals := signals + [Signal(tick.snapshot, tick.window.reasons)];
      if tick.window.NoTrade? {
        var bucket := CountReasons(tally.noTradeReasons, tick.window.reasons);
        tally := tally.(noTrade := tally.noTrade + 1, noTradeReasons := bucket);
        capsules := capsules + [DecisionCapsule(tick.snapshot, false, None, None, false)];
        return;
      }
      recentIntents := TrimWindow(recentIntents + [tick.time], tick.time);
      toRisk := Some(|orderTimes|);
      toSupervisor := Decide(tick);
    }

    /** Risk, then the Supervisor, then the order: each only if the one before let it through. */
    method Decide(tick: Tick) returns (toSupervisor: Option<nat>)
      requires tick.window.Proposed?
      modifies this`tally, this`orderTimes, this`capsules
      ensures toSupervisor == if Reviewed(tick.window) then Some(|recentIntents|) else None
      ensures tally == CountWindow(old(tally), tick.window).(windows := old(tally).windows)
      ensures orderTimes == if Fills(tick.window) then Trimmed(old(orderTimes) + [tick.time], tick.time)
              else old(orderTimes)
      ensures capsules == old(capsules) + [CapsuleOf(tick).value]
    {
      toSupervisor := None;
      var risk, supervisor := tick.window.risk, tick.window.supervisor;
      var d := tally.decisions.(intents := tally.decisions.intents + 1);
      d := RecordRisk(d, risk);
      if risk.verdict != PassRisk {
        tally := tally.(decisions := d);
        capsules := capsules + [DecisionCapsule(tick.snapshot, true, Some(risk), None, false)];
        return;
      }
      toSupervisor := Some(|recentIntents|);
      d := RecordSupervisor(d, supervisor);
      var executed := false;
      if supervisor.verdict == Approve {
        executed, d := Execute(d, tick.time, tick.window.accepted);
      }
      tally := tally.(decisions := d);
      capsules := capsules + [DecisionCapsule(tick.snapshot, true, Some(risk), Some(supervisor), executed)];
    }

    method RecordRisk(t: Decisions, d: RiskDecision) returns (r: Decisions)
      ensures r == CountRisk(t, d)
    {
      var bucket := CountReasons(t.riskReasons, d.reasons);
      r := t.(riskReasons := bucket);
      match d.verdict {
        case PassRisk => r := r.(riskPassed := r.riskPassed + 1);
        case BlockRisk => r := r.(riskBlocked := r.riskBlocked + 1);
        case HaltRisk => r := r.(riskHalted := r.riskHalted + 1);
      }
    }

    method RecordSupervisor(t: Decisions, d: SupervisorDecision) returns (r: Decisions)
      ensures r == CountSupervisor(t, d)
    {
      var bucket := CountReasons(t.supervisorReasons, d.reasons);
      r := t.(supervisorReasons := bucket);
      match d.verdict {
        case Approve => r := r.(approved := r.approved + 1);
        case Veto => r := r.(vetoed := r.vetoed + 1);
        case HaltAll => r := r.(supervisorHalted := r.supervisorHalted + 1);
      }
    }

    /** Pre-flight, then submit; only a fill enters and trims the order window. */
    method Execute(t: Decisions, now: Instant, accepted: bool) returns (executed: bool, r: Decisions)
      modifies this`orderTimes
      ensures executed == accepted && r == CountOrder(t, accepted)
      ensures orderTimes == if accepted then Trimmed(old(orderTimes) + [now], now) else old(orderTimes)
    {
      if !accepted {
        return false, t.(checkRejected := t.checkRejected + 1);
      }
      orderTimes := TrimWindow(orderTimes + [now], now);
      return true, t.(filled := t.filled + 1);
    }

    method Run(input: seq<Tick>)
      requires Valid() && ticks == []
      modifies this
      ensures Valid() && ticks == input
    {
      for i := 0 to |input|
        invariant Valid() && ticks == input[..i]
      {
        assert input[..i + 1] == input[..i] + [input[i]];
        var _, _ := ProcessWindow(input[i]);
      }
      assert input[..|input|] == input;
    }
  }

  // ---------------------------------------------------------------------------------------------
  // The recount equals the live tally
  // ---------------------------------------------------------------------------------------------

  /** The journal accounts for neither; everything else must agree. */
  function WithoutWarmUp(t: Tally): Tally {
    t.(windows := 0, unavailable := 0)
  }

  /** What the capsules can account for: everything but warm-up windows and no-trade reasons. */
  function FromCapsules(t: Tally): Tally {
    WithoutWarmUp(t).(noTradeReasons := multiset{})
  }

  /** One window, counted live or recounted from its capsule. */
  lemma CapsuleRecountsItsWindow(t: Tally, tick: Tick)
    ensures FromCapsules(CountWindow(t, tick.window))
            == if CapsuleOf(tick).Some? then CountCapsule(FromCapsules(t), CapsuleOf(tick).value) else FromCapsules(t)
  {
  }

  lemma OneMoreCount(cs: seq<DecisionCapsule>, c: DecisionCapsule)
    ensures CountCapsules(cs + [c]) == CountCapsule(CountCapsules(cs), c)
  {
    assert (cs + [c])[..|cs|] == cs;
  }

  lemma OneMoreSignal(ss: seq<Signal>, x: Signal, free: set<SnapshotKey>)
    ensures ReasonsAmong(ss + [x], free) == ReasonsAmong(ss, free)
            + (if x.snapshot in free then multiset(x.reasons) else multiset{})
  {
    assert (ss + [x])[..|ss|] == ss;
  }

  lemma {:induction false} CountersAgree(ticks: seq<Tick>)
    ensures CountCapsules(CapsulesOf(ticks)) == FromCapsules(LiveTally(ticks))
  {
    if ticks == [] {
    } else {
      var n := |ticks| - 1;
      CountersAgree(ticks[..n]);
      CapsuleRecountsItsWindow(LiveTally(ticks[..n]), ticks[n]);
      if CapsuleOf(ticks[n]).Some? {
        OneMoreCount(CapsulesOf(ticks[..n]), CapsuleOf(ticks[n]).value);
      } else {
        assert CapsulesOf(ticks) == CapsulesOf(ticks[..n]);
      }
    }
  }

  /** A window without an intent, identified by this snapshot. */
  ghost predicate HasNoTrade(ticks: seq<Tick>, k: SnapshotKey) {
    exists i :: 0 <= i < |ticks| && ticks[i].window.NoTrade? && ticks[i].snapshot == k
  }

  lemma {:induction false} IntentFreeMeansNoTrade(ticks: seq<Tick>, k: SnapshotKey)
    ensures k in IntentFree(CapsulesOf(ticks)) <==> HasNoTrade(ticks, k)
  {
    if ticks == [] {
    } else {
      var n := |ticks| - 1;
      var front, t := ticks[..n], ticks[n];
      IntentFreeMeansNoTrade(front, k);
      assert HasNoTrade(ticks, k) <==> HasNoTrade(front, k) || (t.window.NoTrade? && t.snapshot == k) by {
        if HasNoTrade(front, k) {
          var i :| 0 <= i < |front| && front[i].window.NoTrade? && front[i].snapshot == k;
          assert ticks[i] == front[i];
        }
        if HasNoTrade(ticks, k) {
          var i :| 0 <= i < |ticks| && ticks[i].window.NoTrade? && ticks[i].snapshot == k;
          assert i < n ==> front[i] == ticks[i];
        }
      }
      if !t.window.Unavailable? {
        var cs := CapsulesOf(ticks);
        OneMoreCapsule(cs, |cs| - 1);
        assert cs[..|cs| - 1] == CapsulesOf(front) && cs[..|cs|] == cs;
      }
    }
  }

  /** The reasons of the windows that did propose, where their snapshot is among `free`. */
  function Misattributed(ticks: seq<Tick>, free: set<SnapshotKey>): multiset<string> {
    if ticks == [] then multiset{}
    else
      var t := ticks[|ticks| - 1];
      Misattributed(ticks[..|ticks| - 1], free)
        + (if t.window.Proposed? && t.snapshot in free then multiset(t.window.reasons) else multiset{})
  }

  lemma OnlyNoTradeAddsReasons(t: Tally, w: Window)
    ensures CountWindow(t, w).noTradeReasons == t.noTradeReasons
            + (if w.NoTrade? then multiset(w.reasons) else multiset{})
  {
  }

  lemma NextReasons(ticks: seq<Tick>, free: set<SnapshotKey>)
    requires ticks != []
    ensures var front, t := ticks[..|ticks| - 1], ticks[|ticks| - 1];
            && LiveTally(ticks).noTradeReasons
               == LiveTally(front).noTradeReasons
                 + (if t.window.NoTrade? then multiset(t.window.reasons) else multiset{})
            && Misattributed(ticks, free)
               == Misattributed(front, free)
                 + (if t.window.Proposed? && t.snapshot in free then multiset(t.window.reasons) else multiset{})
            && ReasonsAmong(SignalsOf(ticks), free)
               == ReasonsAmong(SignalsOf(front), free)
                  + (if !t.window.Unavailable? && t.snapshot in free then multiset(t.window.reasons) else multiset{})
  {
    var front, t := ticks[..|ticks| - 1], ticks[|ticks| - 1];
    OnlyNoTradeAddsReasons(LiveTally(front), t.window);
    if t.window.Unavailable? {
      assert SignalsOf(ticks) == SignalsOf(front);
    } else {
      OneMoreSignal(SignalsOf(front), Signal(t.snapshot, t.window.reasons), free);
    }
  }

  lemma {:induction false} RecountedReasons(ticks: seq<Tick>, free: set<SnapshotKey>)
    requires forall i :: 0 <= i < |ticks| && ticks[i].window.NoTrade? ==> ticks[i].snapshot in free
    ensures ReasonsAmong(SignalsOf(ticks), free) == LiveTally(ticks).noTradeReasons + Misattributed(ticks, free)
  {
    if ticks == [] {
    } else {
      hide LiveTally, ReasonsAmong, Misattributed, SignalsOf;
      var front, t := ticks[..|ticks| - 1], ticks[|ticks| - 1];
      assert forall i :: 0 <= i < |front| ==> front[i] == ticks[i];
      RecountedReasons(front, free);
      NextReasons(ticks, free);
    }
  }

  lemma {:induction false} NothingMisattributed(ticks: seq<Tick>, free: set<SnapshotKey>)
    ensures Misattributed(ticks, free) == multiset{} <==>
            forall i :: 0 <= i < |ticks| && ticks[i].window.Proposed? && ticks[i].snapshot in free
              ==> ticks[i].window.reasons == []
  {
    if ticks == [] {
    } else {
      var n := |ticks| - 1;
      var front, t := ticks[..n], ticks[n];
      NothingMisattributed(front, free);
      assert forall i :: 0 <= i < n ==> front[i] == ticks[i];
      if t.window.Proposed? && t.snapshot in free {
        assert multiset(t.window.reasons) == multiset{} <==> t.window.reasons == [] by {
          if t.window.reasons != [] { assert t.window.reasons[0] in multiset(t.window.reasons); }
        }
      }
    }
  }

  /** A window that proposed, with reasons, under the snapshot of a window that did not. */
  ghost predicate SharesASnapshot(ticks: seq<Tick>) {
    exists i, j :: 0 <= i < |ticks| && 0 <= j < |ticks| && ticks[i].window.Proposed? && ticks[i].window.reasons != []
                   && ticks[j].window.NoTrade? && ticks[j].snapshot == ticks[i].snapshot
  }

  /** For every run, the recount from capsules and signals equals the live tally on every decision counter
      and on the risk and supervisor reasons; on the no-trade reasons exactly when no snapshot is shared
      between a window that proposed with reasons and one that did not propose. */
  lemma RecountEqualsLiveTally(ticks: seq<Tick>)
    ensures var live, re := LiveTally(ticks), Recount(CapsulesOf(ticks), SignalsOf(ticks));
            && re.(noTradeReasons := live.noTradeReasons) == WithoutWarmUp(live)
            && (re == WithoutWarmUp(live) <==> !SharesASnapshot(ticks))
  {
    var cs := CapsulesOf(ticks);
    var free := IntentFree(cs);
    var live := LiveTally(ticks);
    CountersAgree(ticks);
    forall k ensures k in free <==> HasNoTrade(ticks, k) {
      IntentFreeMeansNoTrade(ticks, k);
    }
    RecountedReasons(ticks, free);
    NothingMisattributed(ticks, free);
    var extra := Misattributed(ticks, free);
    assert live.noTradeReasons + extra == live.noTradeReasons <==> extra == multiset{} by {
      if extra != multiset{} {
        var r :| r in extra;
        assert (live.noTradeReasons + extra)[r] != live.noTradeReasons[r];
      }
    }
  }

  /** A snapshot shared by a window that did not propose and one that did, blocked by Risk, say: the recount
      takes the reasons of the proposal for no-trade reasons. */
  lemma SharedSnapshotMisattributesReasons(k: SnapshotKey, quiet: seq<string>, loud: seq<string>, later: Window)
    requires later.Proposed? && later.reasons == loud != []
    ensures var ticks := [Tick(k, 0, NoTrade(quiet)), Tick(k, 60, later)];
            var live, re := LiveTally(ticks), Recount(CapsulesOf(ticks), SignalsOf(ticks));
            && SharesASnapshot(ticks) && re.noTradeReasons == live.noTradeReasons + multiset(loud)
            && re != WithoutWarmUp(live)
  {
    var ticks := [Tick(k, 0, NoTrade(quiet)), Tick(k, 60, later)];
    var free := IntentFree(CapsulesOf(ticks));
    assert SharesASnapshot(ticks) by { assert ticks[1].snapshot == ticks[0].snapshot; }
    RecountEqualsLiveTally(ticks);
    assert HasNoTrade(ticks, k) by { assert ticks[0].window.NoTrade?; }
    IntentFreeMeansNoTrade(ticks, k);
    RecountedReasons(ticks, free);
    assert ticks[..1] == [ticks[0]] && ticks[..1][..0] == [];
    assert Misattributed(ticks[..1], free) == multiset{};
    assert Misattributed(ticks, free) == multiset{} + multiset(loud) by {
      assert ticks[..|ticks| - 1] == ticks[..1] && k in free;
    }
    assert Recount(CapsulesOf(ticks), SignalsOf(ticks)).noTradeReasons == ReasonsAmong(SignalsOf(ticks), free);
  }

  /** In particular whenever snapshot ids are distinct. */
  lemma DistinctSnapshotsRecountExactly(ticks: seq<Tick>)
    requires forall i, j :: 0 <= i < j < |ticks| ==> ticks[i].snapshot != ticks[j].snapshot
    ensures Recount(CapsulesOf(ticks), SignalsOf(ticks)) == WithoutWarmUp(LiveTally(ticks))
  {
    RecountEqualsLiveTally(ticks);
    forall i, j | 0 <= i < |ticks| && 0 <= j < |ticks| && ticks[i].window.Proposed? && ticks[j].window.NoTrade?
      ensures ticks[j].snapshot != ticks[i].snapshot
    {
    }
  }

  ghost predicate Handed(d: Decisions) {
    && d.intents == d.riskPassed + d.riskBlocked + d.riskHalted
    && d.riskPassed == d.approved + d.vetoed + d.supervisorHalted
    && d.approved == d.checkRejected + d.filled
  }

  ghost predicate Conserved(t: Tally) {
    t.windows == t.unavailable + t.noTrade + t.decisions.intents && Handed(t.decisions)
  }

  lemma DecisionConserves(d: Decisions, risk: RiskDecision, supervisor: SupervisorDecision, accepted: bool)
    requires Handed(d)
    ensures var d' := CountDecision(d, risk, supervisor, accepted);
            && Handed(d') && d'.intents == d.intents + 1
            && d'.filled == d.filled
               + (if risk.verdict == PassRisk && supervisor.verdict == Approve && accepted then 1 else 0)
  {
  }

  /** The counters agree with the run and with the capsules, signals and times it leaves. */
  ghost predicate Accounts(ticks: seq<Tick>, t: Tally) {
    && Conserved(t) && t.windows == |ticks|
    && t.decisions.intents == |IntentTimes(ticks)| && t.decisions.filled == |FillTimes(ticks)|
    && |CapsulesOf(ticks)| == t.noTrade + t.decisions.intents && |SignalsOf(ticks)| == t.noTrade + t.decisions.intents
  }

  /** Every window is counted once, every stage hands on exactly what it passed, and the counters agree
      with the capsules, the signals and the times of intents and fills. */
  lemma {:induction false} TalliesConserve(ticks: seq<Tick>)
    ensures Accounts(ticks, LiveTally(ticks))
  {
    if ticks == [] {
      NothingYet(ticks);
    } else {
      hide Accounts, CountWindow;
      TalliesConserve(ticks[..|ticks| - 1]);
      NextAccounts(ticks, LiveTally(ticks[..|ticks| - 1]));
    }
  }

  lemma NoWindowsNoTimes(ticks: seq<Tick>)
    requires ticks == []
    ensures IntentTimes(ticks) == FillTimes(ticks) == []
  {
    hide Fills;
  }

  lemma NoWindowsNoRecords(ticks: seq<Tick>)
    requires ticks == []
    ensures CapsulesOf(ticks) == [] && SignalsOf(ticks) == []
  {
    hide CapsuleOf;
  }

  lemma ZeroIsHandedOn()
    ensures Handed(ZERO.decisions)
  {
  }

  lemma ZeroIsConserved()
    ensures Conserved(ZERO)
  {
    hide Handed;
    ZeroIsHandedOn();
  }

  lemma NothingYet(ticks: seq<Tick>)
    requires ticks == []
    ensures Accounts(ticks, LiveTally(ticks))
  {
    hide Conserved, IntentTimes, FillTimes, CapsulesOf, SignalsOf;
    NoWindowsNoTimes(ticks);
    NoWindowsNoRecords(ticks);
    ZeroIsConserved();
  }

  lemma NextAccounts(ticks: seq<Tick>, t: Tally)
    requires ticks != [] && Accounts(ticks[..|ticks| - 1], t)
    ensures Accounts(ticks, CountWindow(t, ticks[|ticks| - 1].window))
  {
    hide CountWindow, Conserved, IntentTimes, FillTimes, CapsulesOf, SignalsOf;
    WindowConserves(t, ticks[|ticks| - 1].window);
    OneMoreEach(ticks);
  }

  /** What the last window adds to each of the sequences a run leaves. */
  lemma OneMoreEach(ticks: seq<Tick>)
    requires ticks != []
    ensures var front, w := ticks[..|ticks| - 1], ticks[|ticks| - 1].window;
            && |IntentTimes(ticks)| == |IntentTimes(front)| + (if w.Proposed? then 1 else 0)
            && |FillTimes(ticks)| == |FillTimes(front)| + (if Fills(w) then 1 else 0)
            && |CapsulesOf(ticks)| == |CapsulesOf(front)| + (if w.Unavailable? then 0 else 1)
            && |SignalsOf(ticks)| == |SignalsOf(front)| + (if w.Unavailable? then 0 else 1)
  {
  }

  lemma WindowConserves(t: Tally, w: Window)
    requires Conserved(t)
    ensures var t' := CountWindow(t, w);
            && Conserved(t') && t'.windows == t.windows + 1
            && t'.noTrade + t'.decisions.intents == t.noTrade + t.decisions.intents + (if w.Unavailable? then 0 else 1)
            && t'.decisions.intents == t.decisions.intents + (if w.Proposed? then 1 else 0)
            && t'.decisions.filled == t.decisions.filled + (if Fills(w) then 1 else 0)
  {
    if w.Proposed? {
      DecisionConserves(t.decisions, w.risk, w.supervisor, w.accepted);
    }
  }

  /** What can become of a window, stage by stage. */
  datatype Fate =
    | WasUnavailable | ProposedNothing
    | RiskSaid(risk: RiskVerdict) | SupervisorSaid(supervisor: SupervisorVerdict) | BrokerSaid(accepted: bool)

  predicate Met(w: Window, f: Fate) {
    match f
    case WasUnavailable => w.Unavailable?
    case ProposedNothing => w.NoTrade?
    case RiskSaid(v) => w.Proposed? && w.risk.verdict == v
    case SupervisorSaid(v) => Reviewed(w) && w.supervisor.verdict == v
    case BrokerSaid(a) => Ordered(w) && w.accepted == a
  }

  /** How many windows met a fate. */
  function Count(ticks: seq<Tick>, f: Fate): nat {
    if ticks == [] then 0 else Count(ticks[..|ticks| - 1], f) + (if Met(ticks[|ticks| - 1].window, f) then 1 else 0)
  }

  datatype Author = TheStrategy | TheRiskEngine | TheSupervisor

  /** The reasons an author is on record with for a window; the strategy's only where nothing was proposed. */
  function ReasonsBy(w: Window, who: Author): seq<string> {
    match who
    case TheStrategy => if w.NoTrade? then w.reasons else []
    case TheRiskEngine => if w.Proposed? then w.risk.reasons else []
    case TheSupervisor => if Reviewed(w) then w.supervisor.reasons else []
  }

  function AllReasons(ticks: seq<Tick>, who: Author): multiset<string> {
    if ticks == [] then multiset{}
      else AllReasons(ticks[..|ticks| - 1], who) + multiset(ReasonsBy(ticks[|ticks| - 1].window, who))
  }

  lemma OneWindowCounted(t: Tally, w: Window)
    ensures var t' := CountWindow(t, w);
            && t'.unavailable == t.unavailable + (if Met(w, WasUnavailable) then 1 else 0)
            && t'.noTrade == t.noTrade + (if Met(w, ProposedNothing) then 1 else 0)
            && t'.noTradeReasons == t.noTradeReasons + multiset(ReasonsBy(w, TheStrategy))
  {
  }

  lemma OneRiskCounted(t: Tally, w: Window)
    ensures var d, d' := t.decisions, CountWindow(t, w).decisions;
            && d'.riskPassed == d.riskPassed + (if Met(w, RiskSaid(PassRisk)) then 1 else 0)
            && d'.riskBlocked == d.riskBlocked + (if Met(w, RiskSaid(BlockRisk)) then 1 else 0)
            && d'.riskHalted == d.riskHalted + (if Met(w, RiskSaid(HaltRisk)) then 1 else 0)
            && d'.riskReasons == d.riskReasons + multiset(ReasonsBy(w, TheRiskEngine))
  {
  }

  lemma OneSupervisorCounted(t: Tally, w: Window)
    ensures var d, d' := t.decisions, CountWindow(t, w).decisions;
            && d'.approved == d.approved + (if Met(w, SupervisorSaid(Approve)) then 1 else 0)
            && d'.vetoed == d.vetoed + (if Met(w, SupervisorSaid(Veto)) then 1 else 0)
            && d'.supervisorHalted == d.supervisorHalted + (if Met(w, SupervisorSaid(HaltAll)) then 1 else 0)
            && d'.supervisorReasons == d.supervisorReasons + multiset(ReasonsBy(w, TheSupervisor))
  {
  }

  lemma OneOrderCounted(t: Tally, w: Window)
    ensures var d, d' := t.decisions, CountWindow(t, w).decisions;
            && d'.checkRejected == d.checkRejected + (if Met(w, BrokerSaid(false)) then 1 else 0)
            && d'.filled == d.filled + (if Met(w, BrokerSaid(true)) then 1 else 0)
  {
  }

  ghost predicate WindowCounters(ticks: seq<Tick>) {
    var t := LiveTally(ticks);
    && t.unavailable == Count(ticks, WasUnavailable) && t.noTrade == Count(ticks, ProposedNothing)
    && t.noTradeReasons == AllReasons(ticks, TheStrategy)
  }

  ghost predicate RiskCounters(ticks: seq<Tick>) {
    var d := LiveTally(ticks).decisions;
    && d.riskPassed == Count(ticks, RiskSaid(PassRisk))
    && d.riskBlocked == Count(ticks, RiskSaid(BlockRisk))
    && d.riskHalted == Count(ticks, RiskSaid(HaltRisk))
    && d.riskReasons == AllReasons(ticks, TheRiskEngine)
  }

  ghost predicate SupervisorCounters(ticks: seq<Tick>) {
    var d := LiveTally(ticks).decisions;
    && d.approved == Count(ticks, SupervisorSaid(Approve))
    && d.vetoed == Count(ticks, SupervisorSaid(Veto))
    && d.supervisorHalted == Count(ticks, SupervisorSaid(HaltAll))
    && d.checkRejected == Count(ticks, BrokerSaid(false)) && d.filled == Count(ticks, BrokerSaid(true))
    && d.supervisorReasons == AllReasons(ticks, TheSupervisor)
  }

  /** Every counter is the number of windows that met the fate in its name, and every reason map holds
      exactly the reasons its author gave. */
  lemma {:induction false} CountersMeanWhatTheySay(ticks: seq<Tick>)
    ensures WindowCounters(ticks) && RiskCounters(ticks) && SupervisorCounters(ticks)
  {
    if ticks == [] {
    } else {
      hide WindowCounters, RiskCounters, SupervisorCounters;
      CountersMeanWhatTheySay(ticks[..|ticks| - 1]);
      NextWindowCounters(ticks);
      NextRiskCounters(ticks);
      NextSupervisorCounters(ticks);
    }
  }

  lemma NextWindowCounters(ticks: seq<Tick>)
    requires ticks != [] && WindowCounters(ticks[..|ticks| - 1])
    ensures WindowCounters(ticks)
  {
    hide CountWindow, Met, ReasonsBy;
    OneWindowCounted(LiveTally(ticks[..|ticks| - 1]), ticks[|ticks| - 1].window);
  }

  lemma NextRiskCounters(ticks: seq<Tick>)
    requires ticks != [] && RiskCounters(ticks[..|ticks| - 1])
    ensures RiskCounters(ticks)
  {
    hide CountWindow, Met, ReasonsBy;
    OneRiskCounted(LiveTally(ticks[..|ticks| - 1]), ticks[|ticks| - 1].window);
  }

  lemma NextSupervisorCounters(ticks: seq<Tick>)
    requires ticks != [] && SupervisorCounters(ticks[..|ticks| - 1])
    ensures SupervisorCounters(ticks)
  {
    hide CountWindow, Met, ReasonsBy;
    OneSupervisorCounted(LiveTally(ticks[..|ticks| - 1]), ticks[|ticks| - 1].window);
    OneOrderCounted(LiveTally(ticks[..|ticks| - 1]), ticks[|ticks| - 1].window);
  }

  // ---------------------------------------------------------------------------------------------
  // The rolling windows
  // ---------------------------------------------------------------------------------------------

  lemma {:induction false} RecentOfConcat(a: seq<Instant>, b: seq<Instant>, now: Instant)
    ensures Recent(a + b, now) == Recent(a, now) + Recent(b, now)
  {
    if b == [] {
      assert a + b == a;
    } else {
      var n := |b| - 1;
      RecentOfConcat(a, b[..n], now);
      assert (a + b)[..|a + b| - 1] == a + b[..n];
    }
  }

  /** On sorted entries, dropping from the front drops every aged entry and no other. */
  lemma {:induction false} TrimmedIsRecent(s: seq<Instant>, now: Instant)
    requires Sorted(s)
    ensures Trimmed(s, now) == Recent(s, now)
  {
    if s == [] {
    } else {
      if now - s[0] > WINDOW {
        assert Sorted(s[1..]) by { assert forall i :: 0 <= i < |s| - 1 ==> s[1..][i] == s[i + 1]; }
        TrimmedIsRecent(s[1..], now);
        DropFirst(s, now);
      } else {
        AllRecent(s, now);
      }
    }
  }

  lemma DropFirst(s: seq<Instant>, now: Instant)
    requires s != [] && now - s[0] > WINDOW
    ensures Recent(s, now) == Recent(s[1..], now)
  {
    RecentOfConcat([s[0]], s[1..], now);
    assert [s[0]] + s[1..] == s && [s[0]][..0] == [];
  }

  lemma {:induction false} AllRecent(s: seq<Instant>, now: Instant)
    requires forall i :: 0 <= i < |s| ==> now - s[i] <= WINDOW
    ensures Recent(s, now) == s
  {
    if s == [] {
    } else {
      AllRecent(s[..|s| - 1], now);
      assert s[..|s| - 1] + [s[|s| - 1]] == s;
    }
  }

  /** What was dropped stays dropped: trimming what an earlier trim kept. */
  lemma {:induction false} RecentOfRecent(s: seq<Instant>, t: Instant, now: Instant)
    requires t <= now
    ensures Recent(Recent(s, t), now) == Recent(s, now)
  {
    if s == [] {
    } else {
      var n := |s| - 1;
      RecentOfRecent(s[..n], t, now);
      var last := if t - s[n] > WINDOW then [] else [s[n]];
      RecentOfConcat(Recent(s[..n], t), last, now);
      if last != [] { assert last[..0] == []; }
    }
  }

  lemma SortedAppend(s: seq<Instant>, now: Instant)
    requires Sorted(s) && forall x :: x in s ==> x <= now
    ensures Sorted(s + [now]) && forall x :: x in s + [now] ==> x <= now
  {
    assert forall i :: 0 <= i < |s| ==> s[i] in s;
  }

  lemma FrontIsNondecreasing(ticks: seq<Tick>)
    requires Nondecreasing(ticks) && ticks != []
    ensures var n := |ticks| - 1;
            Nondecreasing(ticks[..n]) && (n > 0 ==> ticks[..n][n - 1].time <= ticks[n].time)
  {
    var n := |ticks| - 1;
    assert forall i :: 0 <= i < n ==> ticks[..n][i] == ticks[i];
  }

  lemma {:induction false} TimesAreSorted(ticks: seq<Tick>)
    requires Nondecreasing(ticks)
    ensures Sorted(IntentTimes(ticks)) && Sorted(FillTimes(ticks))
    ensures ticks != [] ==>
              forall x :: x in IntentTimes(ticks) || x in FillTimes(ticks) ==> x <= ticks[|ticks| - 1].time
  {
    if ticks == [] {
    } else {
      var n := |ticks| - 1;
      var front, now := ticks[..n], ticks[n].time;
      FrontIsNondecreasing(ticks);
      TimesAreSorted(front);
      assert forall x :: x in IntentTimes(front) || x in FillTimes(front) ==> x <= now;
      SortedAppend(IntentTimes(front), now);
      SortedAppend(FillTimes(front), now);
    }
  }

  lemma {:induction false} RecentKeepsOrder(s: seq<Instant>, now: Instant)
    requires Sorted(s)
    ensures Sorted(Recent(s, now)) && forall x :: x in Recent(s, now) ==> x in s
  {
    if s == [] {
    } else {
      var n := |s| - 1;
      assert forall i :: 0 <= i < n ==> s[..n][i] == s[i];
      assert forall x :: x in s[..n] ==> x <= s[n];
      RecentKeepsOrder(s[..n], now);
      SortedAppend(Recent(s[..n], now), s[n]);
    }
  }

  /** The times that were recent when the last of them was recorded. */
  function AsOfLast(times: seq<Instant>): seq<Instant> {
    if times == [] then [] else Recent(times, times[|times| - 1])
  }

  lemma AppendAndTrim(s: seq<Instant>, now: Instant)
    requires Sorted(s) && forall x :: x in s ==> x <= now
    ensures Trimmed(AsOfLast(s) + [now], now) == AsOfLast(s + [now])
  {
    if s != [] {
      var t := s[|s| - 1];
      assert t in s;
      RecentKeepsOrder(s, t);
      RecentOfRecent(s, t, now);
    }
    SortedAppend(AsOfLast(s), now);
    TrimmedIsRecent(AsOfLast(s) + [now], now);
    RecentOfConcat(AsOfLast(s), [now], now);
    RecentOfConcat(s, [now], now);
  }

  /** Each deque holds the times that were recent at its own last append. */
  lemma {:induction false} DequesAreAsOfLast(ticks: seq<Tick>)
    requires Nondecreasing(ticks)
    ensures IntentDeque(ticks) == AsOfLast(IntentTimes(ticks)) && OrderDeque(ticks) == AsOfLast(FillTimes(ticks))
  {
    if ticks == [] {
    } else {
      var n := |ticks| - 1;
      var front, t := ticks[..n], ticks[n];
      FrontIsNondecreasing(ticks);
      DequesAreAsOfLast(front);
      TimesAreSorted(front);
      if t.window.Proposed? {
        AppendAndTrim(IntentTimes(front), t.time);
      } else {
        assert IntentTimes(ticks) == IntentTimes(front);
      }
      if Fills(t.window) {
        AppendAndTrim(FillTimes(front), t.time);
      } else {
        assert FillTimes(ticks) == FillTimes(front);
      }
    }
  }

  /** The count given to the Supervisor is the number of intents in the last hour, this one included. */
  lemma SupervisorCountIsExact(ticks: seq<Tick>)
    requires Nondecreasing(ticks) && ticks != [] && ticks[|ticks| - 1].window.Proposed?
    ensures |IntentDeque(ticks)| == |Recent(IntentTimes(ticks), ticks[|ticks| - 1].time)|
  {
    DequesAreAsOfLast(ticks);
  }

  lemma {:induction false} RecentIsNoLonger(s: seq<Instant>, now: Instant)
    ensures |Recent(s, now)| <= |s|
    ensures |Recent(s, now)| == |s| <==> forall i :: 0 <= i < |s| ==> now - s[i] <= WINDOW
  {
    if s == [] {
    } else {
      RecentIsNoLonger(s[..|s| - 1], now);
      assert forall i :: 0 <= i < |s| - 1 ==> s[..|s| - 1][i] == s[i];
    }
  }

  /** The count given to Risk is never below the number of orders in the last hour, and equals it exactly
      when the oldest order still kept is at most an hour old. */
  lemma RiskCountNeverBelow(before: seq<Tick>, tick: Tick)
    requires Nondecreasing(before + [tick])
    ensures |OrderDeque(before)| >= |Recent(FillTimes(before), tick.time)|
    ensures |OrderDeque(before)| == |Recent(FillTimes(before), tick.time)|
            <==> (OrderDeque(before) != [] ==> tick.time - OrderDeque(before)[0] <= WINDOW)
  {
    var times, now := FillTimes(before), tick.time;
    FrontIsNondecreasing(before + [tick]);
    assert (before + [tick])[..|before|] == before;
    DequesAreAsOfLast(before);
    TimesAreSorted(before);
    if times != [] {
      var t := times[|times| - 1];
      assert t in times;
      RecentOfRecent(times, t, now);
      RecentKeepsOrder(times, t);
      RecentIsNoLonger(OrderDeque(before), now);
    }
  }
}
