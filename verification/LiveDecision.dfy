/**
 The restart-safe decision window of `application/live_decision.py` and `application/decision_window.py`:
 a worker that evaluates each closed bar at most once, across crashes at any point and restarts under any
 configuration.  Market data, strategy, Risk, Supervisor and the risk-ledger lock are oracles.
 */
module LiveDecision {
  import opened ExecutionEvents

  type Config = nat      // symbol, strategy and config version: the key of the durable record
  type Instant = int
  type DecisionHash = nat

  /** The durable record. */
  datatype WindowState = WindowState(lastOpen: Instant, hashes: set<DecisionHash>)

  /** Three answers, not two. */
  datatype Record = Absent | Present(state: WindowState) | Unreadable

  datatype Recovery = Recovery(lastOpen: Option<Instant>, hashes: set<DecisionHash>, mustHalt: bool)

  function RecoverDecisionWindow(r: Record): Recovery {
    match r
    case Unreadable => Recovery(None, {}, true)
    case Absent => Recovery(None, {}, false)
    case Present(s) => Recovery(Some(s.lastOpen), s.hashes, false)
  }

  /** What the strategy, Risk and the Supervisor say of a window; Risk, where it refuses, and the Supervisor may
      halt the system. */
  datatype Verdict =
    | NoFeatures | NoIntent
    | Refused(hash: DecisionHash, halts: bool) | Supervised(hash: DecisionHash, halts: bool)

  predicate Halts(v: Verdict) {
    (v.Refused? || v.Supervised?) && v.halts
  }

  /** Where a cycle ends early: the process dies at that point, or something raises there (a save, the
      evaluation and what follows it, the seal) and the process lives on. */
  datatype Cut =
    | Complete
    | DiesBeforeSave | SaveRaises | DiesAfterSave
    | EvaluationRaises | DiesBeforeSecondSave | SecondSaveRaises
    | DiesBeforeSeal | SealRaises

  datatype Input =
    | Restart(config: Config)
    | Decide(readable: bool, newest: Option<Instant>, ledgerOk: bool, breach: bool, verdict: Verdict, cut: Cut)

  datatype Capsule = Capsule(config: Config, open: Instant, hash: Option<DecisionHash>, supervised: bool)

  datatype Evaluation = Evaluation(config: Config, open: Instant)

  /** The first four fields are the process, the rest is durable. */
  datatype State = State(
    config: Config,
    recovered: bool,
    lastOpen: Option<Instant>,
    seen: set<DecisionHash>,
    store: map<Config, WindowState>,
    halted: bool,
    evaluated: seq<Evaluation>,
    sealed: seq<Capsule>)

  function Fresh(s: State, config: Config): State {
    s.(config := config, recovered := false, lastOpen := None, seen := {})
  }

  const START: State := State(0, false, None, {}, map[], false, [], [])

  function Loaded(s: State, readable: bool): Record {
    if !readable then Unreadable else if s.config in s.store then Present(s.store[s.config]) else Absent
  }

  /** Once per process, before anything else. */
  function Recovered(s: State, readable: bool): State {
    if s.recovered then s
    else
      var r := RecoverDecisionWindow(Loaded(s, readable));
      s.(recovered := true, lastOpen := r.lastOpen, seen := r.hashes, halted := s.halted || r.mustHalt)
  }

  function Saved(s: State): State
    requires s.lastOpen.Some?
  {
    s.(store := s.store[s.config := WindowState(s.lastOpen.value, s.seen)])
  }

  function Sealed(s: State, hash: Option<DecisionHash>, supervised: bool): State
    requires s.lastOpen.Some?
  {
    s.(sealed := s.sealed + [Capsule(s.config, s.lastOpen.value, hash, supervised)])
  }

  /** The last step, unless it is cut off. */
  function SealedOrCut(s: State, hash: Option<DecisionHash>, supervised: bool, cut: Cut): State
    requires s.lastOpen.Some?
  {
    if cut == DiesBeforeSeal then Fresh(s, s.config)
    else if cut == SealRaises then s
    else Sealed(s, hash, supervised)
  }

  /** From a claimed and saved window to its capsule. */
  function Evaluated(s: State, v: Verdict, cut: Cut): State
    requires s.lastOpen.Some?
  {
    var s0 := s.(evaluated := s.evaluated + [Evaluation(s.config, s.lastOpen.value)]);
    if cut == EvaluationRaises then s0
    else
      var s1 := s0.(halted := s.halted || Halts(v));
      match v
      case NoFeatures => s1
      case NoIntent => SealedOrCut(s1, None, false, cut)
      case Refused(h, _) => SealedOrCut(s1, Some(h), false, cut)
      case Supervised(h, _) =>
        var s2 := s1.(seen := s1.seen + {h});
        if cut == DiesBeforeSecondSave then Fresh(s1, s.config)
        else if cut == SecondSaveRaises then s2
        else SealedOrCut(Saved(s2), Some(h), true, cut)
  }

  function Decided(s: State, i: Input): State
    requires i.Decide?
  {
    var s0 := Recovered(s, i.readable);
    if i.newest.None? || (s0.lastOpen.Some? && i.newest.value <= s0.lastOpen.value) then s0
    else if !i.ledgerOk then s0.(halted := true)
    else
      var s1 := s0.(halted := s0.halted || i.breach);
      var s2 := s1.(lastOpen := i.newest);
      if i.cut == DiesBeforeSave then Fresh(s1, s.config)
      else if i.cut == SaveRaises then s2
      else if i.cut == DiesAfterSave then Fresh(Saved(s2), s.config)
      else Evaluated(Saved(s2), i.verdict, i.cut)
  }

  function Step(s: State, i: Input): State {
    match i
    case Restart(config) => Fresh(s, config)
    case Decide(_, _, _, _, _, _) => Decided(s, i)
  }

  function Run(inputs: seq<Input>): State {
    if inputs == [] then START else Step(Run(inputs[..|inputs| - 1]), inputs[|inputs| - 1])
  }

  lemma RunStep(inputs: seq<Input>, k: nat)
    requires k < |inputs|
    ensures Run(inputs[..k + 1]) == Step(Run(inputs[..k]), inputs[k])
  {
    hide Step;
    assert inputs[..k + 1][..k] == inputs[..k];
  }

  // ---------------------------------------------------------------------------------------------
  // The worker as an object
  // ---------------------------------------------------------------------------------------------

  class LiveDecisionWorker {
    var config: Config
    var recovered: bool
    var lastOpen: Option<Instant>
    var seen: set<DecisionHash>
    var store: map<Config, WindowState>
    var halted: bool
    var evaluated: seq<Evaluation>
    var sealed: seq<Capsule>

    constructor ()
      ensures Now() == START
    {
      config, recovered, lastOpen, seen := 0, false, None, {};
      store, halted, evaluated, sealed := map[], false, [], [];
    }

    function Now(): State
      reads this
    {
      State(config, recovered, lastOpen, seen, store, halted, evaluated, sealed)
    }

    /** A new process: what was only in memory is gone. */
    method RestartAs(c: Config)
      modifies this
      ensures Now() == Step(old(Now()), Restart(c))
    {
      config, recovered, lastOpen, seen := c, false, None, {};
    }

    method RecoverWindow(readable: bool)
      modifies this
      ensures Now() == if old(recovered) then old(Now()) else Recovered(old(Now()), readable)
    {
      if recovered { return; }
      var r := RecoverDecisionWindow(if !readable then Unreadable else if config in store then Present(store[config])
                                     else Absent);
      lastOpen, seen := r.lastOpen, r.hashes;
      if r.mustHalt {
        halted := true;
      }
      recovered := true;
    }

    /** What a restart under this configuration then recovers is exactly what the process knows; the
        records of other configurations stay. */
    method SaveDecisionWindow()
      requires lastOpen.Some?
      modifies this`store
      ensures Now() == Saved(old(Now()))
      ensures RecoverDecisionWindow(Loaded(Fresh(Now(), config), true)) == Recovery(lastOpen, seen, false)
      ensures forall c :: c in old(store) && c != config ==> c in store && store[c] == old(store)[c]
    {
      store := store[config := WindowState(lastOpen.value, seen)];
    }

    method Seal(hash: Option<DecisionHash>, supervised: bool)
      requires lastOpen.Some?
      modifies this`sealed
      ensures Now() == Sealed(old(Now()), hash, supervised)
    {
      sealed := sealed + [Capsule(config, lastOpen.value, hash, supervised)];
    }

    /** Judge the newest closed bar, if it has not been judged yet. */
    method DecideOnce(i: Input)
      requires i.Decide?
      modifies this
      ensures Now() == Step(old(Now()), i)
    {
      RecoverWindow(i.readable);
      if i.newest.None? || (lastOpen.Some? && i.newest.value <= lastOpen.value) { return; }
      if !i.ledgerOk {
        halted := true;
        return;
      }
      if i.breach {
        halted := true;
      }
      if i.cut == DiesBeforeSave { RestartAs(config); return; }
      lastOpen := i.newest;
      if i.cut == SaveRaises { return; }
      SaveDecisionWindow();
      if i.cut == DiesAfterSave { RestartAs(config); return; }
      EvaluateWindow(i.verdict, i.cut);
    }

    /** The claimed window, from the strategy to the sealed capsule. */
    method EvaluateWindow(v: Verdict, cut: Cut)
      requires lastOpen.Some?
      modifies this
      ensures Now() == Evaluated(old(Now()), v, cut)
    {
      evaluated := evaluated + [Evaluation(config, lastOpen.value)];
      if cut == EvaluationRaises || v.NoFeatures? { return; }
      if Halts(v) {
        halted := true;
      }
      if v.Supervised? {
        if cut == DiesBeforeSecondSave { RestartAs(config); return; }
        seen := seen + {v.hash};
        if cut == SecondSaveRaises { return; }
        SaveDecisionWindow();
      }
      if cut == DiesBeforeSeal { RestartAs(config); return; }
      if cut == SealRaises { return; }
      Seal(if v.NoIntent? then None else Some(v.hash), v.Supervised?);
    }
  }

  // ---------------------------------------------------------------------------------------------
  // What the durable record protects
  // ---------------------------------------------------------------------------------------------

  /** Under one configuration open times strictly increase, so no window is evaluated twice. */
  ghost predicate StrictlyIncreasing(es: seq<Evaluation>) {
    forall i, j :: 0 <= i < j < |es| && es[i].config == es[j].config ==> es[i].open < es[j].open
  }

  /** No evaluation is later than its configuration's durable record. */
  ghost predicate Remembered(es: seq<Evaluation>, store: map<Config, WindowState>) {
    forall i :: 0 <= i < |es| ==> es[i].config in store && es[i].open <= store[es[i].config].lastOpen
  }

  /** Every supervised capsule's hash is in the durable record. */
  ghost predicate HashesDurable(cs: seq<Capsule>, store: map<Config, WindowState>) {
    forall i :: 0 <= i < |cs| && cs[i].supervised ==>
                  cs[i].config in store && cs[i].hash.Some? && cs[i].hash.value in store[cs[i].config].hashes
  }

  /** The cycle gets as far as writing its window into the durable record. */
  predicate Claims(s: State, i: Input) {
    && i.Decide? && i.newest.Some? && i.ledgerOk && i.cut != DiesBeforeSave && i.cut != SaveRaises
    && (Recovered(s, i.readable).lastOpen.Some? ==> Recovered(s, i.readable).lastOpen.value < i.newest.value)
  }

  /** The window it claims is later than the durable record, if there is one. */
  predicate ClaimsLater(s: State, i: Input) {
    Claims(s, i) && s.config in s.store ==> s.store[s.config].lastOpen < i.newest.value
  }

  /** The hash that a cycle adds to the durable record, if it gets as far as the second save. */
  function NewHashes(v: Verdict, cut: Cut): set<DecisionHash> {
    if v.Supervised? && cut !in {EvaluationRaises, DiesBeforeSecondSave, SecondSaveRaises} then {v.hash} else {}
  }

  function SavedHashes(i: Input): set<DecisionHash>
    requires i.Decide?
  {
    if i.cut == DiesAfterSave then {} else NewHashes(i.verdict, i.cut)
  }

  /** It knows, or is about to save, every hash of the durable record it overwrites. */
  predicate KeepsHashes(s: State, i: Input) {
    Claims(s, i) && s.config in s.store ==>
      s.store[s.config].hashes <= Recovered(s, i.readable).seen + SavedHashes(i)
  }

  lemma NotClaimedNotStored(s: State, i: Input)
    requires !Claims(s, i)
    ensures Step(s, i).store == s.store && Step(s, i).evaluated == s.evaluated && Step(s, i).sealed == s.sealed
  {
    hide Evaluated;
  }

  /** The state in which a claimed window is durable and not yet evaluated. */
  function Claimed(s: State, i: Input): State
    requires Claims(s, i)
  {
    var r := Recovered(s, i.readable);
    Saved(r.(lastOpen := i.newest, halted := r.halted || i.breach))
  }

  lemma ClaimedThen(s: State, i: Input)
    requires Claims(s, i)
    ensures Step(s, i) == if i.cut == DiesAfterSave then Fresh(Claimed(s, i), s.config)
                          else Evaluated(Claimed(s, i), i.verdict, i.cut)
  {
    hide Evaluated, Saved, Fresh;
  }

  lemma ClaimedIs(s: State, i: Input)
    requires Claims(s, i)
    ensures var c := Claimed(s, i);
            && c.config == s.config && c.lastOpen == i.newest && c.seen == Recovered(s, i.readable).seen
            && c.store == s.store[s.config := WindowState(i.newest.value, c.seen)]
            && c.evaluated == s.evaluated && c.sealed == s.sealed && c.recovered
            && c.halted == (Recovered(s, i.readable).halted || i.breach)
  {
    hide Evaluated, RecoverDecisionWindow;
  }

  /** No cycle is cut off between a supervisor decision and its capsule. */
  predicate SealsWhatItSaves(i: Input) {
    i.Decide? ==> i.cut !in {SecondSaveRaises, DiesBeforeSeal, SealRaises}
  }

  lemma SealedOrCutSeals(s: State, hash: Option<DecisionHash>, supervised: bool, cut: Cut)
    requires s.lastOpen.Some?
    ensures SealedOrCut(s, hash, supervised, cut).sealed
            == (if cut == DiesBeforeSeal || cut == SealRaises then s.sealed
                else s.sealed + [Capsule(s.config, s.lastOpen.value, hash, supervised)])
  {
  }

  /** What the evaluation of a claimed window leaves: one evaluation, the record with at most one hash more,
      and at most one capsule, which if supervised bears that hash. */
  lemma EvaluatedIs(s: State, v: Verdict, cut: Cut)
    requires s.config in s.store && s.lastOpen == Some(s.store[s.config].lastOpen) && s.store[s.config].hashes == s.seen
    ensures var s' := Evaluated(s, v, cut);
            && s'.config == s.config && s'.halted == (s.halted || (cut != EvaluationRaises && Halts(v)))
            && s'.evaluated == s.evaluated + [Evaluation(s.config, s.lastOpen.value)]
            && s'.store == s.store[s.config := WindowState(s.lastOpen.value, s.seen + NewHashes(v, cut))]
            && (s'.recovered ==> s'.lastOpen == s.lastOpen && s.seen + NewHashes(v, cut) <= s'.seen)
            && (cut != SecondSaveRaises ==> s'.seen <= s.seen + NewHashes(v, cut))
  {
    assert s.store[s.config := WindowState(s.lastOpen.value, s.seen)] == s.store;
    assert s.seen + {} == s.seen;
    if cut == EvaluationRaises || cut == DiesBeforeSecondSave || cut == SecondSaveRaises {
    } else if v.Supervised? {
      EvaluatedSupervised(s, v.hash, v.halts, cut);
      var s2 := Saved(s.(evaluated := s.evaluated + [Evaluation(s.config, s.lastOpen.value)],
                         halted := s.halted || v.halts, seen := s.seen + {v.hash}));
      assert s2.seen == s.seen + NewHashes(v, cut) by { assert NewHashes(v, cut) == {v.hash}; }
      hide Evaluated, Saved, NewHashes;
    }
  }

  lemma EvaluatedSupervised(s: State, h: DecisionHash, halts: bool, cut: Cut)
    requires s.lastOpen.Some? && cut != EvaluationRaises && cut != DiesBeforeSecondSave && cut != SecondSaveRaises
    ensures Evaluated(s, Supervised(h, halts), cut)
            == SealedOrCut(Saved(s.(evaluated := s.evaluated + [Evaluation(s.config, s.lastOpen.value)],
                                    halted := s.halted || halts, seen := s.seen + {h})),
                           Some(h), true, cut)
  {
  }

  /** The cycle is cut off after its claim and before its capsule. */
  predicate CutOff(v: Verdict, cut: Cut) {
    || cut in {DiesAfterSave, EvaluationRaises, DiesBeforeSeal, SealRaises}
    || (v.Supervised? && cut in {DiesBeforeSecondSave, SecondSaveRaises})
  }

  /** The capsule of a window that got as far as a decision, or none. */
  function CapsuleFor(config: Config, open: Instant, v: Verdict): seq<Capsule> {
    match v
    case NoFeatures => []
    case NoIntent => [Capsule(config, open, None, false)]
    case Refused(h, _) => [Capsule(config, open, Some(h), false)]
    case Supervised(h, _) => [Capsule(config, open, Some(h), true)]
  }

  lemma EvaluatedSeals(s: State, v: Verdict, cut: Cut)
    requires s.lastOpen.Some? && cut != DiesAfterSave
    ensures Evaluated(s, v, cut).sealed
            == s.sealed + (if CutOff(v, cut) then [] else CapsuleFor(s.config, s.lastOpen.value, v))
  {
    var s1 := s.(evaluated := s.evaluated + [Evaluation(s.config, s.lastOpen.value)], halted := s.halted || Halts(v));
    match v
    case Supervised(h, halts) =>
      if cut == EvaluationRaises || cut == DiesBeforeSecondSave || cut == SecondSaveRaises {
      } else {
        EvaluatedSupervised(s, h, halts, cut);
        SealedOrCutSeals(Saved(s1.(seen := s1.seen + {h})), Some(h), true, cut);
      }
    case NoIntent =>
      SealedOrCutSeals(s1, None, false, cut);
    case Refused(h, _) =>
      SealedOrCutSeals(s1, Some(h), false, cut);
    case NoFeatures =>
  }

  /** What a cycle that claims leaves: its window durable, at most one evaluation of it, the other records as
      they were, and every hash the process knew. */
  lemma ClaimedStep(s: State, i: Input)
    requires Claims(s, i)
    ensures var s', seen := Step(s, i), Recovered(s, i.readable).seen;
            && s'.config == s.config
            && s'.store == s.store[s.config := WindowState(i.newest.value, seen + SavedHashes(i))]
            && s'.evaluated == (if i.cut == DiesAfterSave then s.evaluated
                                else s.evaluated + [Evaluation(s.config, i.newest.value)])
            && (s'.recovered ==> s'.lastOpen == i.newest && seen + SavedHashes(i) <= s'.seen)
            && (i.cut != SecondSaveRaises ==> s'.seen <= seen + SavedHashes(i))
  {
    assert i.Decide?;
    hide Step, Evaluated, Claimed, Claims, Recovered;
    ClaimedThen(s, i);
    ClaimedIs(s, i);
    var c := Claimed(s, i);
    if i.cut == DiesAfterSave {
      assert c.seen + {} == c.seen;
    } else {
      EvaluatedIs(c, i.verdict, i.cut);
    }
  }

  /** And exactly the capsule of its verdict, unless it is cut off. */
  lemma ClaimedSeals(s: State, i: Input)
    requires Claims(s, i)
    ensures Step(s, i).sealed
            == s.sealed + (if CutOff(i.verdict, i.cut) then [] else CapsuleFor(s.config, i.newest.value, i.verdict))
    ensures i.verdict.Supervised? && !CutOff(i.verdict, i.cut) ==> SavedHashes(i) == {i.verdict.hash}
    ensures SavedHashes(i) != {} && SealsWhatItSaves(i) ==> i.verdict.Supervised? && !CutOff(i.verdict, i.cut)
  {
    assert i.Decide?;
    hide Step, Evaluated, Claimed, Claims, Recovered;
    ClaimedThen(s, i);
    ClaimedIs(s, i);
    if i.cut != DiesAfterSave {
      EvaluatedSeals(Claimed(s, i), i.verdict, i.cut);
    }
  }

  /** Every cycle's capsules, over every verdict and wherever it is cut off: a cycle that claims its window and
      is not cut off adds exactly one capsule, for the window it claimed, unless the strategy had too little to
      go on; it bears the hash of the intent if there was one, and is supervised exactly if the Supervisor
      decided.  Any other cycle adds none. */
  lemma OneCapsuleForEveryDecision(s: State, i: Input)
    ensures var s' := Step(s, i);
            if i.Decide? && Claims(s, i) && !CutOff(i.verdict, i.cut) && !i.verdict.NoFeatures? then
              && |s'.sealed| == |s.sealed| + 1 && s.sealed <= s'.sealed
              && var c := s'.sealed[|s.sealed|];
                 && c.config == s.config && Some(c.open) == i.newest
                 && (c.supervised <==> i.verdict.Supervised?)
                 && (c.hash.None? <==> i.verdict.NoIntent?)
                 && (c.hash.Some? ==> c.hash.value == i.verdict.hash)
            else s'.sealed == s.sealed
  {
    hide Step;
    if Claims(s, i) {
      ClaimedSeals(s, i);
    } else {
      NotClaimedNotStored(s, i);
    }
  }

  /** What halts the system in a cycle: a record that cannot be read, and, over a new bar, a risk ledger that
      failed, a breached loss or session gate, or a verdict that says so.  A failed ledger leaves the bar for
      the next cycle. */
  lemma HaltedExactlyWhen(s: State, i: Input)
    ensures Step(s, i).halted <==>
              || s.halted
              || (&& i.Decide?
                  && (|| (!s.recovered && !i.readable)
                      || (IsNew(s, i) && !i.ledgerOk)
                      || (IsNew(s, i) && i.breach)
                      || (Claims(s, i) && i.cut !in {DiesAfterSave, EvaluationRaises} && Halts(i.verdict))))
    ensures i.Decide? && IsNew(s, i) && !i.ledgerOk ==>
              Step(s, i) == Recovered(s, i.readable).(halted := true)
    ensures i.Decide? && !IsNew(s, i) ==> Step(s, i) == Recovered(s, i.readable)
  {
    hide Evaluated;
    if Claims(s, i) {
      ClaimedIs(s, i);
      ClaimedThen(s, i);
      hide Step, Claimed;
      if i.cut != DiesAfterSave {
        EvaluatedIs(Claimed(s, i), i.verdict, i.cut);
      }
    }
  }

  /** The newest bar is one this process has not judged. */
  predicate IsNew(s: State, i: Input)
    requires i.Decide?
  {
    && i.newest.Some?
    && (Recovered(s, i.readable).lastOpen.Some? ==> Recovered(s, i.readable).lastOpen.value < i.newest.value)
  }

  // ---------------------------------------------------------------------------------------------
  // No window twice
  // ---------------------------------------------------------------------------------------------

  lemma ClaimLaterKeepsOrder(s: State, i: Input)
    requires StrictlyIncreasing(s.evaluated) && Remembered(s.evaluated, s.store) && ClaimsLater(s, i)
    ensures StrictlyIncreasing(Step(s, i).evaluated) && Remembered(Step(s, i).evaluated, Step(s, i).store)
  {
    hide Step;
    if !Claims(s, i) {
      NotClaimedNotStored(s, i);
    } else {
      ClaimedStep(s, i);
      LaterThanAllKeepsOrder(s.evaluated, s.store, Evaluation(s.config, i.newest.value));
    }
  }

  lemma LaterThanAllKeepsOrder(es: seq<Evaluation>, store: map<Config, WindowState>, e: Evaluation)
    requires StrictlyIncreasing(es) && Remembered(es, store)
    requires e.config in store ==> store[e.config].lastOpen < e.open
    ensures StrictlyIncreasing(es + [e])
  {
    forall i | 0 <= i < |es| && es[i].config == e.config ensures es[i].open < e.open {
      assert es[i].open <= store[es[i].config].lastOpen;
    }
  }

  ghost predicate AlwaysClaimsLater(inputs: seq<Input>) {
    forall k :: 0 <= k < |inputs| ==> ClaimsLater(Run(inputs[..k]), inputs[k])
  }

  /** Over any run, with any crash, any failed save and any unreadable record: as long as no cycle claims a
      window at or before the durable record, no window is evaluated twice. */
  lemma {:induction false} NoWindowTwiceIfClaimsAreLater(inputs: seq<Input>)
    requires AlwaysClaimsLater(inputs)
    ensures StrictlyIncreasing(Run(inputs).evaluated) && Remembered(Run(inputs).evaluated, Run(inputs).store)
  {
    if inputs == [] {
    } else {
      var n := |inputs| - 1;
      var front := inputs[..n];
      forall k | 0 <= k < n ensures ClaimsLater(Run(front[..k]), front[k]) {
        assert front[..k] == inputs[..k] && ClaimsLater(Run(inputs[..k]), inputs[k]);
      }
      NoWindowTwiceIfClaimsAreLater(front);
      ClaimLaterKeepsOrder(Run(front), inputs[n]);
    }
  }

  /** Every durable window has been evaluated: no cycle died between claiming and evaluating. */
  ghost predicate EvaluatesWhatItClaims(es: seq<Evaluation>, store: map<Config, WindowState>) {
    forall c :: c in store ==> exists i :: 0 <= i < |es| && es[i] == Evaluation(c, store[c].lastOpen)
  }

  lemma EvaluatedClaims(s: State, i: Input)
    requires EvaluatesWhatItClaims(s.evaluated, s.store) && !(i.Decide? && i.cut == DiesAfterSave)
    ensures EvaluatesWhatItClaims(Step(s, i).evaluated, Step(s, i).store)
  {
    hide Step;
    if !Claims(s, i) {
      NotClaimedNotStored(s, i);
    } else {
      ClaimedStep(s, i);
      var es, es', store' := s.evaluated, Step(s, i).evaluated, Step(s, i).store;
      forall c | c in store' ensures exists k :: 0 <= k < |es'| && es'[k] == Evaluation(c, store'[c].lastOpen) {
        if c == s.config {
          assert es'[|es|] == Evaluation(c, store'[c].lastOpen);
        } else {
          var k :| 0 <= k < |es| && es[k] == Evaluation(c, s.store[c].lastOpen);
          assert es'[k] == es[k];
        }
      }
    }
  }

  lemma {:induction false} ClaimsAreEvaluated(inputs: seq<Input>)
    requires forall i :: i in inputs ==> !(i.Decide? && i.cut == DiesAfterSave)
    ensures EvaluatesWhatItClaims(Run(inputs).evaluated, Run(inputs).store)
  {
    if inputs == [] {
    } else {
      ClaimsAreEvaluated(inputs[..|inputs| - 1]);
      EvaluatedClaims(Run(inputs[..|inputs| - 1]), inputs[|inputs| - 1]);
    }
  }

  /** Evaluations are only ever added. */
  lemma {:induction false} EvaluationsOnlyGrow(inputs: seq<Input>, k: nat)
    requires k <= |inputs|
    ensures Run(inputs[..k]).evaluated <= Run(inputs).evaluated
    decreases |inputs|
  {
    if k == |inputs| {
      assert inputs[..k] == inputs;
    } else {
      var n := |inputs| - 1;
      assert inputs[..n][..k] == inputs[..k];
      EvaluationsOnlyGrow(inputs[..n], k);
      if Claims(Run(inputs[..n]), inputs[n]) {
        ClaimedStep(Run(inputs[..n]), inputs[n]);
      } else {
        NotClaimedNotStored(Run(inputs[..n]), inputs[n]);
      }
    }
  }

  /** In a run in which no cycle dies between claiming and evaluating, open times strictly increase exactly
      when every cycle that claims a window found it later than the durable record. */
  lemma NoWindowTwiceExactlyWhenClaimsAreLater(inputs: seq<Input>)
    requires forall i :: i in inputs ==> !(i.Decide? && i.cut == DiesAfterSave)
    ensures StrictlyIncreasing(Run(inputs).evaluated) <==> AlwaysClaimsLater(inputs)
  {
    if AlwaysClaimsLater(inputs) {
      NoWindowTwiceIfClaimsAreLater(inputs);
    }
    if StrictlyIncreasing(Run(inputs).evaluated) {
      forall k | 0 <= k < |inputs| ensures ClaimsLater(Run(inputs[..k]), inputs[k]) {
        ClaimedLaterInOrder(inputs, k);
      }
    }
  }

  lemma ClaimedLaterInOrder(inputs: seq<Input>, k: nat)
    requires forall i :: i in inputs ==> !(i.Decide? && i.cut == DiesAfterSave)
    requires k < |inputs| && StrictlyIncreasing(Run(inputs).evaluated)
    ensures ClaimsLater(Run(inputs[..k]), inputs[k])
  {
    hide Step, Run, Recovered;
    var s, i := Run(inputs[..k]), inputs[k];
    assert i in inputs;
    if Claims(s, i) && s.config in s.store {
      forall x | x in inputs[..k] ensures !(x.Decide? && x.cut == DiesAfterSave) {
        assert x in inputs;
      }
      ClaimsAreEvaluated(inputs[..k]);
      ClaimedStep(s, i);
      RunStep(inputs, k);
      EvaluationsOnlyGrow(inputs, k + 1);
      var es, all := s.evaluated, Run(inputs).evaluated;
      var j :| 0 <= j < |es| && es[j] == Evaluation(s.config, s.store[s.config].lastOpen);
      assert all[j] == es[j] && all[|es|] == Evaluation(s.config, i.newest.value);
    }
  }

  // ---------------------------------------------------------------------------------------------
  // No hash lost
  // ---------------------------------------------------------------------------------------------

  lemma KeptHashesStayDurable(s: State, i: Input)
    requires HashesDurable(s.sealed, s.store) && KeepsHashes(s, i)
    ensures HashesDurable(Step(s, i).sealed, Step(s, i).store)
  {
    hide Step;
    if !Claims(s, i) {
      NotClaimedNotStored(s, i);
    } else {
      ClaimedStep(s, i);
      ClaimedSeals(s, i);
    }
  }

  ghost predicate AlwaysKeepsHashes(inputs: seq<Input>) {
    forall k :: 0 <= k < |inputs| ==> KeepsHashes(Run(inputs[..k]), inputs[k])
  }

  /** Over any run: as long as no cycle overwrites a hash its process does not know, every supervised
      capsule's hash is durable from the moment it is sealed and for ever. */
  lemma {:induction false} HashesStayDurableIfKept(inputs: seq<Input>)
    requires AlwaysKeepsHashes(inputs)
    ensures HashesDurable(Run(inputs).sealed, Run(inputs).store)
  {
    if inputs == [] {
    } else {
      var n := |inputs| - 1;
      var front := inputs[..n];
      forall k | 0 <= k < n ensures KeepsHashes(Run(front[..k]), front[k]) {
        assert front[..k] == inputs[..k] && KeepsHashes(Run(inputs[..k]), inputs[k]);
      }
      HashesStayDurableIfKept(front);
      KeptHashesStayDurable(Run(front), inputs[n]);
    }
  }

  /** From a process that could not read its record: the cycle takes a hash out of the durable record exactly
      when it claims a window over a record with a hash other than the one it saves itself. */
  lemma BlindClaimLosesHashesExactlyWhen(s: State, i: Input)
    requires i.Decide? && !s.recovered && !i.readable && s.config in s.store
    ensures s.config in Step(s, i).store
    ensures !(s.store[s.config].hashes <= Step(s, i).store[s.config].hashes)
            <==> Claims(s, i) && !(s.store[s.config].hashes <= SavedHashes(i))
  {
    hide Step;
    if !Claims(s, i) {
      NotClaimedNotStored(s, i);
    } else {
      ClaimedStep(s, i);
    }
  }

  /** Every hash that is durable, or known to the process, belongs to a sealed capsule. */
  ghost predicate HashesSealed(s: State) {
    && (forall c, h :: c in s.store && h in s.store[c].hashes ==> HashIsSealed(s.sealed, c, h))
    && (forall h :: h in s.seen ==> HashIsSealed(s.sealed, s.config, h))
  }

  ghost predicate HashIsSealed(cs: seq<Capsule>, c: Config, h: DecisionHash) {
    exists k :: 0 <= k < |cs| && cs[k].supervised && cs[k].config == c && cs[k].hash == Some(h)
  }

  lemma SealedStaySealed(cs: seq<Capsule>, cs': seq<Capsule>, c: Config, h: DecisionHash)
    requires HashIsSealed(cs, c, h) && cs <= cs'
    ensures HashIsSealed(cs', c, h)
  {
    var k :| 0 <= k < |cs| && cs[k].supervised && cs[k].config == c && cs[k].hash == Some(h);
    assert cs'[k] == cs[k];
  }

  lemma RecoveredHashesAreSealed(s: State, readable: bool)
    requires HashesSealed(s)
    ensures HashesSealed(Recovered(s, readable))
  {
  }

  lemma NotClaimedSeen(s: State, i: Input)
    requires !Claims(s, i)
    ensures Step(s, i).seen != {} ==>
              i.Decide? && Step(s, i).config == s.config && Step(s, i).seen == Recovered(s, i.readable).seen
  {
    hide Evaluated;
  }

  lemma SealingKeepsHashesSealed(s: State, i: Input)
    requires HashesSealed(s) && SealsWhatItSaves(i)
    ensures HashesSealed(Step(s, i))
  {
    assert Claims(s, i) ==> i.Decide?;
    hide Step, Recovered, Claims, SavedHashes, HashIsSealed;
    var s' := Step(s, i);
    if i.Decide? {
      RecoveredHashesAreSealed(s, i.readable);
      RecoveredKeeps(s, i.readable);
    }
    if !Claims(s, i) {
      NotClaimedNotStored(s, i);
      NotClaimedSeen(s, i);
    } else {
      ClaimedStep(s, i);
      ClaimedSeals(s, i);
      var seen := Recovered(s, i.readable).seen;
      forall c, h | HashIsSealed(s.sealed, c, h) ensures HashIsSealed(s'.sealed, c, h) {
        SealedStaySealed(s.sealed, s'.sealed, c, h);
      }
      forall h | h in SavedHashes(i) ensures HashIsSealed(s'.sealed, s.config, h) {
        SavedHashIsSealed(s, i, h);
      }
    }
  }

  lemma RecoveredKeeps(s: State, readable: bool)
    ensures var r := Recovered(s, readable);
            r.config == s.config && r.store == s.store && r.sealed == s.sealed && r.evaluated == s.evaluated
  {
  }

  lemma SavedHashIsSealed(s: State, i: Input, h: DecisionHash)
    requires Claims(s, i) && SealsWhatItSaves(i) && h in SavedHashes(i)
    ensures HashIsSealed(Step(s, i).sealed, s.config, h)
  {
    hide Step, Recovered;
    ClaimedSeals(s, i);
    assert Step(s, i).sealed[|s.sealed|] == Capsule(s.config, i.newest.value, Some(h), true);
  }

  /** The step after which the durable record no longer holds every sealed supervisor hash is exactly one that
      claims a window over a hash it does not know. */
  lemma DurabilityEndsExactlyWhenAHashIsDropped(s: State, i: Input)
    requires HashesDurable(s.sealed, s.store) && HashesSealed(s)
    ensures HashesDurable(Step(s, i).sealed, Step(s, i).store) <==> KeepsHashes(s, i)
  {
    hide Step, Claims, Recovered;
    if KeepsHashes(s, i) {
      KeptHashesStayDurable(s, i);
    } else {
      ClaimedStep(s, i);
      ClaimedSeals(s, i);
      var c, s' := s.config, Step(s, i);
      var h :| h in s.store[c].hashes && h !in s'.store[c].hashes;
      assert HashIsSealed(s.sealed, c, h);
      SealedStaySealed(s.sealed, s'.sealed, c, h);
    }
  }

  /** In a run in which no cycle is cut off between its supervisor decision and its capsule, every sealed
      supervisor hash is durable throughout exactly when no cycle claims a window over a hash it does not
      know. */
  lemma HashesDurableThroughoutExactlyWhenKept(inputs: seq<Input>)
    requires forall i :: i in inputs ==> SealsWhatItSaves(i)
    ensures (forall k :: 0 <= k <= |inputs| ==> HashesDurable(Run(inputs[..k]).sealed, Run(inputs[..k]).store))
            <==> AlwaysKeepsHashes(inputs)
  {
    hide Step, HashesDurable, KeepsHashes, HashesSealed;
    if AlwaysKeepsHashes(inputs) {
      forall k | 0 <= k <= |inputs| ensures HashesDurable(Run(inputs[..k]).sealed, Run(inputs[..k]).store) {
        forall j | 0 <= j < k ensures KeepsHashes(Run(inputs[..k][..j]), inputs[..k][j]) {
          assert inputs[..k][..j] == inputs[..j] && KeepsHashes(Run(inputs[..j]), inputs[j]);
        }
        HashesStayDurableIfKept(inputs[..k]);
      }
    }
    if forall k :: 0 <= k <= |inputs| ==> HashesDurable(Run(inputs[..k]).sealed, Run(inputs[..k]).store) {
      forall k | 0 <= k < |inputs| ensures KeepsHashes(Run(inputs[..k]), inputs[k]) {
        RunStep(inputs, k);
        HashesSealedThroughout(inputs, k);
        assert HashesDurable(Run(inputs[..k + 1]).sealed, Run(inputs[..k + 1]).store);
        DurabilityEndsExactlyWhenAHashIsDropped(Run(inputs[..k]), inputs[k]);
      }
    }
  }

  lemma {:induction false} HashesSealedThroughout(inputs: seq<Input>, k: nat)
    requires k <= |inputs| && forall i :: i in inputs ==> SealsWhatItSaves(i)
    ensures HashesSealed(Run(inputs[..k]))
  {
    if k == 0 {
    } else {
      HashesSealedThroughout(inputs, k - 1);
      RunStep(inputs, k - 1);
      SealingKeepsHashesSealed(Run(inputs[..k - 1]), inputs[k - 1]);
    }
  }

  // ---------------------------------------------------------------------------------------------
  // Readable records
  // ---------------------------------------------------------------------------------------------

  /** A recovered process knows at least what is durable. */
  ghost predicate UpToDate(s: State) {
    s.recovered && s.config in s.store ==>
      s.lastOpen.Some? && s.store[s.config].lastOpen <= s.lastOpen.value && s.store[s.config].hashes <= s.seen
  }

  predicate ReadsItsRecord(s: State, i: Input) {
    i.Decide? && !s.recovered ==> i.readable
  }

  lemma ReadingKeepsUpToDate(s: State, i: Input)
    requires UpToDate(s) && ReadsItsRecord(s, i)
    ensures UpToDate(Step(s, i)) && ClaimsLater(s, i) && KeepsHashes(s, i)
  {
    hide Evaluated;
    if Claims(s, i) {
      hide Step;
      ClaimedStep(s, i);
    }
  }

  /** Every process reads its record when it first decides. */
  ghost predicate AllRecordsRead(inputs: seq<Input>) {
    forall k :: 0 <= k < |inputs| ==> ReadsItsRecord(Run(inputs[..k]), inputs[k])
  }

  lemma {:induction false} ReadRecordsKeepUpToDate(inputs: seq<Input>)
    requires AllRecordsRead(inputs)
    ensures UpToDate(Run(inputs)) && AlwaysClaimsLater(inputs) && AlwaysKeepsHashes(inputs)
  {
    hide Step, Claims, Recovered;
    if inputs == [] {
    } else {
      var n := |inputs| - 1;
      var front := inputs[..n];
      forall k | 0 <= k < n ensures ReadsItsRecord(Run(front[..k]), front[k]) {
        assert front[..k] == inputs[..k] && ReadsItsRecord(Run(inputs[..k]), inputs[k]);
      }
      ReadRecordsKeepUpToDate(front);
      ReadingKeepsUpToDate(Run(front), inputs[n]);
      hide UpToDate, ClaimsLater, KeepsHashes, Run;
      forall k | 0 <= k < |inputs|
        ensures ClaimsLater(Run(inputs[..k]), inputs[k]) && KeepsHashes(Run(inputs[..k]), inputs[k]) {
        if k < n {
          assert front[..k] == inputs[..k] && front[k] == inputs[k];
          assert ClaimsLater(Run(front[..k]), front[k]);
          assert KeepsHashes(Run(front[..k]), front[k]);
        }
      }
    }
  }

  /** Across any crashes, exceptions and restarts under any configuration, as long as every record can be
      read: no window is evaluated twice, and every capsule sealed with a supervisor decision has its hash in
      the durable record, from the moment it is sealed and for ever. */
  lemma NoWindowIsEvaluatedTwice(inputs: seq<Input>)
    requires AllRecordsRead(inputs)
    ensures StrictlyIncreasing(Run(inputs).evaluated) && HashesDurable(Run(inputs).sealed, Run(inputs).store)
  {
    ReadRecordsKeepUpToDate(inputs);
    NoWindowTwiceIfClaimsAreLater(inputs);
    HashesStayDurableIfKept(inputs);
  }

  /** An evaluation happens only after its own window is durable, whatever was readable. */
  lemma EvaluationsAreClaimedFirst(s: State, i: Input)
    requires |Step(s, i).evaluated| > |s.evaluated|
    ensures var s' := Step(s, i);
            && |s'.evaluated| == |s.evaluated| + 1
            && var e := s'.evaluated[|s.evaluated|];
               && e.config == s.config && Some(e.open) == i.newest
               && e.config in s'.store && s'.store[e.config].lastOpen == e.open
  {
    hide Step;
    if Claims(s, i) {
      ClaimedStep(s, i);
    } else {
      NotClaimedNotStored(s, i);
    }
  }

  // ---------------------------------------------------------------------------------------------
  // Unreadable records
  // ---------------------------------------------------------------------------------------------

  /** An unreadable record halts the system before the cycle goes any further, but does not stop it: the
      window is claimed and evaluated as if nothing had been recorded. */
  lemma UnreadableRecordHaltsButEvaluates(s: State, i: Input)
    requires i.Decide? && !s.recovered && !i.readable
    ensures Step(s, i).halted
    ensures Claims(s, i) <==> i.newest.Some? && i.ledgerOk && i.cut != DiesBeforeSave && i.cut != SaveRaises
  {
    hide Evaluated;
    if Claims(s, i) {
      hide Step;
      ClaimedThen(s, i);
      ClaimedIs(s, i);
      if i.cut != DiesAfterSave {
        EvaluatedIs(Claimed(s, i), i.verdict, i.cut);
      }
    }
  }

  const SUPERVISED_FIRST: Input := Decide(true, Some(1), true, false, Supervised(5, false), Complete)

  function BlindThen(newest: Instant): seq<Input> {
    [SUPERVISED_FIRST, Restart(0), Decide(false, Some(newest), true, false, NoIntent, Complete)]
  }

  lemma AfterTheFirst()
    ensures var s := Run([SUPERVISED_FIRST]);
            && s.evaluated == [Evaluation(0, 1)] && s.sealed == [Capsule(0, 1, Some(5), true)]
            && s.store == map[0 := WindowState(1, {5})] && s.config == 0
  {
    assert [SUPERVISED_FIRST][..0] == [];
    var s := START.(recovered := true, lastOpen := Some(1));
    assert Run([SUPERVISED_FIRST]) == Decided(START, SUPERVISED_FIRST)
           == Evaluated(Saved(s), Supervised(5, false), Complete);
    EvaluatedSupervised(Saved(s), 5, false, Complete);
    assert {} + {5} == {5};
  }

  lemma BlindRun(newest: Instant)
    ensures Run(BlindThen(newest)) == Step(Fresh(Run([SUPERVISED_FIRST]), 0), BlindThen(newest)[2])
  {
    var all := BlindThen(newest);
    assert all[..2] == [SUPERVISED_FIRST, Restart(0)] && all[..2][..1] == [SUPERVISED_FIRST];
  }

  /** Such runs exist: decide, restart, fail to read the record, and decide the same bar again. */
  lemma UnreadableRecordCanRepeatAWindow()
    ensures var s := Run(BlindThen(1)); s.evaluated == [Evaluation(0, 1), Evaluation(0, 1)] && s.halted
  {
    AfterTheFirst();
    BlindRun(1);
  }

  /** And with a later bar, where no window repeats, the hash of a sealed supervised capsule is lost. */
  lemma UnreadableRecordLosesHashes(newest: Instant)
    requires newest > 1
    ensures var s := Run(BlindThen(newest));
            && StrictlyIncreasing(s.evaluated) && Capsule(0, 1, Some(5), true) in s.sealed
            && 0 in s.store && s.store[0].hashes == {} && !HashesDurable(s.sealed, s.store)
  {
    AfterTheFirst();
    BlindRun(newest);
    var s := Run(BlindThen(newest));
    assert s.sealed[0] == Capsule(0, 1, Some(5), true);
  }
}
