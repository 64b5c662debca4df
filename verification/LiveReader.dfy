/**
 The long-running market-data reader of `application/live_reader.py`: a health machine around one
 gateway object.  The terminal, the clock and the stores are oracles; a poll carries what they answer.
 */
module LiveReader {
  import opened ExecutionEvents

  type Instant = int

  datatype Status = Disconnected | Healthy | Stale | Unhealthy

  /** What a reconnect attempt meets, in the order the source asks: the connection, the account guard, the
      symbol, and then the margin mode (absent when it could not be read). */
  datatype Contact = CallFailed | GuardFailed | SymbolMissing | Connected(margin: Option<int>)

  /** What reading and storing one kind of data meets: `conflict` is the store refusing rows that
      contradict stored ones. */
  datatype Feed = FeedFailed | ClockUnknown | Feed(times: seq<Instant>, conflict: bool)

  datatype Input =
    | Poll(now: Instant, contact: Contact, ticks: Feed, bars: Feed)
    | Acknowledge(identified: bool)

  datatype Kind = TickRows | BarRows

  /** What leaves the reader: an accepted reconnect installs gateway `g`; rows are stored through it; a
      failed read tears it down; the reader freezes; an operator acknowledges. */
  datatype Effect = Accept(g: nat, margin: Option<int>) | Wrote(g: nat, kind: Kind, times: seq<Instant>) | Drop(g: nat)
    | Freeze | Ack

  datatype State = State(
    status: Status,
    heartbeat: Instant,
    gateway: Option<nat>,
    expectedMargin: Option<int>,
    lastTick: Option<Instant>,
    lastBar: Option<Instant>,
    lastReconnect: Option<Instant>,
    reconnects: nat,
    failures: nat)

  const START: State := State(Disconnected, 0, None, None, None, None, None, 0, 0)

  function MaxOf(times: seq<Instant>): (m: Instant)
    requires times != []
    ensures m in times && forall t :: t in times ==> t <= m
  {
    if |times| == 1 then times[0]
    else
      var rest := MaxOf(times[1..]);
      assert forall t :: t in times ==> t == times[0] || t in times[1..];
      if times[0] > rest then times[0] else rest
  }

  /** The cursor after a batch: never earlier than it was. */
  function Newest(cursor: Option<Instant>, times: seq<Instant>): Option<Instant>
    requires times != []
  {
    if cursor.Some? && cursor.value > MaxOf(times) then cursor else Some(MaxOf(times))
  }

  /** A poll that could not go on: `keep` says whether the gateway survives. */
  function Lost(s: State, keep: bool): State {
    s.(status := Disconnected, gateway := if keep then s.gateway else None, failures := s.failures + 1)
  }

  // ---------------------------------------------------------------------------------------------
  // One poll
  // ---------------------------------------------------------------------------------------------

  function Reconnected(s: State, now: Instant, c: Contact): (State, seq<Effect>) {
    match c
    case CallFailed => (Lost(s, true).(lastReconnect := Some(now)), [])
    case GuardFailed => (s.(status := Unhealthy, gateway := None, lastReconnect := Some(now)), [Freeze])
    case SymbolMissing => (s.(status := Unhealthy, gateway := None, lastReconnect := Some(now)), [Freeze])
    case Connected(margin) =>
      if s.expectedMargin.Some? && margin.Some? && margin != s.expectedMargin then
        (s.(status := Unhealthy, gateway := None, lastReconnect := Some(now)), [Freeze])
      else
        var g := s.reconnects + 1;
        var expected := if s.expectedMargin.None? then margin else s.expectedMargin;
        (s.(status := Healthy, gateway := Some(g), expectedMargin := expected,
            lastReconnect := Some(now), reconnects := g, failures := 0), [Accept(g, margin)])
  }

  /** Ticks first, then bars; each batch is stored before the next is asked for. */
  function Read(s: State, p: Input, staleAfter: Instant): (State, seq<Effect>)
    requires p.Poll? && s.gateway.Some?
  {
    var g := s.gateway.value;
    match p.ticks
    case FeedFailed => (Lost(s, false), [Drop(s.gateway.value)])
    case ClockUnknown => (Lost(s, true), [])
    case Feed(times, conflict) =>
      if times != [] && conflict then (s.(status := Unhealthy), [Freeze])
      else
        var s1 := if times == [] then s else s.(lastTick := Newest(s.lastTick, times));
        var e1 := if times == [] then [] else [Wrote(g, TickRows, times)];
        var (s2, e2) := ReadBars(s1, p, staleAfter);
        (s2, e1 + e2)
  }

  function ReadBars(s: State, p: Input, staleAfter: Instant): (State, seq<Effect>)
    requires p.Poll? && s.gateway.Some?
  {
    match p.bars
    case FeedFailed => (Lost(s, false), [Drop(s.gateway.value)])
    case ClockUnknown => (Lost(s, true), [])
    case Feed(times, conflict) =>
      if times != [] && conflict then (s.(status := Unhealthy), [Freeze])
      else
        var s1 := if times == [] then s else s.(lastBar := Some(MaxOf(times)));
        (s1.(status := if IsStale(s1, p.now, staleAfter) then Stale else Healthy, failures := 0),
         if times == [] then [] else [Wrote(s.gateway.value, BarRows, times)])
  }

  /** The store refuses the rows. */
  predicate Conflicts(f: Feed) {
    f.Feed? && f.times != [] && f.conflict
  }

  /** Read, and stored if there was anything to store. */
  predicate Passes(f: Feed) {
    f.Feed? && !Conflicts(f)
  }

  /** Silence counts from the last tick, else the last bar, else the last reconnect. */
  predicate IsStale(s: State, now: Instant, staleAfter: Instant) {
    var reference := if s.lastTick.Some? then s.lastTick else if s.lastBar.Some? then s.lastBar else s.lastReconnect;
    reference.Some? && now - reference.value > staleAfter
  }

  function Polled(s: State, p: Input, staleAfter: Instant): (State, seq<Effect>)
    requires p.Poll?
  {
    if s.status == Unhealthy then (s, [])
    else if s.gateway.Some? then Read(s, p, staleAfter)
    else
      var (s1, e1) := Reconnected(s, p.now, p.contact);
      if s1.status != Healthy || s1.gateway.None? then (s1, e1)
      else
        var (s2, e2) := Read(s1, p, staleAfter);
        (s2, e1 + e2)
  }

  function Step(s: State, i: Input, staleAfter: Instant): (State, seq<Effect>) {
    match i
    case Poll(now, _, _, _) =>
      var (s', es) := Polled(s, i, staleAfter);
      (s'.(heartbeat := now), es)
    case Acknowledge(identified) =>
      if !identified || s.status != Unhealthy then (s, [])
      else (s.(status := Disconnected, gateway := None), [Ack])
  }

  /** The state and everything that left the reader after a run of inputs. */
  function Run(inputs: seq<Input>, staleAfter: Instant): (State, seq<Effect>) {
    if inputs == [] then (START, [])
    else
      var (s, es) := Run(inputs[..|inputs| - 1], staleAfter);
      var (s', more) := Step(s, inputs[|inputs| - 1], staleAfter);
      (s', es + more)
  }

  // ---------------------------------------------------------------------------------------------
  // Main results
  // ---------------------------------------------------------------------------------------------

  /** Gateway `g` is installed, and nothing has happened since but rows of its own. */
  predicate InUse(a: Effect, g: nat) {
    (a.Accept? && a.g == g) || (a.Wrote? && a.g == g)
  }

  /** Which effect may directly follow which (`a` is `None` at the start): rows go only through the gateway
      of the reconnect, or of the rows, just before, so never after that gateway failed; after a freeze
      there is nothing but an acknowledgement; and after that nothing but a fresh reconnect or another
      freeze. */
  predicate MayFollow(a: Option<Effect>, b: Effect) {
    match b
    case Accept(_, _) => a.None? || !a.value.Freeze?
    case Wrote(g, _, _) => a.Some? && InUse(a.value, g)
    case Drop(g) => a.Some? && InUse(a.value, g)
    case Freeze => a.None? || !a.value.Freeze?
    case Ack => a.Some? && a.value.Freeze?
  }

  function LastOf(es: seq<Effect>): Option<Effect> {
    if es == [] then None else Some(es[|es| - 1])
  }

  ghost predicate WellOrdered(es: seq<Effect>) {
    forall k :: 0 <= k < |es| ==> MayFollow(LastOf(es[..k]), es[k])
  }

  /** Every accepted margin mode that could be read is the expected one; gateways are numbered upward. */
  ghost predicate Agreed(s: State, es: seq<Effect>) {
    forall k :: 0 <= k < |es| && es[k].Accept? ==>
                  es[k].g <= s.reconnects && (es[k].margin.Some? ==> es[k].margin == s.expectedMargin)
  }

  /** How the state stands to what last left the reader. */
  ghost predicate Matches(s: State, last: Option<Effect>) {
    && (s.status == Unhealthy <==> last == Some(Freeze))
    && (s.gateway.Some? && s.status != Unhealthy ==> last.Some? && InUse(last.value, s.gateway.value))
    && (s.status == Healthy || s.status == Stale ==> s.gateway.Some?)
  }

  /** The cursor is the newest tick ever stored. */
  ghost predicate CursorIsNewest(cursor: Option<Instant>, es: seq<Effect>) {
    && (forall k, t :: 0 <= k < |es| && es[k].Wrote? && es[k].kind == TickRows && t in es[k].times ==>
                         cursor.Some? && t <= cursor.value)
    && (cursor.Some? ==>
          exists k :: 0 <= k < |es| && es[k].Wrote? && es[k].kind == TickRows && cursor.value in es[k].times)
  }

  ghost predicate Good(s: State, es: seq<Effect>) {
    WellOrdered(es) && Agreed(s, es) && Matches(s, LastOf(es)) && CursorIsNewest(s.lastTick, es)
  }

  lemma CursorKept(cursor: Option<Instant>, es: seq<Effect>, e: Effect)
    requires CursorIsNewest(cursor, es) && (e.Wrote? ==> e.kind != TickRows)
    ensures CursorIsNewest(cursor, es + [e])
  {
    if cursor.Some? {
      var k :| 0 <= k < |es| && es[k].Wrote? && es[k].kind == TickRows && cursor.value in es[k].times;
      assert (es + [e])[k] == es[k];
    }
  }

  lemma CursorMoved(cursor: Option<Instant>, es: seq<Effect>, g: nat, times: seq<Instant>)
    requires CursorIsNewest(cursor, es) && times != []
    ensures CursorIsNewest(Newest(cursor, times), es + [Wrote(g, TickRows, times)])
  {
    var all := es + [Wrote(g, TickRows, times)];
    if Newest(cursor, times) == cursor && cursor.value !in times {
      var k :| 0 <= k < |es| && es[k].Wrote? && es[k].kind == TickRows && cursor.value in es[k].times;
      assert all[k] == es[k];
    } else {
      assert all[|es|].times == times && Newest(cursor, times).value in times;
    }
  }

  lemma OneMoreEffect(es: seq<Effect>, e: Effect)
    requires WellOrdered(es) && MayFollow(LastOf(es), e)
    ensures WellOrdered(es + [e]) && LastOf(es + [e]) == Some(e)
  {
    var all := es + [e];
    forall k | 0 <= k < |all| ensures MayFollow(LastOf(all[..k]), all[k]) {
      assert all[..k] == if k < |es| then es[..k] else es;
    }
  }

  lemma ReconnectIsGood(s: State, es: seq<Effect>, now: Instant, c: Contact)
    requires Good(s, es) && s.status != Unhealthy && s.gateway.None?
    ensures var (s', more) := Reconnected(s, now, c);
            Good(s', es + more) && s'.lastTick == s.lastTick && (s'.status == Healthy ==> s'.gateway.Some?)
  {
    var (s', more) := Reconnected(s, now, c);
    if more == [] {
      assert es + more == es;
    } else {
      assert more == [more[0]];
      OneMoreEffect(es, more[0]);
      CursorKept(s.lastTick, es, more[0]);
    }
  }

  lemma WriteIsGood(s: State, es: seq<Effect>, s': State, kind: Kind, times: seq<Instant>)
    requires Good(s, es) && s.status != Unhealthy && s.gateway.Some? && times != []
    requires s' == s.(status := s'.status, lastTick := s'.lastTick, lastBar := s'.lastBar, failures := s'.failures)
             && s'.status != Unhealthy
    requires s'.lastTick == if kind == TickRows then Newest(s.lastTick, times) else s.lastTick
    ensures Good(s', es + [Wrote(s.gateway.value, kind, times)])
  {
    var e := Wrote(s.gateway.value, kind, times);
    OneMoreEffect(es, e);
    if kind == TickRows {
      CursorMoved(s.lastTick, es, s.gateway.value, times);
    } else {
      CursorKept(s.lastTick, es, e);
    }
  }

  lemma FreezeIsGood(s: State, es: seq<Effect>)
    requires Good(s, es) && s.status != Unhealthy
    ensures Good(s.(status := Unhealthy), es + [Freeze])
  {
    OneMoreEffect(es, Freeze);
    CursorKept(s.lastTick, es, Freeze);
  }

  lemma DropIsGood(s: State, es: seq<Effect>)
    requires Good(s, es) && s.status != Unhealthy && s.gateway.Some?
    ensures Good(Lost(s, false), es + [Drop(s.gateway.value)])
  {
    OneMoreEffect(es, Drop(s.gateway.value));
    CursorKept(s.lastTick, es, Drop(s.gateway.value));
  }

  lemma ReadBarsIsGood(s: State, es: seq<Effect>, p: Input, staleAfter: Instant)
    requires Good(s, es) && s.status != Unhealthy && s.gateway.Some? && p.Poll?
    ensures var (s', more) := ReadBars(s, p, staleAfter); Good(s', es + more) && s'.lastTick == s.lastTick
  {
    var (s', more) := ReadBars(s, p, staleAfter);
    if more == [] {
      assert es + more == es;
    } else if p.bars.FeedFailed? {
      DropIsGood(s, es);
    } else if p.bars.conflict {
      FreezeIsGood(s, es);
    } else {
      WriteIsGood(s, es, s', BarRows, p.bars.times);
    }
  }

  ghost predicate NoEarlier(a: Option<Instant>, b: Option<Instant>) {
    a.Some? ==> b.Some? && a.value <= b.value
  }

  /** All rows go through the gateway in hand: the ticks if they were read without conflict, and the bars only
      after them.  The gateway is dropped exactly when a read failed, the reader frozen exactly when the store
      refused rows, and it ends HEALTHY or STALE exactly when both feeds went through. */
  ghost predicate OneReading(s: State, p: Input, s': State, more: seq<Effect>)
    requires p.Poll?
  {
    && (forall e :: e in more && (e.Wrote? || e.Drop?) ==> s.gateway == Some(e.g))
    && (forall e :: e in more && e.Wrote? ==> e.times == if e.kind == TickRows then TimesOf(p.ticks)
        else TimesOf(p.bars))
    && ((exists e :: e in more && e.Wrote? && e.kind == TickRows) <==> Passes(p.ticks) && TimesOf(p.ticks) != [])
    && ((exists e :: e in more && e.Wrote? && e.kind == BarRows)
        <==> Passes(p.ticks) && Passes(p.bars) && TimesOf(p.bars) != [])
    && (s'.gateway.None? <==> p.ticks.FeedFailed? || (Passes(p.ticks) && p.bars.FeedFailed?))
    && (s'.status == Unhealthy <==> Conflicts(p.ticks) || (Passes(p.ticks) && Conflicts(p.bars)))
    && (s'.status == Healthy || s'.status == Stale <==> Passes(p.ticks) && Passes(p.bars))
  }

  function TimesOf(f: Feed): seq<Instant> {
    if f.Feed? then f.times else []
  }

  lemma ReadIsOneReading(s: State, p: Input, staleAfter: Instant)
    requires p.Poll? && s.gateway.Some? && s.status != Unhealthy
    ensures var (s', more) := Read(s, p, staleAfter); OneReading(s, p, s', more)
  {
    var (s', more) := Read(s, p, staleAfter);
    if Passes(p.ticks) {
      var s1 := if p.ticks.times == [] then s else s.(lastTick := Newest(s.lastTick, p.ticks.times));
      var e1 := if p.ticks.times == [] then [] else [Wrote(s.gateway.value, TickRows, p.ticks.times)];
      var (s2, e2) := ReadBars(s1, p, staleAfter);
      assert s' == s2 && more == e1 + e2;
      assert e1 != [] ==> e1[0] in more;
      assert e2 != [] ==> e2[0] in more;
      assert |e2| <= 1 && |e1| <= 1;
    }
  }

  lemma ReadIsGood(s: State, es: seq<Effect>, p: Input, staleAfter: Instant)
    requires Good(s, es) && s.status != Unhealthy && s.gateway.Some? && p.Poll?
    ensures var (s', more) := Read(s, p, staleAfter); Good(s', es + more) && NoEarlier(s.lastTick, s'.lastTick)
  {
    hide ReadBars, WellOrdered, CursorIsNewest;
    var (s', more) := Read(s, p, staleAfter);
    if p.ticks.FeedFailed? {
      DropIsGood(s, es);
    } else if p.ticks.ClockUnknown? {
      assert es + more == es;
    } else if p.ticks.times == [] {
      ReadBarsIsGood(s, es, p, staleAfter);
      assert more == ReadBars(s, p, staleAfter).1;
    } else if p.ticks.conflict {
      FreezeIsGood(s, es);
    } else {
      var s1 := s.(lastTick := Newest(s.lastTick, p.ticks.times));
      var e1 := [Wrote(s.gateway.value, TickRows, p.ticks.times)];
      WriteIsGood(s, es, s1, TickRows, p.ticks.times);
      ReadBarsIsGood(s1, es + e1, p, staleAfter);
      assert es + more == es + e1 + ReadBars(s1, p, staleAfter).1;
    }
  }

  lemma PollIsGood(s: State, es: seq<Effect>, p: Input, staleAfter: Instant)
    requires Good(s, es) && p.Poll?
    ensures var (s', more) := Polled(s, p, staleAfter); Good(s', es + more) && NoEarlier(s.lastTick, s'.lastTick)
  {
    hide Read, Reconnected, Good;
    var (s', more) := Polled(s, p, staleAfter);
    if s.status == Unhealthy {
      assert es + more == es;
    } else if s.gateway.Some? {
      ReadIsGood(s, es, p, staleAfter);
    } else {
      ReconnectIsGood(s, es, p.now, p.contact);
      var (s1, e1) := Reconnected(s, p.now, p.contact);
      if s1.status == Healthy {
        ReadIsGood(s1, es + e1, p, staleAfter);
        assert es + more == es + e1 + Read(s1, p, staleAfter).1;
      }
    }
  }

  lemma StepIsGood(s: State, es: seq<Effect>, i: Input, staleAfter: Instant)
    requires Good(s, es)
    ensures var (s', more) := Step(s, i, staleAfter); Good(s', es + more) && NoEarlier(s.lastTick, s'.lastTick)
  {
    if i.Poll? {
      PollIsGood(s, es, i, staleAfter);
    } else if i.identified && s.status == Unhealthy {
      OneMoreEffect(es, Ack);
      CursorKept(s.lastTick, es, Ack);
    } else {
      assert es + [] == es;
    }
  }

  /** In every run: what leaves the reader is well ordered, all margin modes read at accepted reconnects
      agree, and the cursor is the newest tick ever stored. */
  lemma {:induction false} RunsAreWellOrdered(inputs: seq<Input>, staleAfter: Instant)
    ensures var (s, es) := Run(inputs, staleAfter);
            && Good(s, es)
            && forall a, b :: a in es && b in es && a.Accept? && b.Accept? && a.margin.Some? && b.margin.Some? ==>
                                a.margin == b.margin
  {
    if inputs == [] {
    } else {
      var n := |inputs| - 1;
      RunsAreWellOrdered(inputs[..n], staleAfter);
      var (s, es) := Run(inputs[..n], staleAfter);
      StepIsGood(s, es, inputs[n], staleAfter);
    }
  }

  /** Spelled out for one stored batch: the gateway it went through was installed by an accepted reconnect,
      and between the two nothing left the reader but rows of that same gateway. */
  lemma {:induction false} RowsGoThroughAVerifiedGateway(es: seq<Effect>, k: nat)
    requires WellOrdered(es) && k < |es| && es[k].Wrote?
    ensures exists j :: 0 <= j < k && es[j].Accept? && es[j].g == es[k].g
                        && forall m :: j < m < k ==> es[m].Wrote? && es[m].g == es[k].g
    decreases k
  {
    assert MayFollow(LastOf(es[..k]), es[k]);
    var before := es[k - 1];
    assert LastOf(es[..k]) == Some(before);
    if before.Wrote? {
      RowsGoThroughAVerifiedGateway(es, k - 1);
    } else {
      assert before.Accept? && before.g == es[k].g;
    }
  }

  /** A frozen reader only beats its heart: any polls, whatever the terminal answers, change nothing else
      and let nothing out; and once acknowledged, the first thing out is a fresh reconnect or a new freeze. */
  lemma {:induction false} FrozenUntilAcknowledged(inputs: seq<Input>, more: seq<Input>, staleAfter: Instant)
    requires Run(inputs, staleAfter).0.status == Unhealthy
    requires forall i :: i in more ==> i.Poll? || !i.identified
    ensures var (s, es), (s', es') := Run(inputs, staleAfter), Run(inputs + more, staleAfter);
            s' == s.(heartbeat := s'.heartbeat) && es' == es
  {
    if more == [] {
      assert inputs + more == inputs;
    } else {
      var n := |more| - 1;
      FrozenUntilAcknowledged(inputs, more[..n], staleAfter);
      assert (inputs + more)[..|inputs + more| - 1] == inputs + more[..n];
      assert (inputs + more)[|inputs + more| - 1] == more[n] && more[n] in more;
    }
  }

  lemma HealthyReadIsFresh(s: State, p: Input, staleAfter: Instant)
    requires p.Poll? && s.gateway.Some? && Read(s, p, staleAfter).0.status == Healthy
    ensures !IsStale(Read(s, p, staleAfter).0, p.now, staleAfter) && Read(s, p, staleAfter).0.gateway.Some?
  {
    if p.ticks.Feed? {
      var s1 := if p.ticks.times == [] then s else s.(lastTick := Newest(s.lastTick, p.ticks.times));
      assert p.bars.Feed? && Read(s, p, staleAfter).0 == ReadBars(s1, p, staleAfter).0;
    }
  }

  lemma HealthyPollIsFresh(s: State, p: Input, staleAfter: Instant)
    requires p.Poll? && Polled(s, p, staleAfter).0.status == Healthy
    ensures !IsStale(Polled(s, p, staleAfter).0, p.now, staleAfter) && Polled(s, p, staleAfter).0.gateway.Some?
  {
    hide Read;
    if s.gateway.Some? {
      HealthyReadIsFresh(s, p, staleAfter);
    } else {
      var s1 := Reconnected(s, p.now, p.contact).0;
      if s1.status == Healthy {
        HealthyReadIsFresh(s1, p, staleAfter);
      }
    }
  }

  /** A poll that ends HEALTHY has seen a tick, else a bar, else a reconnect, no longer ago than allowed. */
  lemma HealthyIsNeverSilent(s: State, p: Input, staleAfter: Instant)
    requires p.Poll? && Step(s, p, staleAfter).0.status == Healthy
    ensures var s' := Step(s, p, staleAfter).0;
            && s'.gateway.Some? && s'.heartbeat == p.now
            && (s'.lastTick.Some? ==> p.now - s'.lastTick.value <= staleAfter)
            && (s'.lastTick.None? && s'.lastBar.Some? ==> p.now - s'.lastBar.value <= staleAfter)
            && (s'.lastTick.None? && s'.lastBar.None? && s'.lastReconnect.Some?
                ==> p.now - s'.lastReconnect.value <= staleAfter)
  {
    hide Polled;
    HealthyPollIsFresh(s, p, staleAfter);
  }

  /** The connection attempt is accepted. */
  predicate Accepts(s: State, c: Contact) {
    c.Connected? && (s.expectedMargin.Some? && c.margin.Some? ==> c.margin == s.expectedMargin)
  }

  /** Too long without a tick, else a bar, else a reconnect. */
  predicate Silent(s: State, now: Instant, staleAfter: Instant) {
    if s.lastTick.Some? then now - s.lastTick.value > staleAfter
    else if s.lastBar.Some? then now - s.lastBar.value > staleAfter
    else s.lastReconnect.Some? && now - s.lastReconnect.value > staleAfter
  }

  lemma ReadEndsExactly(s: State, p: Input, staleAfter: Instant)
    requires p.Poll? && s.gateway.Some? && s.status != Unhealthy
    ensures var s' := Read(s, p, staleAfter).0;
            && (s'.status == Unhealthy <==> Conflicts(p.ticks) || (Passes(p.ticks) && Conflicts(p.bars)))
            && (s'.status == Healthy <==> Passes(p.ticks) && Passes(p.bars) && !Silent(s', p.now, staleAfter))
            && (s'.status == Stale <==> Passes(p.ticks) && Passes(p.bars) && Silent(s', p.now, staleAfter))
  {
    if p.ticks.Feed? {
      var s1 := if p.ticks.times == [] then s else s.(lastTick := Newest(s.lastTick, p.ticks.times));
      assert Passes(p.ticks) ==> Read(s, p, staleAfter).0 == ReadBars(s1, p, staleAfter).0;
    }
  }

  /** How a poll ends, exactly: UNHEALTHY if it was, if a reconnect meets a failed guard, a missing symbol or
      another margin mode, or if the store refuses rows; otherwise HEALTHY or STALE if it has or gets a gateway
      and both feeds go through, STALE when it has been silent too long; otherwise DISCONNECTED. */
  lemma PollEndsExactly(s: State, p: Input, staleAfter: Instant)
    requires p.Poll? && (s.gateway.None? ==> s.status != Healthy && s.status != Stale)
    ensures var s' := Step(s, p, staleAfter).0;
            var frozen := s.status == Unhealthy;
            var connected := !frozen && (s.gateway.Some? || Accepts(s, p.contact));
            var through := connected && Passes(p.ticks) && Passes(p.bars);
            && s'.heartbeat == p.now
            && (s'.status == Unhealthy <==>
                  || frozen
                  || (s.gateway.None? && !p.contact.CallFailed? && !Accepts(s, p.contact))
                  || (connected && (Conflicts(p.ticks) || (Passes(p.ticks) && Conflicts(p.bars)))))
            && (s'.status == Healthy <==> through && !Silent(s', p.now, staleAfter))
            && (s'.status == Stale <==> through && Silent(s', p.now, staleAfter))
  {
    hide Read;
    if s.status == Unhealthy {
    } else if s.gateway.Some? {
      ReadEndsExactly(s, p, staleAfter);
    } else {
      var s1 := Reconnected(s, p.now, p.contact).0;
      if Accepts(s, p.contact) {
        ReadEndsExactly(s1, p, staleAfter);
      }
    }
  }

  ghost predicate IsNewest(m: Option<Instant>, times: seq<Instant>) {
    m.Some? && m.value in times && forall t :: t in times ==> t <= m.value
  }

  /** What a reading leaves of what silence is measured from. */
  ghost predicate MeasuredFrom(s: State, p: Input, s': State)
    requires p.Poll?
  {
    && s'.lastReconnect == s.lastReconnect
    && (if Passes(p.ticks) && p.ticks.times != [] then
          || IsNewest(s'.lastTick, p.ticks.times)
          || (s'.lastTick == s.lastTick && s.lastTick.Some? && forall t :: t in p.ticks.times ==> t < s.lastTick.value)
        else s'.lastTick == s.lastTick)
    && (if Passes(p.ticks) && Passes(p.bars) && p.bars.times != [] then IsNewest(s'.lastBar, p.bars.times)
        else s'.lastBar == s.lastBar)
  }

  lemma ReadMeasuresFrom(s: State, p: Input, staleAfter: Instant)
    requires p.Poll? && s.gateway.Some? && s.status != Unhealthy
    ensures MeasuredFrom(s, p, Read(s, p, staleAfter).0)
  {
    hide MaxOf;
    if Passes(p.ticks) {
      var s1 := if p.ticks.times == [] then s else s.(lastTick := Newest(s.lastTick, p.ticks.times));
      assert Read(s, p, staleAfter).0 == ReadBars(s1, p, staleAfter).0;
      if p.ticks.times != [] {
        NewestIsInTheBatch(p.ticks.times);
      }
      if Passes(p.bars) && p.bars.times != [] {
        NewestIsInTheBatch(p.bars.times);
      }
    }
  }

  lemma NewestIsInTheBatch(times: seq<Instant>)
    requires times != []
    ensures IsNewest(Some(MaxOf(times)), times)
  {
  }

  /** Silence is measured from the newest tick, bar and reconnect attempt: a poll that attempts a reconnect
      stamps it, a stored batch moves the tick cursor forward only and the bar time to its newest row, and
      nothing else changes them. */
  lemma PollMeasuresFrom(s: State, p: Input, staleAfter: Instant)
    requires p.Poll?
    ensures var s' := Step(s, p, staleAfter).0;
            var attempts := s.status != Unhealthy && s.gateway.None?;
            var s1 := if attempts then s.(lastReconnect := Some(p.now)) else s;
            if s.status != Unhealthy && (s.gateway.Some? || Accepts(s, p.contact)) then MeasuredFrom(s1, p, s')
            else s'.lastTick == s.lastTick && s'.lastBar == s.lastBar && s'.lastReconnect == s1.lastReconnect
  {
    hide Read;
    if s.status == Unhealthy {
    } else if s.gateway.Some? {
      ReadMeasuresFrom(s, p, staleAfter);
    } else if Accepts(s, p.contact) {
      ReadMeasuresFrom(Reconnected(s, p.now, p.contact).0, p, staleAfter);
    }
  }

  function Power(n: nat): nat {
    if n == 0 then 1 else 2 * Power(n - 1)
  }

  /** The wait after `n` polls in a row that ended DISCONNECTED: the first, then twice as long every time, up to
      the limit. */
  function Backoff(first: nat, limit: nat, n: nat): nat {
    if n == 0 || first * Power(n) < limit then first * Power(n) else limit
  }

  lemma BackoffDoubles(first: nat, limit: nat, n: nat)
    ensures Backoff(first, limit, 0) == first
    ensures Backoff(first, limit, n + 1)
            == if Backoff(first, limit, n) * 2 < limit then Backoff(first, limit, n) * 2 else limit
    decreases n
  {
    assert first * Power(0) == first;
    assert first * Power(n + 1) == 2 * (first * Power(n));
    if n > 0 {
      BackoffDoubles(first, limit, n - 1);
      assert first * Power(n) == 2 * (first * Power(n - 1));
    }
  }

  /** How many polls in a row, up to the `k`-th, ended DISCONNECTED. */
  function Streak(before: seq<Input>, polls: seq<Input>, k: nat, staleAfter: Instant): nat
    requires k <= |polls|
  {
    if k == 0 || Run(before + polls[..k], staleAfter).0.status != Disconnected then 0
    else 1 + Streak(before, polls, k - 1, staleAfter)
  }

  /** The tick cursor never goes back. */
  lemma {:induction false} CursorNeverGoesBack(inputs: seq<Input>, more: seq<Input>, staleAfter: Instant)
    ensures NoEarlier(Run(inputs, staleAfter).0.lastTick, Run(inputs + more, staleAfter).0.lastTick)
  {
    hide Step, Good;
    if more == [] {
      assert inputs + more == inputs;
    } else {
      var n := |more| - 1;
      CursorNeverGoesBack(inputs, more[..n], staleAfter);
      assert (inputs + more)[..|inputs + more| - 1] == inputs + more[..n];
      RunsAreWellOrdered(inputs + more[..n], staleAfter);
      var (s, es) := Run(inputs + more[..n], staleAfter);
      StepIsGood(s, es, more[n], staleAfter);
    }
  }

  // ---------------------------------------------------------------------------------------------
  // The reader as an object
  // ---------------------------------------------------------------------------------------------

  class Reader {
    const staleAfter: Instant
    var state: State
    ghost var trace: seq<Effect>
    ghost var inputs: seq<Input>

    constructor (staleAfter: Instant)
      ensures Valid() && inputs == [] && this.staleAfter == staleAfter
    {
      this.staleAfter := staleAfter;
      state, trace, inputs := START, [], [];
    }

    ghost predicate Valid()
      reads this
    {
      (state, trace) == Run(inputs, staleAfter)
    }

    /** Never raises for an ordinary failure; whichever branch is taken, the heartbeat is stamped. */
    method PollOnce(p: Input)
      requires Valid() && p.Poll?
      modifies this
      ensures Valid() && inputs == old(inputs) + [p]
      ensures Good(state, trace) && state.heartbeat == p.now && old(trace) <= trace
    {
      RunsAreWellOrdered(inputs, staleAfter);
      StepIsGood(state, trace, p, staleAfter);
      inputs := inputs + [p];
      assert inputs[..|inputs| - 1] == old(inputs);
      PollOnceInner(p);
      state := state.(heartbeat := p.now);
    }

    method PollOnceInner(p: Input)
      requires Good(state, trace) && p.Poll?
      modifies this`state, this`trace
      ensures var (s, es) := Polled(old(state), p, staleAfter); state == s && trace == old(trace) + es
    {
      hide Good, Read, Reconnected, OneReading, NoEarlier;
      if state.status == Unhealthy { return; }
      assert state.status != Unhealthy;
      if state.gateway.None? {
        Reconnect(p.now, p.contact);
        if state.status != Healthy { return; }
      }
      ReadAndPersist(p);
    }

    /** HEALTHY comes exactly of a connection whose margin mode does not contradict the one first read, and then
        with a gateway numbered above all before it; a failed call leaves no trace; a failed guard, a missing
        symbol or a contradicting margin mode freezes.  The expected margin mode, once known, stays. */
    method Reconnect(now: Instant, c: Contact)
      requires Good(state, trace) && state.status != Unhealthy && state.gateway.None?
      modifies this`state, this`trace
      ensures var (s, es) := Reconnected(old(state), now, c); state == s && trace == old(trace) + es
      ensures Good(state, trace)
      ensures state.status == Healthy <==> c.Connected? && (c.margin.Some? ==> state.expectedMargin == c.margin)
      ensures state.status == Healthy ==>
                && state.gateway.Some? && trace == old(trace) + [Accept(state.gateway.value, c.margin)]
                && forall e :: e in old(trace) && e.Accept? ==> e.g < state.gateway.value
      ensures state.status == Disconnected <==> c.CallFailed?
      ensures c.CallFailed? ==> trace == old(trace)
      ensures state.status == Unhealthy <==> trace == old(trace) + [Freeze]
      ensures old(state).expectedMargin.Some? ==> state.expectedMargin == old(state).expectedMargin
    {
      ReconnectIsGood(state, trace, now, c);
      if c.CallFailed? {
        state := state.(status := Disconnected, failures := state.failures + 1, lastReconnect := Some(now));
        return;
      }
      if c.GuardFailed? || c.SymbolMissing? {
        state := state.(status := Unhealthy, gateway := None, lastReconnect := Some(now));
        trace := trace + [Freeze];
        return;
      }
      if state.expectedMargin.None? {
        state := state.(expectedMargin := c.margin);
      } else if c.margin.Some? && c.margin != state.expectedMargin {
        state := state.(status := Unhealthy, gateway := None, lastReconnect := Some(now));
        trace := trace + [Freeze];
        return;
      }
      var g := state.reconnects + 1;
      state := state.(status := Healthy, gateway := Some(g), lastReconnect := Some(now), reconnects := g,
                      failures := 0);
      trace := trace + [Accept(g, c.margin)];
    }

    /** Keeps the guarantees, stores what was read as `OneReading` says, and never moves the cursor back. */
    method ReadAndPersist(p: Input)
      requires Good(state, trace) && state.status != Unhealthy && p.Poll? && state.gateway.Some?
      modifies this`state, this`trace
      ensures var (s, es) := Read(old(state), p, staleAfter);
              state == s && trace == old(trace) + es && OneReading(old(state), p, state, es)
      ensures Good(state, trace) && NoEarlier(old(state).lastTick, state.lastTick)
    {
      hide Good, OneReading, NoEarlier;
      ReadIsGood(state, trace, p, staleAfter);
      ReadIsOneReading(state, p, staleAfter);
      var g := state.gateway.value;
      if !p.ticks.Feed? {
        trace := trace + (if p.ticks.ClockUnknown? then [] else [Drop(g)]);
        state := Lost(state, p.ticks.ClockUnknown?);
        return;
      }
      if p.ticks.times != [] {
        if p.ticks.conflict {
          state := state.(status := Unhealthy);
          trace := trace + [Freeze];
          return;
        }
        trace := trace + [Wrote(g, TickRows, p.ticks.times)];
        var newest := NewestOf(p.ticks.times);
        if state.lastTick.None? || state.lastTick.value < newest {
          state := state.(lastTick := Some(newest));
        }
      }
      ghost var ticked := state;
      PersistBars(p);
      assert Read(old(state), p, staleAfter).0 == ReadBars(ticked, p, staleAfter).0;
    }

    /** The second half of a reading, after the ticks. */
    method PersistBars(p: Input)
      requires p.Poll? && state.gateway.Some?
      modifies this`state, this`trace
      ensures var (s, es) := ReadBars(old(state), p, staleAfter); state == s && trace == old(trace) + es
    {
      var g := state.gateway.value;
      if !p.bars.Feed? {
        trace := trace + (if p.bars.ClockUnknown? then [] else [Drop(g)]);
        state := Lost(state, p.bars.ClockUnknown?);
        return;
      }
      if p.bars.times != [] {
        if p.bars.conflict {
          state := state.(status := Unhealthy);
          trace := trace + [Freeze];
          return;
        }
        trace := trace + [Wrote(g, BarRows, p.bars.times)];
        var newest := NewestOf(p.bars.times);
        state := state.(lastBar := Some(newest));
      }
      state := state.(status := if IsStale(state, p.now, staleAfter) then Stale else Healthy, failures := 0);
    }

    method NewestOf(times: seq<Instant>) returns (newest: Instant)
      requires times != []
      ensures newest == MaxOf(times)
    {
      newest := times[0];
      for i := 1 to |times|
        invariant newest in times && forall k :: 0 <= k < i ==> times[k] <= newest
      {
        if times[i] > newest {
          newest := times[i];
        }
      }
    }

    /** Only an identified operator clears a freeze, and only into a fresh start. */
    method AcknowledgeFreeze(identified: bool)
      requires Valid()
      modifies this
      ensures Valid() && inputs == old(inputs) + [Acknowledge(identified)]
      ensures identified && old(state).status == Unhealthy ==>
                state == old(state).(status := Disconnected, gateway := None) && trace == old(trace) + [Ack]
      ensures !identified || old(state).status != Unhealthy ==> state == old(state) && trace == old(trace)
    {
      inputs := inputs + [Acknowledge(identified)];
      assert inputs[..|inputs| - 1] == old(inputs) && trace + [] == trace;
      if !identified || state.status != Unhealthy { return; }
      state := state.(status := Disconnected, gateway := None);
      trace := trace + [Ack];
    }

    /** The loop: the ordinary interval after every poll but those that end DISCONNECTED, and after these a wait
        that doubles every time in a row, up to a limit. */
    method RunForever(polls: seq<Input>, interval: nat, first: nat, limit: nat) returns (sleeps: seq<nat>)
      requires Valid() && forall p :: p in polls ==> p.Poll?
      modifies this
      ensures Valid() && inputs == old(inputs) + polls && |sleeps| == |polls|
      ensures forall k :: 0 <= k < |sleeps| ==>
                            sleeps[k] == if Run(old(inputs) + polls[..k + 1], staleAfter).0.status == Disconnected
                                         then Backoff(first, limit, Streak(old(inputs), polls, k, staleAfter))
                                         else interval
    {
      hide Good, Run, Backoff;
      BackoffDoubles(first, limit, 0);
      var backoff := first;
      sleeps := [];
      for i := 0 to |polls|
        invariant Valid() && inputs == old(inputs) + polls[..i] && |sleeps| == i
        invariant backoff == Backoff(first, limit, Streak(old(inputs), polls, i, staleAfter))
        invariant forall k :: 0 <= k < i ==>
                                sleeps[k] == if Run(old(inputs) + polls[..k + 1], staleAfter).0.status == Disconnected
                                             then Backoff(first, limit, Streak(old(inputs), polls, k, staleAfter))
                                             else interval
      {
        BackoffDoubles(first, limit, Streak(old(inputs), polls, i, staleAfter));
        PollOnce(polls[i]);
        assert old(inputs) + polls[..i + 1] == old(inputs) + polls[..i] + [polls[i]];
        assert (state, trace) == Run(old(inputs) + polls[..i + 1], staleAfter);
        if state.status == Disconnected {
          sleeps := sleeps + [backoff];
          backoff := if backoff * 2 < limit then backoff * 2 else limit;
        } else {
          sleeps := sleeps + [interval];
          backoff := first;
        }
      }
      assert polls[..|polls|] == polls;
    }
  }
}
