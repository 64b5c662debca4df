/**
 The isolated close-window search of `scripts/export_crumblr_trade_to_trainer.py`: an account-balance
 change stands for one trade's outcome only across a window in which nothing else moved money.
 */
module CloseWindow {
  type Ticket = int
  type Instant = int
  type OrderKey = nat

  /** One account snapshot with the position rows stored under its id.  A failed position read stores no
      rows (`complete` is false); `actual` is what was open at the broker. */
  datatype Snapshot = Snapshot(at: Instant, balance: real, currency: string, rows: set<Ticket>, complete: bool,
                               actual: set<Ticket>)

  datatype Fill = Fill(order: OrderKey, at: Instant)

  datatype Problem = NeverObservedOpen | OtherTicketsOpen | NotFlatAtClose | NotYetClosed | ForeignFill

  datatype Evidence =
    | Isolated(lastOpenAt: Instant, balanceBefore: real, closedAt: Instant, balanceAfter: real, currency: string)
    | Refused(problem: Problem)

  /** The tables in time order, several snapshots possibly at one instant. */
  ghost predicate InOrder(ss: seq<Snapshot>) {
    forall i, j :: 0 <= i < j < |ss| ==> ss[i].at <= ss[j].at
  }

  /** The row of the newest snapshot that holds the ticket. */
  function NewestWith(ss: seq<Snapshot>, ticket: Ticket): (r: int)
    ensures -1 <= r < |ss|
    ensures r >= 0 ==> ticket in ss[r].rows
    ensures forall i :: r < i < |ss| ==> ticket !in ss[i].rows
  {
    if ss == [] then -1
    else if ticket in ss[|ss| - 1].rows then |ss| - 1
    else NewestWith(ss[..|ss| - 1], ticket)
  }

  /** The first snapshot strictly later than row `i`. */
  ghost predicate IsNext(ss: seq<Snapshot>, i: nat, j: nat)
    requires i < |ss|
  {
    i < j < |ss| && ss[i].at < ss[j].at && forall k :: i < k < j ==> ss[k].at <= ss[i].at
  }

  predicate HasForeignFill(fills: seq<Fill>, order: OrderKey, after: Instant, before: Instant) {
    exists f :: f in fills && f.order != order && after < f.at < before
  }

  /** Row `i` shows the ticket alone, row `j` is the very next snapshot and flat, and no other order
      filled strictly in between. */
  ghost predicate IsIsolatedClose(ss: seq<Snapshot>, fills: seq<Fill>, ticket: Ticket, order: OrderKey, i: nat,
                                  j: nat) {
    && i < |ss| && NewestWith(ss, ticket) == i && ss[i].rows == {ticket}
    && IsNext(ss, i, j) && ss[j].rows == {}
    && (forall f :: f in fills && ss[i].at < f.at && f.at < ss[j].at ==> f.order == order)
  }

  /** The search.  Succeeds exactly when some pair of snapshots is an isolated close, and then reports that
      pair; otherwise it names the first check that failed. */
  method ResolveIsolatedCloseWindow(ss: seq<Snapshot>, fills: seq<Fill>, ticket: Ticket, order: OrderKey)
    returns (e: Evidence)
    requires InOrder(ss)
    ensures e.Isolated? <==> exists i: nat, j: nat :: IsIsolatedClose(ss, fills, ticket, order, i, j)
    ensures forall i: nat, j: nat :: IsIsolatedClose(ss, fills, ticket, order, i, j) ==>
                             e == Isolated(ss[i].at, ss[i].balance, ss[j].at, ss[j].balance, ss[i].currency)
    ensures var last := NewestWith(ss, ticket);
            && (e == Refused(NeverObservedOpen) <==> last == -1)
            && (e == Refused(OtherTicketsOpen) <==> last >= 0 && ss[last].rows != {ticket})
            && (e == Refused(NotYetClosed) <==>
                  last >= 0 && ss[last].rows == {ticket} && forall j: nat :: !IsNext(ss, last, j))
            && (e == Refused(NotFlatAtClose) <==>
                  last >= 0 && ss[last].rows == {ticket} && exists j: nat :: IsNext(ss, last, j) && ss[j].rows != {})
  {
    var last := NewestWith(ss, ticket);
    if last == -1 { return Refused(NeverObservedOpen); }
    if ss[last].rows != {ticket} { return Refused(OtherTicketsOpen); }

    var j := last + 1;
    var closed := false;
    while j < |ss|
      invariant last < j <= |ss|
      invariant forall k :: last < k < j ==> ss[k].at <= ss[last].at
    {
      if ss[j].at > ss[last].at {
        if ticket in ss[j].rows {
          assert false;  // the source's "still open" branch: the newest row with the ticket is behind us
        }
        closed := true;
        break;
      }
      j := j + 1;
    }
    if !closed { return Refused(NotYetClosed); }
    assert IsNext(ss, last, j);
    NextIsUnique(ss, last);
    if ss[j].rows != {} { return Refused(NotFlatAtClose); }
    if HasForeignFill(fills, order, ss[last].at, ss[j].at) { return Refused(ForeignFill); }
    assert IsIsolatedClose(ss, fills, ticket, order, last, j);
    e := Isolated(ss[last].at, ss[last].balance, ss[j].at, ss[j].balance, ss[last].currency);
  }

  lemma NextIsUnique(ss: seq<Snapshot>, i: nat)
    requires i < |ss|
    ensures forall j: nat, k: nat :: IsNext(ss, i, j) && IsNext(ss, i, k) ==> j == k
  {
    forall j: nat, k: nat | IsNext(ss, i, j) && IsNext(ss, i, k) ensures j == k {
    }
  }

  /** Rows are what was open, unless the read failed. */
  ghost predicate RowsAreHonest(ss: seq<Snapshot>) {
    forall i :: 0 <= i < |ss| ==> ss[i].rows == if ss[i].complete then ss[i].actual else {}
  }

  /** The search never asks whether a position read was complete.  What an isolated close says of its open
      end is always true; what it says of its closing end is false exactly when that read failed while
      something, not necessarily the ticket, was open. */
  lemma TheCloseIsRealExactlyWhen(ss: seq<Snapshot>, fills: seq<Fill>, ticket: Ticket, order: OrderKey, i: nat, j: nat)
    requires RowsAreHonest(ss) && IsIsolatedClose(ss, fills, ticket, order, i, j)
    ensures ss[i].complete && ss[i].actual == {ticket}
    ensures ss[j].rows != ss[j].actual <==> !ss[j].complete && ss[j].actual != {}
  {
    assert ticket in ss[i].rows;
  }

  /** A trade that is still open is exported as closed when the next position read fails. */
  lemma FailedReadLooksLikeAClose(ticket: Ticket, before: real, after: real)
    ensures var ss := [Snapshot(0, before, "EUR", {ticket}, true, {ticket}),
                       Snapshot(60, after, "EUR", {}, false, {ticket})];
            InOrder(ss) && RowsAreHonest(ss) && IsIsolatedClose(ss, [], ticket, 0, 0, 1) && ticket in ss[1].actual
  {
    var ss := [Snapshot(0, before, "EUR", {ticket}, true, {ticket}), Snapshot(60, after, "EUR", {}, false, {ticket})];
    assert ss[..1] == [ss[0]];
    assert NewestWith(ss[..1], ticket) == 0;
    assert IsNext(ss, 0, 1);
  }
}
