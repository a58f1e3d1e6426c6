/** Places in the queue: `sort_order`, `waiting_ahead` and what the board calls next. */
module Ranks {
  import opened Text
  import opened Calendar
  import opened Rules
  import opened Lifecycle
  import Phones

  // ------------------------------------------------------------------ ranks

  predicate WaitingOn(r: Row, day: string) { r.status == Waiting && r.day == day }

  function WaitingIds(rows: seq<Row>, day: string): set<nat> { set j | 0 <= j < |rows| && WaitingOn(rows[j], day) }

  function AheadOf(rows: seq<Row>, i: nat): set<nat>
    requires i < |rows|
  {
    set j | 0 <= j < |rows| && WaitingOn(rows[j], rows[i].day) && rows[j].sortOrder < rows[i].sortOrder
  }

  /** `waiting_ahead`: how many WAITING rows of the day hold a strictly lower `sort_order`. */
  function WaitingAhead(rows: seq<Row>, i: nat): nat
    requires i < |rows|
  {
    |AheadOf(rows, i)|
  }

  predicate OrdersDiffer(a: Row, b: Row) {
    Active(a) && Active(b) && a.day == b.day ==> a.sortOrder != b.sortOrder
  }

  predicate DistinctOrders(s: State) {
    forall i, j :: 0 <= i < j < |s.rows| ==> OrdersDiffer(s.rows[i], s.rows[j])
  }

  lemma RankBelowCount(rows: seq<Row>, i: nat)
    requires i < |rows| && rows[i].status == Waiting
    ensures WaitingAhead(rows, i) < |WaitingIds(rows, rows[i].day)|
  {
    SmallerSet(AheadOf(rows, i), WaitingIds(rows, rows[i].day), i);
  }

  lemma SmallerSet(a: set<nat>, b: set<nat>, x: nat)
    requires a <= b && x in b && x !in a
    ensures |a| < |b|
  {
    SubsetSize(a, b - {x});
  }

  lemma {:induction false} SubsetSize(a: set<nat>, b: set<nat>)
    requires a <= b
    ensures |a| <= |b|
  {
    if x :| x in a { SubsetSize(a - {x}, b - {x}); }
  }

  /** Distinct orders give distinct ranks, in the same direction. */
  lemma RankFollowsOrder(s: State, i: nat, j: nat)
    requires i < |s.rows| && j < |s.rows| && s.rows[i].day == s.rows[j].day
    requires s.rows[i].status == Waiting && s.rows[i].sortOrder < s.rows[j].sortOrder
    ensures WaitingAhead(s.rows, i) < WaitingAhead(s.rows, j)
  {
    SmallerSet(AheadOf(s.rows, i), AheadOf(s.rows, j), i);
  }

  lemma RanksDiffer(s: State, i: nat, j: nat)
    requires DistinctOrders(s) && i < |s.rows| && j < |s.rows| && i != j
    requires s.rows[i].status == s.rows[j].status == Waiting && s.rows[i].day == s.rows[j].day
    ensures WaitingAhead(s.rows, i) != WaitingAhead(s.rows, j)
  {
    assert OrdersDiffer(s.rows[if i < j then i else j], s.rows[if i < j then j else i]);
    if s.rows[i].sortOrder < s.rows[j].sortOrder { RankFollowsOrder(s, i, j); } else { RankFollowsOrder(s, j, i); }
  }

  function RanksOf(rows: seq<Row>, ids: set<nat>): set<nat>
    requires forall i :: i in ids ==> i < |rows|
  {
    set i | i in ids :: WaitingAhead(rows, i)
  }

  lemma {:induction false} AsManyRanksAsRows(s: State, day: string, ids: set<nat>)
    requires DistinctOrders(s) && ids <= WaitingIds(s.rows, day)
    ensures |RanksOf(s.rows, ids)| == |ids|
  {
    if i :| i in ids {
      var rest := ids - {i};
      AsManyRanksAsRows(s, day, rest);
      forall j | j in rest ensures WaitingAhead(s.rows, j) != WaitingAhead(s.rows, i) { RanksDiffer(s, i, j); }
      assert RanksOf(s.rows, ids) == RanksOf(s.rows, rest) + {WaitingAhead(s.rows, i)};
    }
  }

  function Below(n: nat): (r: set<nat>)
    ensures forall k :: k in r <==> 0 <= k < n
    ensures |r| == n
  {
    if n == 0 then {} else Below(n - 1) + {n - 1}
  }

  lemma SameSizeSameSet(a: set<nat>, b: set<nat>)
    requires a <= b && |a| == |b|
    ensures a == b
  {
    if x :| x in b && x !in a { SmallerSet(a, b, x); }
  }

  /** `waiting_ahead` numbers a day's n WAITING guests 0 to n-1, each place taken exactly once. */
  lemma RanksAreZeroToN(s: State, day: string)
    requires DistinctOrders(s)
    ensures RanksOf(s.rows, WaitingIds(s.rows, day)) == Below(|WaitingIds(s.rows, day)|)
    ensures forall i, j :: i in WaitingIds(s.rows, day) && j in WaitingIds(s.rows, day) && i != j
              ==> WaitingAhead(s.rows, i) != WaitingAhead(s.rows, j)
  {
    var ids := WaitingIds(s.rows, day);
    forall i, j | i in ids && j in ids && i != j ensures WaitingAhead(s.rows, i) != WaitingAhead(s.rows, j) {
      RanksDiffer(s, i, j);
    }
    forall i | i in ids ensures WaitingAhead(s.rows, i) < |ids| { RankBelowCount(s.rows, i); }
    AsManyRanksAsRows(s, day, ids);
    SameSizeSameSet(RanksOf(s.rows, ids), Below(|ids|));
  }

  // ------------------------------------------------------------------ the board and the newcomer

  /** The board's `next_up`: a WAITING row of the day that none precedes in `sort_order`. */
  predicate IsNextUp(rows: seq<Row>, day: string, i: nat) {
    i in WaitingIds(rows, day) && forall j :: j in WaitingIds(rows, day) ==> rows[i].sortOrder <= rows[j].sortOrder
  }

  /** The guest called next is the one with nobody ahead. */
  lemma NextUpHasNobodyAhead(s: State, day: string, i: nat)
    requires i in WaitingIds(s.rows, day)
    ensures IsNextUp(s.rows, day, i) <==> WaitingAhead(s.rows, i) == 0
  {
    if WaitingAhead(s.rows, i) == 0 {
      forall j | j in WaitingIds(s.rows, day) ensures s.rows[i].sortOrder <= s.rows[j].sortOrder {
        assert j !in AheadOf(s.rows, i);
      }
    } else {
      var j :| j in AheadOf(s.rows, i);
      assert j in WaitingIds(s.rows, day);
    }
  }

  /** Distinct orders call at most one guest next. */
  lemma OneNextUp(s: State, day: string, i: nat, j: nat)
    requires DistinctOrders(s) && i < j < |s.rows|
    ensures !(IsNextUp(s.rows, day, i) && IsNextUp(s.rows, day, j))
  {
    assert OrdersDiffer(s.rows[i], s.rows[j]);
  }

  lemma {:induction false} TopSortOrderIsTop(rows: seq<Row>, i: nat)
    requires i < |rows|
    ensures rows[i].sortOrder <= TopSortOrder(rows)
  {
    var n := |rows| - 1;
    if i < n { TopSortOrderIsTop(rows[..n], i); }
  }

  /** A new guest has everybody who waits that day ahead. */
  lemma NewcomerIsLast(s: State, name: string, phone: string, partySize: int, note: Option<string>, now: Instant)
    requires Join(s, name, phone, partySize, note, now).reply.Ok?
    ensures
      var after, n := Join(s, name, phone, partySize, note, now).after.rows, |s.rows|;
      && |after| == n + 1
      && WaitingAhead(after, n) == |WaitingIds(s.rows, after[n].day)|
      && WaitingAhead(after, n) == |WaitingIds(after, after[n].day)| - 1
  {
    var after, n := Join(s, name, phone, partySize, note, now).after.rows, |s.rows|;
    assert after == s.rows + [Ticket(s, name, phone, partySize, note, now)];
    forall i | 0 <= i < n ensures after[i] == s.rows[i] && after[i].sortOrder < after[n].sortOrder {
      TopSortOrderIsTop(s.rows, i);
    }
    assert AheadOf(after, n) == WaitingIds(s.rows, after[n].day);
    assert WaitingIds(after, after[n].day) == WaitingIds(s.rows, after[n].day) + {n};
  }

  // ------------------------------------------------------------------ which steps keep orders distinct

  predicate OrderTaken(rows: seq<Row>, day: string, order: nat) {
    exists i :: 0 <= i < |rows| && rows[i].day == day && Active(rows[i]) && rows[i].sortOrder == order
  }

  /** A restored row keeps its old number without asking whether the day's queue uses it again. */
  predicate AsksForOrder(s: State, step: Step) {
    match step
    case DoRestore(id, _) =>
      Apply(s, step).reply.Refused? || !OrderTaken(s.rows, s.rows[id].day, s.rows[id].sortOrder)
    case _ => true
  }

  lemma JoinKeepsOrders(s: State, step: Step)
    requires DistinctOrders(s) && step.DoJoin?
    ensures DistinctOrders(Next(s, step))
  {
    var s' := Next(s, step);
    OnlyJoinsAppend(s, step);
    forall i, j | 0 <= i < j < |s'.rows| ensures OrdersDiffer(s'.rows[i], s'.rows[j]) {
      assert s'.rows[i] == s.rows[i];
      if j < |s.rows| { assert OrdersDiffer(s.rows[i], s.rows[j]); } else { TopSortOrderIsTop(s.rows, i); }
    }
  }

  lemma ReorderKeepsOrders(s: State, ids: seq<nat>, now: Instant)
    requires DistinctOrders(s) && Reorder(s, ids, now).reply.Ok?
    ensures DistinctOrders(Reorder(s, ids, now).after)
  {
    var s' := Reorder(s, ids, now).after;
    ReorderTouchesActiveOnly(s, ids, now);
    forall i, j | 0 <= i < j < |s'.rows| ensures OrdersDiffer(s'.rows[i], s'.rows[j]) {
      assert OrdersDiffer(s.rows[i], s.rows[j]);
      if i in ids && j in ids { assert IndexOf(ids, i) != IndexOf(ids, j); }
    }
  }

  lemma RestoreOrdersExactly(s: State, id: nat, now: Instant)
    requires DistinctOrders(s) && Restore(s, id, now).reply.Ok?
    ensures DistinctOrders(Restore(s, id, now).after) <==> !OrderTaken(s.rows, s.rows[id].day, s.rows[id].sortOrder)
  {
    var s' := Restore(s, id, now).after;
    var back := s'.rows[id];
    if i :| 0 <= i < |s.rows| && s.rows[i].day == back.day && Active(s.rows[i])
            && s.rows[i].sortOrder == back.sortOrder
    {
      assert s'.rows[i] == s.rows[i] && !OrdersDiffer(s'.rows[i], back) && !OrdersDiffer(back, s'.rows[i]);
    } else {
      forall i, j | 0 <= i < j < |s'.rows| ensures OrdersDiffer(s'.rows[i], s'.rows[j]) {
        assert OrdersDiffer(s.rows[i], s.rows[j]);
      }
    }
  }

  /** Away from a join and a reorder, no row's `sort_order` moves and only a restore makes a row live. */
  lemma OthersKeepOrders(s: State, step: Step)
    requires !step.DoJoin? && !step.DoReorder?
    ensures |Next(s, step).rows| == |s.rows|
    ensures forall i :: 0 <= i < |s.rows| ==>
      && Next(s, step).rows[i].sortOrder == s.rows[i].sortOrder && Next(s, step).rows[i].day == s.rows[i].day
      && (Active(Next(s, step).rows[i]) ==> Active(s.rows[i]) || (step.DoRestore? && i == step.id))
  {
    StepMovesLegally(s, step);
    OnlyJoinsAppend(s, step);
    if OneRowStep(step) {
      OneRowStepTouchesOneRow(s, step);
      if step.id < |s.rows| { KeepsOrderOfRow(s, step); }
    }
  }

  lemma KeepsOrderOfRow(s: State, step: Step)
    requires OneRowStep(step) && step.id < |s.rows|
    ensures Next(s, step).rows[step.id].sortOrder == s.rows[step.id].sortOrder
  {
  }

  /** A step keeps a day's live orders distinct if and only if it is not a restore onto a taken number. */
  lemma OrdersExactly(s: State, step: Step)
    requires DistinctOrders(s)
    ensures DistinctOrders(Next(s, step)) <==> AsksForOrder(s, step)
  {
    if step.DoJoin? {
      JoinKeepsOrders(s, step);
    } else if step.DoReorder? {
      if Apply(s, step).reply.Ok? { ReorderKeepsOrders(s, step.ids, step.now); }
    } else if step.DoRestore? && Apply(s, step).reply.Ok? {
      RestoreOrdersExactly(s, step.id, step.now);
    } else {
      OthersKeepOrders(s, step);
      RefusalsChangeNothing(s, step);
      forall i, j | 0 <= i < j < |s.rows| ensures OrdersDiffer(Next(s, step).rows[i], Next(s, step).rows[j]) {
        assert OrdersDiffer(s.rows[i], s.rows[j]);
      }
    }
  }

  lemma {:induction false} DistinctOrdersOverRuns(z: Zone, settings: Settings, steps: seq<Step>)
    requires Along(Empty(z, settings), steps, AsksForOrder)
    ensures DistinctOrders(Run(Empty(z, settings), steps))
  {
    if steps != [] {
      var n := |steps| - 1;
      DistinctOrdersOverRuns(z, settings, steps[..n]);
      OrdersExactly(Run(Empty(z, settings), steps[..n]), steps[n]);
    }
  }

  /** The unguarded restore: the first of two guests is a no-show, the queue is renumbered without them, and
      restoring them puts two live rows of one day on number 1. */
  lemma RestoreOntoATakenNumber(z: Zone, settings: Settings, a: string, b: string, name: string, now: Instant)
    requires settings.open && Digits(a) != Digits(b)
    ensures
      var two := Join(Join(Empty(z, settings), name, a, 2, None, now).after, name, b, 2, None, now).after;
      var s := Reorder(StaffNoShow(two, 0, now).after, [1], now).after;
      DistinctOrders(s) && Restore(s, 0, now).reply.Ok? && !DistinctOrders(Restore(s, 0, now).after)
  {
    var one := Join(Empty(z, settings), name, a, 2, None, now).after;
    var guest := FirstTicket(z, settings, name, a, now);
    var second := SecondTicket(one, name, b, now);
    NoShowThenRenumber(Join(one, name, b, 2, None, now).after, now);
  }

  lemma FirstTicket(z: Zone, settings: Settings, name: string, phone: string, now: Instant) returns (guest: Row)
    requires settings.open
    ensures Join(Empty(z, settings), name, phone, 2, None, now).after == Empty(z, settings).(rows := [guest])
    ensures guest.status == Waiting && guest.day == BusinessDate(z, now) && guest.sortOrder == 1
    ensures Digits(guest.phone) == Digits(phone)
  {
    guest := Ticket(Empty(z, settings), name, phone, 2, None, now);
    Phones.StoredPhoneNormalizes(Empty(z, settings), name, phone, 2, None, now);
  }

  lemma SecondTicket(s: State, name: string, phone: string, now: Instant) returns (guest: Row)
    requires s.settings.open && |s.rows| == 1 && s.rows[0].sortOrder == 1 && Digits(s.rows[0].phone) != Digits(phone)
    ensures Join(s, name, phone, 2, None, now).after == s.(rows := s.rows + [guest])
    ensures guest.status == Waiting && guest.day == BusinessDate(s.zone, now) && guest.sortOrder == 2
  {
    guest := Ticket(s, name, phone, 2, None, now);
    assert s.rows[..0] == [] && TopSortOrder(s.rows[..0]) == 0;
  }

  lemma NoShowThenRenumber(s: State, now: Instant)
    requires |s.rows| == 2 && s.rows[0].status == s.rows[1].status == Waiting && s.rows[0].sortOrder == 1
    requires s.rows[0].day == s.rows[1].day == BusinessDate(s.zone, now)
    ensures
      var t := Reorder(StaffNoShow(s, 0, now).after, [1], now).after;
      DistinctOrders(t) && Restore(t, 0, now).reply.Ok? && !DistinctOrders(Restore(t, 0, now).after)
  {
    CloseEntryRow(s, 0, NoShow, now);
    RenumberTheOther(StaffNoShow(s, 0, now).after, now);
  }

  lemma RenumberTheOther(s: State, now: Instant)
    requires |s.rows| == 2 && s.rows[0].status == NoShow && s.rows[1].status == Waiting && s.rows[0].sortOrder == 1
    requires s.rows[0].day == s.rows[1].day == BusinessDate(s.zone, now)
    ensures
      var t := Reorder(s, [1], now).after;
      DistinctOrders(t) && Restore(t, 0, now).reply.Ok? && !DistinctOrders(Restore(t, 0, now).after)
  {
    assert ActiveIds(s.rows, QueueDay(s, now)) == {1};
    assert multiset([1]) == multiset({1});
    var t := Reorder(s, [1], now).after;
    assert t.rows[1].sortOrder == IndexOf([1], 1) + 1 == 1;
    assert OrderTaken(t.rows, t.rows[0].day, t.rows[0].sortOrder);
    RestoreOrdersExactly(t, 0, now);
  }

  // ------------------------------------------------------------------ runs without a reorder

  /** `sort_order` rises in join order over every row of every day and status. */
  predicate JoinOrdered(s: State) { forall i, j :: 0 <= i < j < |s.rows| ==> s.rows[i].sortOrder < s.rows[j].sortOrder }

  predicate NotReorder(s: State, step: Step) { !step.DoReorder? }

  lemma StepKeepsJoinOrder(s: State, step: Step)
    requires JoinOrdered(s) && !step.DoReorder?
    ensures JoinOrdered(Next(s, step))
  {
    if step.DoJoin? {
      OnlyJoinsAppend(s, step);
      forall i | 0 <= i < |s.rows| ensures s.rows[i].sortOrder <= TopSortOrder(s.rows) { TopSortOrderIsTop(s.rows, i); }
    } else {
      OthersKeepOrders(s, step);
    }
  }

  lemma {:induction false} JoinOrderOverRuns(z: Zone, settings: Settings, steps: seq<Step>)
    requires Along(Empty(z, settings), steps, NotReorder)
    ensures JoinOrdered(Run(Empty(z, settings), steps))
  {
    if steps != [] {
      var n := |steps| - 1;
      JoinOrderOverRuns(z, settings, steps[..n]);
      StepKeepsJoinOrder(Run(Empty(z, settings), steps[..n]), steps[n]);
    }
  }

  lemma AheadMeansEarlier(s: State, i: nat)
    requires JoinOrdered(s) && i < |s.rows|
    ensures AheadOf(s.rows, i) == set j | 0 <= j < i && WaitingOn(s.rows[j], s.rows[i].day)
  {
  }

  /** In a run without a reorder a guest, restored ones included, waits behind exactly the WAITING guests
      of the day who joined earlier. */
  lemma RestoredGuestsKeepTheirPlace(z: Zone, settings: Settings, steps: seq<Step>, i: nat)
    requires Along(Empty(z, settings), steps, NotReorder) && i < |Run(Empty(z, settings), steps).rows|
    ensures
      var rows := Run(Empty(z, settings), steps).rows;
      AheadOf(rows, i) == set j | 0 <= j < i && WaitingOn(rows[j], rows[i].day)
  {
    JoinOrderOverRuns(z, settings, steps);
    AheadMeansEarlier(Run(Empty(z, settings), steps), i);
  }
}
