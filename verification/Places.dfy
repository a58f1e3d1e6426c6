/** The place a restored guest comes back to: what a restore promises, when it holds, and how long. */
module Places {
  import opened Text
  import opened Calendar
  import opened Rules
  import opened Lifecycle
  import opened Ranks
  import opened Reordering
  import Phones

  // ------------------------------------------------------------------ the promise

  /** In front of the WAITING guests of the day who joined later, behind those who joined earlier. */
  predicate InJoinPlace(rows: seq<Row>, id: nat)
    requires id < |rows|
  {
    forall j: nat :: j < |rows| && j != id && WaitingOn(rows[j], rows[id].day) ==>
      if id < j then WaitingAhead(rows, id) < WaitingAhead(rows, j) else WaitingAhead(rows, j) < WaitingAhead(rows, id)
  }

  /** The row's number lies between those of the day's earlier and later WAITING guests. */
  predicate NumberedInJoinPlace(rows: seq<Row>, id: nat)
    requires id < |rows|
  {
    forall j: nat :: j < |rows| && j != id && WaitingOn(rows[j], rows[id].day) ==>
      if id < j then rows[id].sortOrder < rows[j].sortOrder else rows[j].sortOrder < rows[id].sortOrder
  }

  /** Between two WAITING guests of a day the lower number has fewer ahead, and only it. */
  lemma RankIsOrder(s: State, i: nat, j: nat)
    requires i < |s.rows| && j < |s.rows| && s.rows[i].day == s.rows[j].day
    requires s.rows[i].status == s.rows[j].status == Waiting
    ensures WaitingAhead(s.rows, i) < WaitingAhead(s.rows, j) <==> s.rows[i].sortOrder < s.rows[j].sortOrder
  {
    if s.rows[i].sortOrder < s.rows[j].sortOrder {
      RankFollowsOrder(s, i, j);
    } else {
      SubsetSize(AheadOf(s.rows, j), AheadOf(s.rows, i));
    }
  }

  /** A restore lands the guest in its place if and only if the number it kept still lies between those of the
      guests who joined before and after it. */
  lemma RestorePlaceExactly(s: State, id: nat, now: Instant)
    requires Restore(s, id, now).reply.Ok?
    ensures InJoinPlace(Restore(s, id, now).after.rows, id) <==> NumberedInJoinPlace(s.rows, id)
  {
    var s' := Restore(s, id, now).after;
    forall j: nat | j < |s.rows| && j != id && WaitingOn(s.rows[j], s.rows[id].day)
      ensures WaitingAhead(s'.rows, id) < WaitingAhead(s'.rows, j) <==> s.rows[id].sortOrder < s.rows[j].sortOrder
      ensures WaitingAhead(s'.rows, j) < WaitingAhead(s'.rows, id) <==> s.rows[j].sortOrder < s.rows[id].sortOrder
    {
      RankIsOrder(s', id, j);
      RankIsOrder(s', j, id);
    }
  }

  // ------------------------------------------------------------------ between two reorders

  /** Old rows keep their numbers and later ones get higher ones. */
  predicate OrdersStay(before: seq<Row>, after: seq<Row>) {
    && |before| <= |after|
    && (forall i: nat :: i < |before| ==> after[i].sortOrder == before[i].sortOrder && after[i].day == before[i].day)
    && (forall i: nat, j: nat :: i < j < |after| && |before| <= j ==> after[i].sortOrder < after[j].sortOrder)
  }

  lemma StepKeepsOrders(before: seq<Row>, s: State, step: Step)
    requires OrdersStay(before, s.rows) && !step.DoReorder?
    ensures OrdersStay(before, Next(s, step).rows)
  {
    if step.DoJoin? {
      OnlyJoinsAppend(s, step);
      forall i: nat | i < |s.rows| ensures s.rows[i].sortOrder <= TopSortOrder(s.rows) { TopSortOrderIsTop(s.rows, i); }
    } else {
      OthersKeepOrders(s, step);
    }
  }

  lemma {:induction false} OrdersStayBetweenReorders(s: State, steps: seq<Step>)
    requires Along(s, steps, NotReorder)
    ensures OrdersStay(s.rows, Run(s, steps).rows)
  {
    if steps != [] {
      var n := |steps| - 1;
      OrdersStayBetweenReorders(s, steps[..n]);
      StepKeepsOrders(s.rows, Run(s, steps[..n]), steps[n]);
    }
  }

  /** From any store on, until the next reorder, a guest, gone and restored meanwhile or not, waits behind
      exactly the WAITING guests of the day who had a lower number at the start: nobody who joins passes it. */
  lemma PlaceHoldsBetweenReorders(s: State, steps: seq<Step>, i: nat)
    requires Along(s, steps, NotReorder) && i < |s.rows| <= |Run(s, steps).rows|
    ensures
      var rows := Run(s, steps).rows;
      AheadOf(rows, i) == set j | 0 <= j < |s.rows| && WaitingOn(rows[j], s.rows[i].day)
                                  && s.rows[j].sortOrder < s.rows[i].sortOrder
  {
    OrdersStayBetweenReorders(s, steps);
  }

  // ------------------------------------------------------------------ a reorder in between

  /** The number a row has once the queue is renumbered as `ids`. */
  function NumberAfter(s: State, ids: seq<nat>, j: nat): nat
    requires j < |s.rows|
  {
    if j in ids then IndexOf(ids, j) + 1 else s.rows[j].sortOrder
  }

  /** A guest who is away while the queue is renumbered keeps its number k: until the next reorder it comes back
      behind the first k-1 guests of the request and the absent ones with lower numbers, whoever joined first, and
      in front of everybody else. */
  lemma AwayDuringAReorder(s: State, ids: seq<nat>, wall: Instant, steps: seq<Step>, id: nat, j: nat)
    requires Reorder(s, ids, wall).reply.Ok? && Along(Reorder(s, ids, wall).after, steps, NotReorder)
    requires id < |s.rows| && id !in ids
    ensures
      var rows := Run(Reorder(s, ids, wall).after, steps).rows;
      && |s.rows| <= |rows|
      && (j in AheadOf(rows, id) <==>
            j < |s.rows| && WaitingOn(rows[j], s.rows[id].day) && NumberAfter(s, ids, j) < s.rows[id].sortOrder)
  {
    ReorderNumbersTheRequest(s, ids, wall);
    OrdersStayBetweenReorders(Reorder(s, ids, wall).after, steps);
    PlaceHoldsBetweenReorders(Reorder(s, ids, wall).after, steps, id);
  }

  // ------------------------------------------------------------------ a promise broken

  function Arrivals(name: string, phones: seq<string>, now: Instant): seq<Step> {
    seq(|phones|, i requires 0 <= i < |phones| => DoJoin(name, phones[i], 2, None, now))
  }

  predicate PhonesDistinct(phones: seq<string>) {
    forall i, j :: 0 <= i < j < |phones| ==> Digits(phones[i]) != Digits(phones[j])
  }

  /** The queue these guests form: everybody waits, numbered 1 to n as they came. */
  predicate LinedUp(s: State, z: Zone, settings: Settings, phones: seq<string>, now: Instant) {
    && s.zone == z && s.settings == settings && |s.rows| == |phones|
    && forall i :: 0 <= i < |phones| ==>
         && s.rows[i].status == Waiting && s.rows[i].day == BusinessDate(z, now) && s.rows[i].sortOrder == i + 1
         && Digits(s.rows[i].phone) == Digits(phones[i])
  }

  lemma {:induction false} TopOfLine(rows: seq<Row>)
    requires forall i :: 0 <= i < |rows| ==> rows[i].sortOrder == i + 1
    ensures TopSortOrder(rows) == |rows|
  {
    if rows != [] { TopOfLine(rows[..|rows| - 1]); }
  }

  lemma JoinsTheLine(s: State, z: Zone, settings: Settings, phones: seq<string>, name: string, now: Instant)
    requires phones != [] && PhonesDistinct(phones) && settings.open
    requires LinedUp(s, z, settings, phones[..|phones| - 1], now)
    ensures LinedUp(Join(s, name, phones[|phones| - 1], 2, None, now).after, z, settings, phones, now)
  {
    var n := |phones| - 1;
    var guest := Ticket(s, name, phones[n], 2, None, now);
    TopOfLine(s.rows);
    Phones.StoredPhoneNormalizes(s, name, phones[n], 2, None, now);
    assert !PhoneTaken(s.rows, BusinessDate(z, now), Digits(phones[n]));
    assert Join(s, name, phones[n], 2, None, now).after == s.(rows := s.rows + [guest]);
  }

  lemma {:induction false} LineForms(z: Zone, settings: Settings, name: string, phones: seq<string>, now: Instant)
    requires settings.open && PhonesDistinct(phones)
    ensures LinedUp(Run(Empty(z, settings), Arrivals(name, phones, now)), z, settings, phones, now)
  {
    if phones != [] {
      var n := |phones| - 1;
      var steps := Arrivals(name, phones, now);
      LineForms(z, settings, name, phones[..n], now);
      assert steps[..n] == Arrivals(name, phones[..n], now);
      JoinsTheLine(Run(Empty(z, settings), steps[..n]), z, settings, phones, name, now);
    }
  }

  /** Four guests numbered 1 to 4, the middle two gone. */
  predicate MiddleGone(s: State, now: Instant) {
    && |s.rows| == 4
    && forall i :: 0 <= i < 4 ==>
         && s.rows[i].day == BusinessDate(s.zone, now) && s.rows[i].sortOrder == i + 1
         && s.rows[i].status == if i == 1 || i == 2 then NoShow else Waiting
  }

  lemma MiddleGoes(s: State, settings: Settings, phones: seq<string>, now: Instant)
    requires |phones| == 4 && LinedUp(s, s.zone, settings, phones, now)
    ensures MiddleGone(StaffNoShow(StaffNoShow(s, 1, now).after, 2, now).after, now)
  {
    CloseEntryRow(s, 1, NoShow, now);
    CloseEntryRow(StaffNoShow(s, 1, now).after, 2, NoShow, now);
  }

  lemma OuterTwoRenumbered(s: State, now: Instant)
    requires MiddleGone(s, now)
    ensures
      var t := Reorder(s, [0, 3], now).after;
      && Reorder(s, [0, 3], now).reply.Ok? && |t.rows| == 4
      && t.rows[0] == s.rows[0] && t.rows[1] == s.rows[1] && t.rows[2] == s.rows[2]
      && t.rows[3] == s.rows[3].(sortOrder := 2)
  {
    var ids := [0, 3];
    assert HasRowsOn(s.rows, s.rows[0].day);
    assert forall i :: i in ids <==> i in ActiveIds(s.rows, QueueDay(s, now));
    ReorderTakesPermutations(s, ids, now);
    ReorderNumbersTheRequest(s, ids, now);
    assert ids[0] == 0 && ids[1] == 3;
  }

  /** Four guests join, the second and third are no-shows, the queue is compacted to the first and the fourth, and
      the third is restored: its number is still free, and the fourth, who joined after it, is now ahead. */
  lemma RestoreBehindALaterJoiner(z: Zone, settings: Settings, name: string, phones: seq<string>, now: Instant)
    requires settings.open && |phones| == 4 && PhonesDistinct(phones)
    ensures
      var line := Run(Empty(z, settings), Arrivals(name, phones, now));
      var left := StaffNoShow(StaffNoShow(line, 1, now).after, 2, now).after;
      var s := Reorder(left, [0, 3], now).after;
      && Reorder(left, [0, 3], now).reply.Ok? && Restore(s, 2, now).reply.Ok?
      && !OrderTaken(s.rows, s.rows[2].day, s.rows[2].sortOrder)
      && 3 in AheadOf(Restore(s, 2, now).after.rows, 2) && !InJoinPlace(Restore(s, 2, now).after.rows, 2)
  {
    LineForms(z, settings, name, phones, now);
    var line := Run(Empty(z, settings), Arrivals(name, phones, now));
    MiddleGoes(line, settings, phones, now);
    LaterJoinerAhead(StaffNoShow(StaffNoShow(line, 1, now).after, 2, now).after, now);
  }

  lemma LaterJoinerAhead(left: State, now: Instant)
    requires MiddleGone(left, now)
    ensures
      var s := Reorder(left, [0, 3], now).after;
      && Reorder(left, [0, 3], now).reply.Ok? && |s.rows| == 4 && Restore(s, 2, now).reply.Ok?
      && !OrderTaken(s.rows, s.rows[2].day, s.rows[2].sortOrder)
      && 3 in AheadOf(Restore(s, 2, now).after.rows, 2) && !InJoinPlace(Restore(s, 2, now).after.rows, 2)
  {
    OuterTwoRenumbered(left, now);
    var s := Reorder(left, [0, 3], now).after;
    assert left.rows[0].day == left.rows[2].day == left.rows[3].day;
    assert !NumberedInJoinPlace(s.rows, 2) by {
      assert WaitingOn(s.rows[3], s.rows[2].day) && s.rows[3].sortOrder < s.rows[2].sortOrder;
    }
    RestorePlaceExactly(s, 2, now);
  }
}
