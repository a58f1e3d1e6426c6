/** What the status of a row says about its other columns, and how rows may move. */
module Lifecycle {
  import opened Text
  import opened Calendar
  import opened Rules

  // ------------------------------------------------------------------ the shape of each status

  predicate Shaped(r: Row) {
    && (r.table.Some? <==> r.status in {Seated, Done})
    && (r.closedAt.Some? <==> r.status in {Done, NoShow, Cancelled})
    && (r.reason.Some? <==> r.status == Cancelled)
    && (r.status == Called ==> r.calledAt.Some?)
    && (r.status == Waiting ==> r.calledAt.None?)
    && (r.calledAt.Some? <==> r.hold.Some?)
    && (r.status in {Seated, Done} ==> r.seatedAt.Some?)
  }

  predicate AllShaped(s: State) { forall i :: 0 <= i < |s.rows| ==> Shaped(s.rows[i]) }

  // ------------------------------------------------------------------ the moves

  /** The transitions of the product's status table. */
  predicate Edge(x: Status, y: Status) {
    match x
    case Waiting => y in {Called, Seated, NoShow, Cancelled}
    case Called => y in {Waiting, Seated, NoShow, Cancelled}
    case Seated => y in {Done, NoShow, Cancelled}
    case NoShow => y == Waiting
    case Done => false
    case Cancelled => false
  }

  /** The columns written once, at the join. */
  predicate SameGuest(a: Row, b: Row) {
    && a.day == b.day && a.prefix == b.prefix && a.serial == b.serial && a.number == b.number
    && a.fullNumber == b.fullNumber && a.name == b.name && a.phone == b.phone && a.createdAt == b.createdAt
  }

  predicate Closed(st: Status) { st in {Done, NoShow, Cancelled} }

  /** The instant a step stamps rows with. */
  function Clock(step: Step): Instant { step.now }

  function CancelledBy(step: Step): Reason {
    match step
    case DoGuestCancel(_, _) => Customer
    case DoCloseDay(_, _) => ClosedDay
    case _ => Staff
  }

  /** The edges each kind of step can take. */
  predicate Lands(step: Step, x: Status, y: Status) {
    match step
    case DoCall(_, _) => x == Waiting && y == Called
    case DoSeat(_, _, _) => y == Seated
    case DoRestore(_, _) => x == NoShow && y == Waiting
    case DoRevert(_, _) => x == Called && y == Waiting
    case DoStaffCancel(_, _) => y == Cancelled
    case DoGuestCancel(_, _) => y == Cancelled
    case DoNoShow(_, _) => y == NoShow
    case DoStatusRead(_, _) => x == Called && y == NoShow
    case DoStaffSweep(_) => x == Called && y == NoShow
    case DoDashboard(_) => x == Called && y == NoShow
    case DoCloseDay(_, _) => y == if x == Seated then Done else Cancelled
    case DoRelease(_, _) => x == Seated && y == Done
    case _ => false
  }

  /** How one row may change in one step: nothing; an editable column of a live row; or one edge of the
      status table with exactly the stamps that edge calls for. */
  predicate LegalMove(a: Row, b: Row, step: Step, hold: nat) {
    && SameGuest(a, b)
    && (a.status == b.status ==>
          && (a == b || Active(a))
          && a == b.(partySize := a.partySize, note := a.note, sortOrder := a.sortOrder))
    && (a.status != b.status ==>
          && Edge(a.status, b.status) && Lands(step, a.status, b.status)
          && b.partySize == a.partySize && b.note == a.note && b.sortOrder == a.sortOrder
          && Stamped(a, b, Clock(step), hold)
          && b.reason == (if b.status == Cancelled then Some(CancelledBy(step)) else a.reason)
          && LetsGo(a, b))
  }

  /** The timestamps and the hold an edge writes; every other stamp stays. */
  predicate Stamped(a: Row, b: Row, now: Instant, hold: nat) {
    && b.closedAt == (if Closed(b.status) then Some(now) else if a.status == NoShow then None else a.closedAt)
    && b.calledAt == (if b.status == Called then Some(now) else if b.status == Waiting then None else a.calledAt)
    && b.hold == (if b.status == Called then Some(hold) else if b.status == Waiting then None else a.hold)
    && b.seatedAt == (if b.status == Seated then Some(now) else a.seatedAt)
  }

  /** A seating takes a table, a party that finishes keeps its table on record, any other row leaving
      SEATED lets go of it, and no other edge takes one. */
  predicate LetsGo(a: Row, b: Row) {
    && (b.status == Seated ==> b.table.Some?)
    && (b.status == Done ==> b.table == a.table)
    && (a.status == Seated && b.status != Done ==> b.table == None)
    && (b.status !in {Seated, Done} ==> b.table in {None, a.table})
  }

  predicate LegalRows(before: seq<Row>, after: seq<Row>, step: Step, hold: nat) {
    |before| <= |after| && forall i :: 0 <= i < |before| ==> LegalMove(before[i], after[i], step, hold)
  }

  predicate OneRowStep(step: Step) {
    step.DoCall? || step.DoSeat? || step.DoNoShow? || step.DoRestore? || step.DoRevert? || step.DoStaffCancel?
    || step.DoGuestCancel? || step.DoEdit? || step.DoStatusRead?
  }

  predicate BulkStep(step: Step) { step.DoStaffSweep? || step.DoDashboard? || step.DoReorder? || step.DoCloseDay? }

  predicate JoinOrTableStep(step: Step) { !OneRowStep(step) && !BulkStep(step) }

  /** A step on one row leaves every other row alone. */
  lemma OneRowStepTouchesOneRow(s: State, step: Step)
    requires OneRowStep(step)
    ensures |Next(s, step).rows| == |s.rows|
    ensures forall i :: 0 <= i < |s.rows| && i != step.id ==> Next(s, step).rows[i] == s.rows[i]
    ensures step.id >= |s.rows| ==> Next(s, step) == s
  {
  }

  /** Closing an entry writes its own row in one piece. */
  lemma CloseEntryRow(s: State, id: nat, status: Status, now: Instant)
    requires id < |s.rows|
    ensures CloseEntry(s, id, status, now).rows
         == s.rows[id := s.rows[id].(status := status, closedAt := Some(now), table := None)]
  {
  }

  predicate ClosingStep(step: Step) {
    step.DoNoShow? || step.DoStaffCancel? || step.DoGuestCancel? || step.DoStatusRead?
  }

  lemma ClosedRowMovesLegally(s: State, step: Step)
    requires ClosingStep(step) && step.id < |s.rows|
    ensures LegalMove(s.rows[step.id], Next(s, step).rows[step.id], step, s.settings.hold)
  {
    match step
    case DoNoShow(id, now) => CloseEntryRow(s, id, NoShow, now);
    case DoStaffCancel(id, now) => CloseEntryRow(Put(s, id, s.rows[id].(reason := Some(Staff))), id, Cancelled, now);
    case DoGuestCancel(_, _) =>
    case DoStatusRead(_, _) =>
  }

  lemma ActedRowMovesLegally(s: State, step: Step)
    requires OneRowStep(step) && !ClosingStep(step) && step.id < |s.rows|
    ensures LegalMove(s.rows[step.id], Next(s, step).rows[step.id], step, s.settings.hold)
  {
    match step
    case DoCall(_, _) =>
    case DoSeat(_, _, _) =>
    case DoRestore(_, _) =>
    case DoRevert(_, _) =>
    case DoEdit(_, _, _, _) =>
  }

  lemma OneRowMovesLegally(s: State, step: Step)
    requires OneRowStep(step)
    ensures LegalRows(s.rows, Next(s, step).rows, step, s.settings.hold)
  {
    OneRowStepTouchesOneRow(s, step);
    if step.id < |s.rows| {
      if ClosingStep(step) { ClosedRowMovesLegally(s, step); } else { ActedRowMovesLegally(s, step); }
    }
  }

  lemma BulkRowMovesLegally(r: Row, day: string, now: Instant, wall: Instant, hold: nat)
    ensures LegalMove(r, StaffLapse(r, now), DoStaffSweep(now), hold)
    ensures LegalMove(r, DayLapse(r, day, now), DoDashboard(now), hold)
    ensures LegalMove(r, CloseRow(r, day, now), DoCloseDay(now, wall), hold)
  {
  }

  lemma ReorderTouchesActiveOnly(s: State, ids: seq<nat>, wall: Instant)
    requires multiset(ids) == multiset(ActiveIds(s.rows, QueueDay(s, wall)))
    ensures forall i :: i in ids <==> i in ActiveIds(s.rows, QueueDay(s, wall))
  {
    assert forall i :: i in ids <==> i in multiset(ids);
    var live := ActiveIds(s.rows, QueueDay(s, wall));
    assert forall i :: i in live <==> i in multiset(live);
  }

  lemma RenumberedRowMovesLegally(r: Row, k: nat, step: Step, hold: nat)
    ensures Active(r) ==> LegalMove(r, r.(sortOrder := k), step, hold)
    ensures LegalMove(r, r, step, hold)
  {
  }

  lemma ReorderMovesLegally(s: State, step: Step)
    requires step.DoReorder?
    ensures LegalRows(s.rows, Next(s, step).rows, step, s.settings.hold)
  {
    var after := Next(s, step).rows;
    if Apply(s, step).reply.Ok? { ReorderTouchesActiveOnly(s, step.ids, step.now); }
    forall i | 0 <= i < |s.rows| ensures LegalMove(s.rows[i], after[i], step, s.settings.hold) {
      RenumberedRowMovesLegally(s.rows[i], after[i].sortOrder, step, s.settings.hold);
    }
  }

  lemma StaffSweepMovesLegally(s: State, step: Step)
    requires step.DoStaffSweep?
    ensures LegalRows(s.rows, Next(s, step).rows, step, s.settings.hold)
  {
    var now := step.now;
    forall i | 0 <= i < |s.rows|
      ensures LegalMove(s.rows[i], StaffLapse(s.rows[i], now), step, s.settings.hold)
    {
      BulkRowMovesLegally(s.rows[i], s.rows[i].day, now, now, s.settings.hold);
    }
  }

  lemma DashboardMovesLegally(s: State, step: Step)
    requires step.DoDashboard?
    ensures LegalRows(s.rows, Next(s, step).rows, step, s.settings.hold)
  {
    var day, now := ReadDay(s, step.now), step.now;
    forall i | 0 <= i < |s.rows|
      ensures LegalMove(s.rows[i], DayLapse(s.rows[i], day, now), step, s.settings.hold)
    {
      BulkRowMovesLegally(s.rows[i], day, now, now, s.settings.hold);
    }
  }

  lemma CloseDayMovesLegally(s: State, step: Step)
    requires step.DoCloseDay?
    ensures LegalRows(s.rows, Next(s, step).rows, step, s.settings.hold)
  {
    var day, now := QueueDay(s, step.wall), step.now;
    forall i | 0 <= i < |s.rows|
      ensures LegalMove(s.rows[i], CloseRow(s.rows[i], day, now), step, s.settings.hold)
    {
      BulkRowMovesLegally(s.rows[i], day, now, step.wall, s.settings.hold);
    }
  }

  lemma BulkMovesLegally(s: State, step: Step)
    requires BulkStep(step)
    ensures LegalRows(s.rows, Next(s, step).rows, step, s.settings.hold)
  {
    match step
    case DoReorder(_, _) => ReorderMovesLegally(s, step);
    case DoStaffSweep(_) => StaffSweepMovesLegally(s, step);
    case DoDashboard(_) => DashboardMovesLegally(s, step);
    case DoCloseDay(_, _) => CloseDayMovesLegally(s, step);
  }

  lemma JoinOrTableMovesLegally(s: State, step: Step)
    requires JoinOrTableStep(step)
    ensures LegalRows(s.rows, Next(s, step).rows, step, s.settings.hold)
  {
    if step.DoRelease? {
      ReleaseMovesLegally(s, step.t, step.now);
    } else {
      assert Next(s, step).rows == s.rows || (step.DoJoin? && Next(s, step).rows[..|s.rows|] == s.rows);
    }
  }

  lemma ReleaseMovesLegally(s: State, t: nat, now: Instant)
    ensures LegalRows(s.rows, Release(s, t, now).after.rows, DoRelease(t, now), s.settings.hold)
  {
  }

  /** Whatever the step, every row it finds moves legally. */
  lemma StepMovesLegally(s: State, step: Step)
    ensures LegalRows(s.rows, Next(s, step).rows, step, s.settings.hold)
  {
    if OneRowStep(step) { OneRowMovesLegally(s, step); }
    else if BulkStep(step) { BulkMovesLegally(s, step); }
    else { JoinOrTableMovesLegally(s, step); }
  }

  /** Only an accepted join adds a row, a WAITING one at the end. */
  lemma OnlyJoinsAppend(s: State, step: Step)
    ensures |Next(s, step).rows| == |s.rows| + (if step.DoJoin? && Apply(s, step).reply.Ok? then 1 else 0)
    ensures step.DoJoin? && Apply(s, step).reply.Ok? ==>
              Next(s, step).rows == s.rows + [Ticket(s, step.name, step.phone, step.partySize, step.note, step.now)]
  {
  }

  /** A refused step changes nothing at all. */
  lemma RefusalsChangeNothing(s: State, step: Step)
    ensures Apply(s, step).reply.Refused? ==> Next(s, step) == s
  {
  }

  lemma StepKeepsSettings(s: State, step: Step)
    ensures Next(s, step).zone == s.zone
    ensures !step.DoSettings? ==> Next(s, step).settings == s.settings
  {
  }

  // ------------------------------------------------------------------ consequences over runs

  lemma LegalMoveKeepsShape(a: Row, b: Row, step: Step, hold: nat)
    requires Shaped(a) && LegalMove(a, b, step, hold)
    ensures Shaped(b)
  {
  }

  lemma StepKeepsShape(s: State, step: Step)
    requires AllShaped(s)
    ensures AllShaped(Next(s, step))
  {
    StepMovesLegally(s, step);
    OnlyJoinsAppend(s, step);
    forall i | 0 <= i < |s.rows| ensures Shaped(Next(s, step).rows[i]) {
      LegalMoveKeepsShape(s.rows[i], Next(s, step).rows[i], step, s.settings.hold);
    }
  }

  /** Every row of every reachable store has the shape of its status. */
  lemma {:induction false} ReachableRowsAreShaped(z: Zone, settings: Settings, steps: seq<Step>)
    ensures AllShaped(Run(Empty(z, settings), steps))
  {
    if steps != [] {
      var n := |steps| - 1;
      ReachableRowsAreShaped(z, settings, steps[..n]);
      StepKeepsShape(Run(Empty(z, settings), steps[..n]), steps[n]);
    }
  }

  /** Rows are only ever appended and a row keeps its guest for good. */
  lemma {:induction false} RunKeepsGuests(s: State, steps: seq<Step>, i: nat)
    requires i < |s.rows|
    ensures i < |Run(s, steps).rows| && SameGuest(s.rows[i], Run(s, steps).rows[i])
  {
    if steps != [] {
      var n := |steps| - 1;
      RunKeepsGuests(s, steps[..n], i);
      StepMovesLegally(Run(s, steps[..n]), steps[n]);
    }
  }

  /** DONE and CANCELLED are terminal, and a terminal row is never written again by any run. */
  lemma {:induction false} TerminalRowsAreFrozen(s: State, steps: seq<Step>, i: nat)
    requires i < |s.rows| && s.rows[i].status in {Done, Cancelled}
    ensures i < |Run(s, steps).rows| && Run(s, steps).rows[i] == s.rows[i]
  {
    if steps != [] {
      var n := |steps| - 1;
      TerminalRowsAreFrozen(s, steps[..n], i);
      StepMovesLegally(Run(s, steps[..n]), steps[n]);
    }
  }

  // ------------------------------------------------------------------ two actors, one effect

  /** On a reachable call past its hold, the lazy no-show is the staff no-show, store and all. */
  lemma LazyNoShowIsStaffNoShow(s: State, id: nat, now: Instant)
    requires AllShaped(s) && id < |s.rows| && Expired(s.rows[id], now)
    ensures StatusRead(s, id, now) == StaffNoShow(s, id, now)
    ensures s.rows[id].status != StatusRead(s, id, now).after.rows[id].status == NoShow
  {
    var closed := Put(s, id, s.rows[id].(status := NoShow, closedAt := Some(now)));
    assert closed.rows[id].table == None;
  }

  /** Guest and staff cancel of a WAITING or CALLED row differ in the reason and nowhere else. */
  lemma CancelsDifferInReasonOnly(s: State, id: nat, now: Instant)
    requires AllShaped(s) && id < |s.rows| && s.rows[id].status in {Waiting, Called}
    ensures GuestCancel(s, id, now).reply == StaffCancel(s, id, now).reply == Ok
    ensures
      var guest, staff := GuestCancel(s, id, now).after, StaffCancel(s, id, now).after;
      guest.rows[id].reason == Some(Customer) && staff == Put(guest, id, guest.rows[id].(reason := Some(Staff)))
  {
    var marked := Put(s, id, s.rows[id].(reason := Some(Staff)));
    var closed := Put(marked, id, marked.rows[id].(status := Cancelled, closedAt := Some(now)));
    assert closed.rows[id].table == None;
    var guest := GuestCancel(s, id, now).after;
    assert Put(guest, id, guest.rows[id].(reason := Some(Staff))).rows == closed.rows;
  }

  // ------------------------------------------------------------------ what one call undoes

  /** Reverting a call gives the store back as it was. */
  lemma CallThenRevert(s: State, id: nat, calledAt: Instant, now: Instant)
    requires AllShaped(s) && Call(s, id, calledAt).reply.Ok?
    ensures Revert(Call(s, id, calledAt).after, id, now) == Outcome(s, Ok)
  {
    assert Shaped(s.rows[id]);
  }

  /** Restoring a no-show gives a WAITING guest's store back as it was, and any other guest a place in the
      queue with neither call nor table. */
  lemma NoShowThenRestore(s: State, id: nat, leftAt: Instant, now: Instant)
    requires AllShaped(s) && StaffNoShow(s, id, leftAt).reply.Ok?
    ensures
      var back := Restore(StaffNoShow(s, id, leftAt).after, id, now);
      && back.reply.Ok?
      && (s.rows[id].status == Waiting ==> back.after == s)
      && back.after.rows == s.rows[id := s.rows[id].(status := Waiting, calledAt := None, hold := None, table := None)]
  {
    assert Shaped(s.rows[id]);
    CloseEntryRow(s, id, NoShow, leftAt);
  }

  function Later<T>(first: Option<T>, second: Option<T>): Option<T> { if second.Some? then second else first }

  /** Two edits are the one edit that carries the later value of each field; an edit of nothing is none. */
  lemma EditsCompose(s: State, id: nat, p: Option<int>, n: Option<string>, p': Option<int>, n': Option<string>)
    requires Edit(s, id, p, n).reply.Ok? && Edit(Edit(s, id, p, n).after, id, p', n').reply.Ok?
    ensures Edit(Edit(s, id, p, n).after, id, p', n') == Edit(s, id, Later(p, p'), Later(n, n'))
    ensures Edit(s, id, None, None) == Outcome(s, Ok)
  {
  }
}
