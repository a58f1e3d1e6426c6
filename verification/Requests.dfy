/** Requests one by one: which are accepted, what the others are refused with, and what an accepted one writes. */
module Requests {
  import opened Text
  import opened Calendar
  import opened Rules
  import opened Lifecycle
  import opened Reordering

  // ------------------------------------------------------------------ acceptance

  predicate RowIn(s: State, id: nat, statuses: set<Status>) { id < |s.rows| && s.rows[id].status in statuses }

  predicate TableInService(s: State, t: nat) { t < |s.tables| && s.tables[t].active }

  /** A live row of the day has these digits. */
  predicate LiveDigits(s: State, day: string, digits: string) {
    exists i :: 0 <= i < |s.rows| && s.rows[i].day == day && s.rows[i].status in {Waiting, Called, Seated}
                && Digits(s.rows[i].phone) == digits
  }

  /** The request names every live row of the day's queue once, and nothing else. */
  predicate NamesTheQueue(s: State, ids: seq<nat>, day: string) {
    && (forall a, b :: 0 <= a < b < |ids| ==> ids[a] != ids[b])
    && (forall i :: i in ids ==> i < |s.rows|)
    && (forall i :: 0 <= i < |s.rows| ==>
          (i in ids <==> s.rows[i].day == day && s.rows[i].status in {Waiting, Called, Seated}))
  }

  predicate FreeLabel(s: State, title: string) { forall t :: 0 <= t < |s.tables| ==> s.tables[t].title != title }

  /** One to three capitals. */
  predicate GoodPrefix(p: string) { 1 <= |p| <= 3 && forall i :: 0 <= i < |p| ==> 'A' <= p[i] <= 'Z' }

  /** What the product lets each request do: the transitions of the status table and the state of the table. */
  predicate Allowed(s: State, step: Step) {
    match step
    case DoJoin(_, phone, _, _, now) => s.settings.open && !LiveDigits(s, BusinessDate(s.zone, now), Digits(phone))
    case DoCall(id, _) => RowIn(s, id, {Waiting})
    case DoSeat(id, t, _) => RowIn(s, id, {Waiting, Called}) && TableInService(s, t) && s.tables[t].status == Available
    case DoNoShow(id, _) => RowIn(s, id, {Waiting, Called, Seated})
    case DoRestore(id, _) => RowIn(s, id, {NoShow})
    case DoRevert(id, _) => RowIn(s, id, {Called})
    case DoStaffCancel(id, _) => RowIn(s, id, {Waiting, Called, Seated})
    case DoGuestCancel(id, _) => RowIn(s, id, {Waiting, Called})
    case DoEdit(id, party, _, _) => RowIn(s, id, {Waiting, Called}) && (party.Some? ==> 1 <= party.value <= 20)
    case DoStatusRead(id, _) => id < |s.rows|
    case DoStaffSweep(_) => true
    case DoDashboard(_) => true
    case DoReorder(ids, now) => NamesTheQueue(s, ids, QueueDay(s, now))
    case DoCloseDay(_, _) => true
    case DoRelease(t, _) => TableInService(s, t) && s.tables[t].status == Occupied
    case DoPatchTable(t, status, _) => TableInService(s, t) && status in {Available, Cleaning}
    case DoSetActive(t, _, _) => t < |s.tables|
    case DoRetire(t, _) => t < |s.tables| && s.tables[t].status in {Available, Cleaning}
    case DoCreateTable(title, _) => 1 <= |title| <= 10 && FreeLabel(s, title)
    case DoSettings(patch, _) =>
      && (patch.hold.Some? ==> 5 <= patch.hold.value <= 15)
      && (patch.prefix.Some? ==> GoodPrefix(patch.prefix.value))
  }

  /** A request is accepted if and only if the product allows it in the state it finds. */
  lemma AcceptedExactly(s: State, step: Step)
    ensures Apply(s, step).reply.Ok? <==> Allowed(s, step)
  {
    if step.DoReorder? { ReorderTakesPermutations(s, step.ids, step.now); }
  }

  // ------------------------------------------------------------------ refusals

  /** What is wrong with a request: its row or table unknown, its table not to be had, its row in the wrong status,
      a clash with what is stored, or a value out of bounds. */
  predicate UnknownRow(s: State, step: Step) { OneRowStep(step) && step.id >= |s.rows| }

  predicate UnknownTable(s: State, step: Step) {
    match step
    case DoSeat(_, t, _) => t >= |s.tables|
    case DoRelease(t, _) => !TableInService(s, t)
    case DoPatchTable(t, _, _) => !TableInService(s, t)
    case DoSetActive(t, _, _) => t >= |s.tables|
    case DoRetire(t, _) => t >= |s.tables|
    case _ => false
  }

  predicate OutOfBounds(step: Step) {
    match step
    case DoEdit(_, party, _, _) => party.Some? && !(1 <= party.value <= 20)
    case DoCreateTable(title, _) => !(1 <= |title| <= 10)
    case DoSettings(patch, _) =>
      (patch.hold.Some? && !(5 <= patch.hold.value <= 15)) || (patch.prefix.Some? && !GoodPrefix(patch.prefix.value))
    case _ => false
  }

  /** The error a request is refused with, the earlier check winning: for one entry the bounds of the body, the
      row, the table, the table's state and last the row's status; for a table its existence before the value. */
  function Fault(s: State, step: Step): Error
    requires !Allowed(s, step)
  {
    if step.DoPatchTable? then (if UnknownTable(s, step) then TableNotFound else ValidationError)
    else if OutOfBounds(step) then ValidationError
    else if UnknownRow(s, step) then WaitlistNotFound
    else if UnknownTable(s, step) then TableNotFound
    else if step.DoSeat? then
      if s.tables[step.t].active && s.tables[step.t].status == Available then InvalidStatus else TableNotAvailable
    else if OneRowStep(step) then InvalidStatus
    else if step.DoJoin? then (if s.settings.open then DuplicatePhone else WaitlistClosed)
    else if step.DoRelease? then TableNotAvailable
    else Conflict
  }

  /** A refusal names the first check that fails and changes nothing. */
  lemma RefusedExactly(s: State, step: Step)
    requires !Allowed(s, step)
    ensures Apply(s, step) == Outcome(s, Refused(Fault(s, step)))
  {
    AcceptedExactly(s, step);
    RefusalsChangeNothing(s, step);
  }

  // ------------------------------------------------------------------ what an accepted request writes

  /** Where an accepted action on one entry leaves it. */
  function Target(step: Step): Option<Status> {
    match step
    case DoCall(_, _) => Some(Called)
    case DoSeat(_, _, _) => Some(Seated)
    case DoNoShow(_, _) => Some(NoShow)
    case DoRestore(_, _) => Some(Waiting)
    case DoRevert(_, _) => Some(Waiting)
    case DoStaffCancel(_, _) => Some(Cancelled)
    case DoGuestCancel(_, _) => Some(Cancelled)
    case _ => None
  }

  /** An allowed action takes its row to its status, with that edge's stamps, hold and reason. */
  lemma AllowedActionLands(s: State, step: Step)
    requires OneRowStep(step) && Allowed(s, step) && Target(step).Some?
    ensures
      var a, b := s.rows[step.id], Next(s, step).rows[step.id];
      && b.status == Target(step).value && a.status != b.status
      && LegalMove(a, b, step, s.settings.hold)
  {
    AcceptedExactly(s, step);
    StepMovesLegally(s, step);
  }

  /** An allowed seating puts the guest, called or not, at the table it names: row SEATED there and stamped, table
      OCCUPIED, every other row, table and setting as it was. */
  lemma SeatWrites(s: State, id: nat, t: nat, now: Instant)
    requires Allowed(s, DoSeat(id, t, now))
    ensures
      var after := Seat(s, id, t, now).after;
      && after == s.(rows := after.rows, tables := after.tables)
      && after.rows == s.rows[id := s.rows[id].(status := Seated, seatedAt := Some(now), table := Some(t))]
      && |after.tables| == |s.tables| && after.tables[t] == Table(s.tables[t].title, Occupied, true)
      && (forall u :: 0 <= u < |s.tables| && u != t ==> after.tables[u] == s.tables[u])
  {
  }

  /** An allowed edit writes the fields the body names, with the body's values, and no other column or row. */
  lemma EditWrites(s: State, id: nat, party: Option<int>, remark: Option<string>, now: Instant)
    requires Allowed(s, DoEdit(id, party, remark, now))
    ensures
      var after := Edit(s, id, party, remark).after;
      && after == s.(rows := after.rows) && |after.rows| == |s.rows|
      && (forall i :: 0 <= i < |s.rows| && i != id ==> after.rows[i] == s.rows[i])
      && after.rows[id] == s.rows[id].(partySize := after.rows[id].partySize, note := after.rows[id].note)
      && (party.Some? ==> after.rows[id].partySize == party.value)
      && (party.None? ==> after.rows[id].partySize == s.rows[id].partySize)
      && (remark.Some? ==> after.rows[id].note == remark)
      && (remark.None? ==> after.rows[id].note == s.rows[id].note)
  {
  }

  /** An allowed PATCH, retirement or creation of a table writes just that. */
  lemma TableWrites(s: State, step: Step)
    requires Allowed(s, step) && (step.DoPatchTable? || step.DoSetActive? || step.DoRetire? || step.DoCreateTable?)
    ensures
      var after := Next(s, step);
      && after == s.(tables := after.tables)
      && (forall u :: 0 <= u < |s.tables| && (step.DoCreateTable? || u != step.t) ==>
            u < |after.tables| && after.tables[u] == s.tables[u])
      && (if step.DoCreateTable? then
            |after.tables| == |s.tables| + 1 && after.tables[|s.tables|] == Table(step.title, Available, true)
          else
            && |after.tables| == |s.tables| && after.tables[step.t].title == s.tables[step.t].title
            && after.tables[step.t].status == (if step.DoPatchTable? then step.status else s.tables[step.t].status)
            && after.tables[step.t].active
               == (if step.DoPatchTable? then true else step.DoSetActive? && step.active))
  {
  }

  /** An allowed settings PATCH writes the fields its body names and keeps the others. */
  lemma SettingsWrites(s: State, patch: SettingsPatch, now: Instant)
    requires Allowed(s, DoSettings(patch, now))
    ensures
      var after := UpdateSettings(s, patch).after;
      && after == s.(settings := after.settings)
      && (patch.hold.Some? ==> after.settings.hold == patch.hold.value)
      && (patch.hold.None? ==> after.settings.hold == s.settings.hold)
      && (patch.prefix.Some? ==> after.settings.prefix == patch.prefix.value)
      && (patch.prefix.None? ==> after.settings.prefix == s.settings.prefix)
      && (patch.open.Some? ==> after.settings.open == patch.open.value)
      && (patch.open.None? ==> after.settings.open == s.settings.open)
  {
  }

  // ------------------------------------------------------------------ what a join stores

  lemma BlankDigits(s: string)
    requires Strip(s) == []
    ensures Digits(s) == []
  {
    DigitsOfStrip(s);
  }

  /** An allowed join stores the form: name, phone and note trimmed, a blank note none, the party size as given, a
      WAITING row of the clock's day without stamps, under the branch's prefix, one place after the highest used. */
  lemma JoinWrites(s: State, name: string, phone: string, party: int, note: Option<string>, now: Instant)
    requires Allowed(s, DoJoin(name, phone, party, note, now))
    ensures
      var after := Join(s, name, phone, party, note, now).after;
      && after == s.(rows := after.rows) && |after.rows| == |s.rows| + 1 && after.rows[..|s.rows|] == s.rows
      && StoresTheForm(after.rows[|s.rows|], name, phone, party, note, now)
      && after.rows[|s.rows|].day == BusinessDate(s.zone, now) && after.rows[|s.rows|].prefix == s.settings.prefix
      && OneAfterTheHighest(s.rows, after.rows[|s.rows|].sortOrder)
  {
    StripTrims(name);
    StripTrims(phone);
    if note.Some? {
      StripTrims(note.value);
      TrimmedToNothing(Strip(note.value), note.value);
    }
    if Strip(phone) == [] { BlankDigits(phone); }
    TopIsHighest(s.rows);
  }

  predicate StoresTheForm(r: Row, name: string, phone: string, party: int, note: Option<string>, now: Instant) {
    && Trimmed(r.name, name) && Trimmed(r.phone, phone) && r.partySize == party
    && (note.None? ==> r.note.None?)
    && (note.Some? ==> if AllSpaces(note.value) then r.note.None?
                       else r.note.Some? && r.note.value != [] && Trimmed(r.note.value, note.value))
    && r.status == Waiting && r.createdAt == now
    && r.calledAt.None? && r.seatedAt.None? && r.closedAt.None? && r.hold.None? && r.reason.None? && r.table.None?
  }

  predicate OneAfterTheHighest(rows: seq<Row>, k: nat) {
    && (forall i :: 0 <= i < |rows| ==> rows[i].sortOrder < k)
    && (k == 1 || exists i :: 0 <= i < |rows| && rows[i].sortOrder + 1 == k)
  }

  lemma {:induction false} TopIsHighest(rows: seq<Row>)
    ensures OneAfterTheHighest(rows, TopSortOrder(rows) + 1)
  {
    if rows != [] {
      var n := |rows| - 1;
      TopIsHighest(rows[..n]);
      if TopSortOrder(rows[..n]) == TopSortOrder(rows) && TopSortOrder(rows) > 0 {
        var i :| 0 <= i < n && rows[..n][i].sortOrder == TopSortOrder(rows);
        assert rows[i].sortOrder == TopSortOrder(rows);
      }
      forall i | 0 <= i < |rows| ensures rows[i].sortOrder <= TopSortOrder(rows) {
        if i < n { assert rows[..n][i] == rows[i]; }
      }
    }
  }
}
