/** The waitlist and table rules of one branch as functions from a stored state to the next.
    A row's id is its position: rows are only ever appended. */
module Rules {
  import opened Text
  import opened Calendar

  // ------------------------------------------------------------------ stored state

  datatype Status = Waiting | Called | Seated | Done | NoShow | Cancelled

  datatype TableStatus = Available | Occupied | Cleaning

  datatype Reason = Customer | Staff | ClosedDay

  datatype Row = Row(day: string, prefix: string, serial: nat, number: string, fullNumber: string,
                     name: string, phone: string, partySize: int, note: Option<string>,
                     status: Status, sortOrder: nat, hold: Option<nat>, reason: Option<Reason>, table: Option<nat>,
                     createdAt: Instant, calledAt: Option<Instant>, seatedAt: Option<Instant>,
                     closedAt: Option<Instant>)

  datatype Table = Table(title: string, status: TableStatus, active: bool)

  datatype Settings = Settings(hold: nat, prefix: string, open: bool)

  datatype State = State(zone: Zone, settings: Settings, rows: seq<Row>, tables: seq<Table>)

  datatype Error =
    | WaitlistClosed | DuplicatePhone | WaitlistNotFound | InvalidStatus
    | TableNotFound | TableNotAvailable | Conflict | ValidationError

  datatype Reply = Ok | Refused(error: Error)

  datatype Outcome = Outcome(after: State, reply: Reply)

  /** What bootstrapping leaves: the branch and its settings, no table and no guest. */
  function Empty(z: Zone, settings: Settings): State { State(z, settings, [], []) }

  function Refuse(s: State, e: Error): Outcome { Outcome(s, Refused(e)) }

  function Put(s: State, id: nat, r: Row): State
    requires id < |s.rows|
  {
    s.(rows := s.rows[id := r])
  }

  function SetTable(s: State, t: nat, status: TableStatus): State
    requires t < |s.tables|
  {
    s.(tables := s.tables[t := s.tables[t].(status := status)])
  }

  predicate Active(r: Row) { r.status in {Waiting, Called, Seated} }

  predicate Letters(p: string) { 1 <= |p| <= 3 && forall i :: 0 <= i < |p| ==> 'A' <= p[i] <= 'Z' }

  // ------------------------------------------------------------------ joining

  predicate PhoneTaken(rows: seq<Row>, day: string, digits: string) {
    exists i :: 0 <= i < |rows| && rows[i].day == day && Active(rows[i]) && Digits(rows[i].phone) == digits
  }

  /** The highest `seq` under one day and prefix, 0 when there is none. */
  function TopSeq(rows: seq<Row>, day: string, prefix: string): nat {
    if rows == [] then 0
    else
      var n := |rows| - 1;
      var top := TopSeq(rows[..n], day, prefix);
      if rows[n].day == day && rows[n].prefix == prefix && rows[n].serial > top then rows[n].serial else top
  }

  /** The highest `sort_order` on any row, 0 when there is none. */
  function TopSortOrder(rows: seq<Row>): nat {
    if rows == [] then 0
    else
      var n := |rows| - 1;
      var top := TopSortOrder(rows[..n]);
      if rows[n].sortOrder > top then rows[n].sortOrder else top
  }

  function QueueNumber(prefix: string, k: nat): string { prefix + Padded(k, 3) }

  /** `s.replace("-", "")`. */
  function Dashless(s: string): string {
    if s == [] then [] else (if s[0] == '-' then [] else [s[0]]) + Dashless(s[1..])
  }

  function FullQueueNumber(prefix: string, day: string, k: nat): string {
    prefix + ("-" + (Dashless(day) + ("-" + Padded(k, 3))))
  }

  function Ticket(s: State, name: string, phone: string, partySize: int, note: Option<string>, now: Instant): Row {
    var day := BusinessDate(s.zone, now);
    var prefix := s.settings.prefix;
    var k := TopSeq(s.rows, day, prefix) + 1;
    var typed := Strip(phone);
    var remark := if note.Some? then Strip(note.value) else "";
    Row(day, prefix, k, QueueNumber(prefix, k), FullQueueNumber(prefix, day, k),
        Strip(name), if typed == "" then Digits(phone) else typed, partySize,
        if remark == "" then None else Some(remark),
        Waiting, TopSortOrder(s.rows) + 1, None, None, None, now, None, None, None)
  }

  function Join(s: State, name: string, phone: string, partySize: int, note: Option<string>, now: Instant): Outcome {
    if !s.settings.open then Refuse(s, WaitlistClosed)
    else if PhoneTaken(s.rows, BusinessDate(s.zone, now), Digits(phone)) then Refuse(s, DuplicatePhone)
    else Outcome(s.(rows := s.rows + [Ticket(s, name, phone, partySize, note, now)]), Ok)
  }

  // ------------------------------------------------------------------ staff and guest actions on one row

  function Call(s: State, id: nat, now: Instant): Outcome {
    if id >= |s.rows| then Refuse(s, WaitlistNotFound)
    else if s.rows[id].status != Waiting then Refuse(s, InvalidStatus)
    else Outcome(Put(s, id, s.rows[id].(status := Called, calledAt := Some(now), hold := Some(s.settings.hold))), Ok)
  }

  function Seat(s: State, id: nat, t: nat, now: Instant): Outcome {
    if id >= |s.rows| then Refuse(s, WaitlistNotFound)
    else if t >= |s.tables| then Refuse(s, TableNotFound)
    else if s.tables[t].status != Available || !s.tables[t].active then Refuse(s, TableNotAvailable)
    else if s.rows[id].status !in {Waiting, Called} then Refuse(s, InvalidStatus)
    else
      var seated := s.rows[id].(status := Seated, seatedAt := Some(now), table := Some(t));
      Outcome(SetTable(Put(s, id, seated), t, Occupied), Ok)
  }

  /** `release_held_table`: the row's own table goes back to AVAILABLE and the row lets go of it. */
  function ReleaseHeld(s: State, id: nat): State
    requires id < |s.rows|
  {
    match s.rows[id].table
    case None => s
    case Some(t) =>
      var freed := if t < |s.tables| then SetTable(s, t, Available) else s;
      Put(freed, id, s.rows[id].(table := None))
  }

  function CloseEntry(s: State, id: nat, status: Status, now: Instant): State
    requires id < |s.rows|
  {
    ReleaseHeld(Put(s, id, s.rows[id].(status := status, closedAt := Some(now))), id)
  }

  function StaffNoShow(s: State, id: nat, now: Instant): Outcome {
    if id >= |s.rows| then Refuse(s, WaitlistNotFound)
    else if !Active(s.rows[id]) then Refuse(s, InvalidStatus)
    else Outcome(CloseEntry(s, id, NoShow, now), Ok)
  }

  function Restore(s: State, id: nat, now: Instant): Outcome {
    if id >= |s.rows| then Refuse(s, WaitlistNotFound)
    else if s.rows[id].status != NoShow then Refuse(s, InvalidStatus)
    else Outcome(Put(s, id, s.rows[id].(status := Waiting, calledAt := None, closedAt := None, hold := None)), Ok)
  }

  function Revert(s: State, id: nat, now: Instant): Outcome {
    if id >= |s.rows| then Refuse(s, WaitlistNotFound)
    else if s.rows[id].status != Called then Refuse(s, InvalidStatus)
    else Outcome(Put(s, id, s.rows[id].(status := Waiting, calledAt := None, hold := None)), Ok)
  }

  function StaffCancel(s: State, id: nat, now: Instant): Outcome {
    if id >= |s.rows| then Refuse(s, WaitlistNotFound)
    else if !Active(s.rows[id]) then Refuse(s, InvalidStatus)
    else Outcome(CloseEntry(Put(s, id, s.rows[id].(reason := Some(Staff))), id, Cancelled, now), Ok)
  }

  function GuestCancel(s: State, id: nat, now: Instant): Outcome {
    if id >= |s.rows| then Refuse(s, WaitlistNotFound)
    else if s.rows[id].status !in {Waiting, Called} then Refuse(s, InvalidStatus)
    else Outcome(Put(s, id, s.rows[id].(status := Cancelled, reason := Some(Customer), closedAt := Some(now))), Ok)
  }

  /** Only a field that the body carries with a value is written; the party size is bounded first. */
  function Edit(s: State, id: nat, partySize: Option<int>, note: Option<string>): Outcome {
    if partySize.Some? && !(1 <= partySize.value <= 20) then Refuse(s, ValidationError)
    else if id >= |s.rows| then Refuse(s, WaitlistNotFound)
    else if s.rows[id].status !in {Waiting, Called} then Refuse(s, InvalidStatus)
    else
      var r := s.rows[id];
      Outcome(Put(s, id, r.(partySize := if partySize.Some? then partySize.value else r.partySize,
                            note := if note.Some? then note else r.note)), Ok)
  }

  // ------------------------------------------------------------------ the hold countdown

  /** `int(a / b)`: quotient truncated toward zero. */
  function Truncated(a: int, b: int): int
    requires b > 0
  {
    if a >= 0 then a / b else -(-a / b)
  }

  function RemainingSeconds(r: Row, now: Instant): Option<int> {
    if r.status != Called || r.hold.None? || r.calledAt.None? then None
    else Some(Truncated(r.hold.value * MINUTE - (now - r.calledAt.value), SECOND))
  }

  predicate Expired(r: Row, now: Instant) {
    r.status == Called && r.hold.Some? && r.calledAt.Some? && now >= r.calledAt.value + r.hold.value * MINUTE
  }

  /** `apply_lazy_no_show` on one row; no table is released. */
  function Lapse(r: Row, now: Instant): Row {
    if Expired(r, now) then r.(status := NoShow, closedAt := Some(now)) else r
  }

  /** The staff sweep's guard reads the truncated countdown before the row is asked again. */
  function StaffLapse(r: Row, now: Instant): Row {
    var left := RemainingSeconds(r, now);
    if left.Some? && left.value <= 0 then Lapse(r, now) else r
  }

  function DayLapse(r: Row, day: string, now: Instant): Row { if r.day == day then Lapse(r, now) else r }

  function StaffSweep(s: State, now: Instant): Outcome {
    Outcome(s.(rows := seq(|s.rows|, i requires 0 <= i < |s.rows| => StaffLapse(s.rows[i], now))), Ok)
  }

  function DaySweep(s: State, day: string, now: Instant): State {
    s.(rows := seq(|s.rows|, i requires 0 <= i < |s.rows| => DayLapse(s.rows[i], day, now)))
  }

  /** The guest's status read: the lazy no-show on that one row. */
  function StatusRead(s: State, id: nat, now: Instant): Outcome {
    if id >= |s.rows| then Refuse(s, WaitlistNotFound)
    else Outcome(Put(s, id, Lapse(s.rows[id], now)), Ok)
  }

  // ------------------------------------------------------------------ days

  predicate HasRowsOn(rows: seq<Row>, day: string) { exists i :: 0 <= i < |rows| && rows[i].day == day }

  /** The last `business_date` in text order. */
  function NewestDay(rows: seq<Row>): string
    requires rows != []
  {
    var n := |rows| - 1;
    if n == 0 then rows[0].day
    else
      var best := NewestDay(rows[..n]);
      if TextBefore(best, rows[n].day) then rows[n].day else best
  }

  /** `_queue_day`: the clock's day when it holds a row or nothing does, otherwise the newest day that does. */
  function QueueDay(s: State, now: Instant): string {
    var day := BusinessDate(s.zone, now);
    if HasRowsOn(s.rows, day) || s.rows == [] then day else NewestDay(s.rows)
  }

  /** 2026-09-10T13:00Z, the instant the dashboard falls back on. */
  const FIXTURE_INSTANT: Instant := 739_868 * DAY + 13 * HOUR

  /** `_read_day`: the clock's day, else the fixture's, else the newest, whichever first holds a row. */
  function ReadDay(s: State, now: Instant): string {
    var day := BusinessDate(s.zone, now);
    if HasRowsOn(s.rows, day) then day
    else if HasRowsOn(s.rows, BusinessDate(s.zone, FIXTURE_INSTANT)) then BusinessDate(s.zone, FIXTURE_INSTANT)
    else if s.rows == [] then day else NewestDay(s.rows)
  }

  function DashboardRead(s: State, now: Instant): Outcome { Outcome(DaySweep(s, ReadDay(s, now), now), Ok) }

  // ------------------------------------------------------------------ reordering

  /** The ids of a day's WAITING, CALLED and SEATED rows. */
  function ActiveIds(rows: seq<Row>, day: string): set<nat> {
    set i | 0 <= i < |rows| && rows[i].day == day && Active(rows[i])
  }

  function IndexOf(ids: seq<nat>, id: nat): (k: nat)
    requires id in ids
    ensures k < |ids| && ids[k] == id
  {
    if ids[0] == id then 0 else 1 + IndexOf(ids[1..], id)
  }

  /** `ordered_ids` must name exactly the day's active rows; they are then numbered 1..n. */
  function Reorder(s: State, ids: seq<nat>, wall: Instant): Outcome {
    if multiset(ids) != multiset(ActiveIds(s.rows, QueueDay(s, wall))) then Refuse(s, Conflict)
    else Outcome(s.(rows := Renumbered(s.rows, ids)), Ok)
  }

  function Renumbered(rows: seq<Row>, ids: seq<nat>): seq<Row> {
    seq(|rows|, i requires 0 <= i < |rows| => if i in ids then rows[i].(sortOrder := IndexOf(ids, i) + 1) else rows[i])
  }

  // ------------------------------------------------------------------ closing the day

  function CloseRow(r: Row, day: string, now: Instant): Row {
    if r.day != day || !Active(r) then r
    else if r.status == Seated then r.(status := Done, closedAt := Some(now))
    else r.(status := Cancelled, reason := Some(ClosedDay), closedAt := Some(now))
  }

  function CleanTable(t: Table): Table { if t.active && t.status == Occupied then t.(status := Cleaning) else t }

  /** `now` stamps the rows; the day is read off the service's own clock `wall`. */
  function CloseDay(s: State, now: Instant, wall: Instant): Outcome {
    var day := QueueDay(s, wall);
    Outcome(s.(rows := seq(|s.rows|, i requires 0 <= i < |s.rows| => CloseRow(s.rows[i], day, now)),
               tables := seq(|s.tables|, t requires 0 <= t < |s.tables| => CleanTable(s.tables[t]))), Ok)
  }

  // ------------------------------------------------------------------ tables

  predicate HoldsTable(r: Row, t: nat) { r.status == Seated && r.table == Some(t) }

  predicate Held(rows: seq<Row>, t: nat) { exists i :: 0 <= i < |rows| && HoldsTable(rows[i], t) }

  /** The first SEATED row on a table. */
  function PartyOn(rows: seq<Row>, t: nat): (id: nat)
    requires Held(rows, t)
    ensures id < |rows| && HoldsTable(rows[id], t)
  {
    if HoldsTable(rows[0], t) then 0 else
      HeldTail(rows, t);
      1 + PartyOn(rows[1..], t)
  }

  lemma HeldTail(rows: seq<Row>, t: nat)
    requires Held(rows, t) && !HoldsTable(rows[0], t)
    ensures Held(rows[1..], t)
  {
    var i :| 0 <= i < |rows| && HoldsTable(rows[i], t);
    assert HoldsTable(rows[1..][i - 1], t);
  }

  function Release(s: State, t: nat, now: Instant): Outcome {
    if t >= |s.tables| || !s.tables[t].active then Refuse(s, TableNotFound)
    else if s.tables[t].status != Occupied then Refuse(s, TableNotAvailable)
    else
      var freed := SetTable(s, t, Available);
      if Held(s.rows, t) then
        var id := PartyOn(s.rows, t);
        Outcome(Put(freed, id, s.rows[id].(status := Done, closedAt := Some(now))), Ok)
      else Outcome(freed, Ok)
  }

  /** The staff status PATCH does not look at the status the table has. */
  function PatchTable(s: State, t: nat, status: TableStatus): Outcome {
    if t >= |s.tables| || !s.tables[t].active then Refuse(s, TableNotFound)
    else if status == Occupied then Refuse(s, ValidationError)
    else Outcome(SetTable(s, t, status), Ok)
  }

  /** The admin PATCH of `is_active`, which an occupied table does not refuse. */
  function SetActive(s: State, t: nat, active: bool): Outcome {
    if t >= |s.tables| then Refuse(s, TableNotFound)
    else Outcome(s.(tables := s.tables[t := s.tables[t].(active := active)]), Ok)
  }

  function Retire(s: State, t: nat): Outcome {
    if t >= |s.tables| then Refuse(s, TableNotFound)
    else if s.tables[t].status == Occupied then Refuse(s, Conflict)
    else Outcome(s.(tables := s.tables[t := s.tables[t].(active := false)]), Ok)
  }

  predicate LabelTaken(tables: seq<Table>, title: string) { exists t :: 0 <= t < |tables| && tables[t].title == title }

  function CreateTable(s: State, title: string): Outcome {
    if !(1 <= |title| <= 10) then Refuse(s, ValidationError)
    else if LabelTaken(s.tables, title) then Refuse(s, Conflict)
    else Outcome(s.(tables := s.tables + [Table(title, Available, true)]), Ok)
  }

  datatype SettingsPatch = SettingsPatch(hold: Option<nat>, prefix: Option<string>, open: Option<bool>)

  /** The settings PATCH writes the fields its body names: a hold of 5..15 minutes, a prefix of one to three
      capitals. */
  function UpdateSettings(s: State, patch: SettingsPatch): Outcome {
    if (patch.hold.Some? && !(5 <= patch.hold.value <= 15)) || (patch.prefix.Some? && !Letters(patch.prefix.value)) then
      Refuse(s, ValidationError)
    else
      var now := s.settings;
      Outcome(s.(settings := Settings(if patch.hold.Some? then patch.hold.value else now.hold,
                                      if patch.prefix.Some? then patch.prefix.value else now.prefix,
                                      if patch.open.Some? then patch.open.value else now.open)), Ok)
  }

  // ------------------------------------------------------------------ steps and runs

  datatype Step =
    | DoJoin(name: string, phone: string, partySize: int, note: Option<string>, now: Instant)
    | DoCall(id: nat, now: Instant)
    | DoSeat(id: nat, t: nat, now: Instant)
    | DoNoShow(id: nat, now: Instant)
    | DoRestore(id: nat, now: Instant)
    | DoRevert(id: nat, now: Instant)
    | DoStaffCancel(id: nat, now: Instant)
    | DoGuestCancel(id: nat, now: Instant)
    | DoEdit(id: nat, party: Option<int>, remark: Option<string>, now: Instant)
    | DoStatusRead(id: nat, now: Instant)
    | DoStaffSweep(now: Instant)
    | DoDashboard(now: Instant)
    | DoReorder(ids: seq<nat>, now: Instant)
    | DoCloseDay(now: Instant, wall: Instant)
    | DoRelease(t: nat, now: Instant)
    | DoPatchTable(t: nat, status: TableStatus, now: Instant)
    | DoSetActive(t: nat, active: bool, now: Instant)
    | DoRetire(t: nat, now: Instant)
    | DoCreateTable(title: string, now: Instant)
    | DoSettings(patch: SettingsPatch, now: Instant)

  function Apply(s: State, step: Step): Outcome {
    match step
    case DoJoin(name, phone, partySize, note, now) => Join(s, name, phone, partySize, note, now)
    case DoCall(id, now) => Call(s, id, now)
    case DoSeat(id, t, now) => Seat(s, id, t, now)
    case DoNoShow(id, now) => StaffNoShow(s, id, now)
    case DoRestore(id, now) => Restore(s, id, now)
    case DoRevert(id, now) => Revert(s, id, now)
    case DoStaffCancel(id, now) => StaffCancel(s, id, now)
    case DoGuestCancel(id, now) => GuestCancel(s, id, now)
    case DoEdit(id, party, remark, _) => Edit(s, id, party, remark)
    case DoStatusRead(id, now) => StatusRead(s, id, now)
    case DoStaffSweep(now) => StaffSweep(s, now)
    case DoDashboard(now) => DashboardRead(s, now)
    case DoReorder(ids, now) => Reorder(s, ids, now)
    case DoCloseDay(now, wall) => CloseDay(s, now, wall)
    case DoRelease(t, now) => Release(s, t, now)
    case DoPatchTable(t, status, _) => PatchTable(s, t, status)
    case DoSetActive(t, active, _) => SetActive(s, t, active)
    case DoRetire(t, _) => Retire(s, t)
    case DoCreateTable(title, _) => CreateTable(s, title)
    case DoSettings(patch, _) => UpdateSettings(s, patch)
  }

  function Next(s: State, step: Step): State { Apply(s, step).after }

  function Run(s: State, steps: seq<Step>): State {
    if steps == [] then s else Next(Run(s, steps[..|steps| - 1]), steps[|steps| - 1])
  }

  /** Every step of a run meets `ok` in the state it finds. */
  predicate Along(s: State, steps: seq<Step>, ok: (State, Step) -> bool) {
    steps == [] ||
    (var n := |steps| - 1; Along(s, steps[..n], ok) && ok(Run(s, steps[..n]), steps[n]))
  }
}
