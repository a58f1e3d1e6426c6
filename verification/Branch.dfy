/** The branch's store and the services that write it in place. */
module Branch {
  import opened Text
  import opened Calendar
  import opened Rules
  import opened Lifecycle
  import opened Parties
  import opened Numbering
  import opened Ranks
  import opened Listing
  import opened Lists
  import opened Reordering
  import opened Closing
  import opened Dashboard

  datatype Counters = Counters(waiting: nat, called: nat, seated: nat, noShow: nat, cancelled: nat,
                               available: nat, occupied: nat, cleaning: nat, average: Option<int>)

  /** What the dashboard shows of a store on a day. */
  function CountersOf(s: State, day: string): Counters {
    Counters(CountOn(s.rows, day, Waiting), CountOn(s.rows, day, Called), CountOn(s.rows, day, Seated),
             CountOn(s.rows, day, NoShow), CountOn(s.rows, day, Cancelled),
             CountTables(s.tables, Available), CountTables(s.tables, Occupied), CountTables(s.tables, Cleaning),
             AverageWait(s.rows, day))
  }

  /** Each counter is the number of the day's rows, or of the active tables, with its status. */
  lemma CountersShow(s: State, day: string)
    ensures
      var shown := CountersOf(s, day);
      && shown.waiting == |StatusIds(s.rows, day, Waiting)| && shown.called == |StatusIds(s.rows, day, Called)|
      && shown.seated == |StatusIds(s.rows, day, Seated)| && shown.noShow == |StatusIds(s.rows, day, NoShow)|
      && shown.cancelled == |StatusIds(s.rows, day, Cancelled)|
      && shown.available == |TableIds(s.tables, Available)| && shown.occupied == |TableIds(s.tables, Occupied)|
      && shown.cleaning == |TableIds(s.tables, Cleaning)|
      && shown.average == AverageWait(s.rows, day)
  {
    CountOnIsSize(s.rows, day, Waiting);
    CountOnIsSize(s.rows, day, Called);
    CountOnIsSize(s.rows, day, Seated);
    CountOnIsSize(s.rows, day, NoShow);
    CountOnIsSize(s.rows, day, Cancelled);
    CountTablesIsSize(s.tables, Available);
    CountTablesIsSize(s.tables, Occupied);
    CountTablesIsSize(s.tables, Cleaning);
  }

  class Store {
    const zone: Zone
    var settings: Settings
    var rows: seq<Row>
    var tables: seq<Table>

    constructor (zone: Zone, settings: Settings)
      ensures View() == Empty(zone, settings)
    {
      this.zone, this.settings := zone, settings;
      rows, tables := [], [];
    }

    function View(): State
      reads this
    {
      State(zone, settings, rows, tables)
    }

    // ---------------------------------------------------------------- the guest half

    /** `active_entry_for_phone`. */
    method FindLivePhone(day: string, digits: string) returns (found: Option<nat>)
      ensures found.Some? <==> PhoneTaken(rows, day, digits)
      ensures found.Some? ==> Live(rows, day, found.value) && Digits(rows[found.value].phone) == digits
    {
      for i := 0 to |rows|
        invariant forall j :: 0 <= j < i ==> !(rows[j].day == day && Active(rows[j]) && Digits(rows[j].phone) == digits)
      {
        if rows[i].day == day && Active(rows[i]) && Digits(rows[i].phone) == digits { return Some(i); }
      }
      return None;
    }

    method JoinWaitlist(name: string, phone: string, partySize: int, note: Option<string>, now: Instant)
      returns (reply: Reply)
      modifies this`rows
      ensures Outcome(View(), reply) == Join(old(View()), name, phone, partySize, note, now)
    {
      if !settings.open { return Refused(WaitlistClosed); }
      var live := FindLivePhone(BusinessDate(zone, now), Digits(phone));
      if live.Some? { return Refused(DuplicatePhone); }
      rows := rows + [Ticket(View(), name, phone, partySize, note, now)];
      return Ok;
    }

    /** `find_entry_by_tail`: the first row that matches, or none. */
    method FindByTail(number: string, last3: string, now: Instant) returns (found: Option<nat>)
      ensures found.Some? ==> found.value < |rows| && TailMatch(View(), found.value, number, last3, now)
      ensures found.Some? ==>
        var r := rows[found.value];
        r.number == number && r.day == BusinessDate(zone, now) && LastThree(Digits(r.phone)) == last3
      ensures found.None? ==> forall i :: 0 <= i < |rows| ==> !TailMatch(View(), i, number, last3, now)
    {
      for i := 0 to |rows|
        invariant forall j :: 0 <= j < i ==> !TailMatch(View(), j, number, last3, now)
      {
        if TailMatch(View(), i, number, last3, now) { return Some(i); }
      }
      return None;
    }

    method ReadStatus(id: nat, now: Instant) returns (reply: Reply)
      modifies this`rows
      ensures Outcome(View(), reply) == StatusRead(old(View()), id, now)
    {
      if id >= |rows| { return Refused(WaitlistNotFound); }
      ApplyLazyNoShow(id, now);
      return Ok;
    }

    /** `apply_lazy_no_show`. */
    method ApplyLazyNoShow(id: nat, now: Instant)
      requires id < |rows|
      modifies this`rows
      ensures rows == old(rows)[id := Lapse(old(rows)[id], now)]
    {
      var entry := rows[id];
      if entry.status != Called { return; }
      if entry.hold.None? || entry.calledAt.None? { return; }
      if now < entry.calledAt.value + entry.hold.value * MINUTE { return; }
      entry := entry.(status := NoShow);
      entry := entry.(closedAt := Some(now));
      rows := rows[id := entry];
    }

    method CancelAsGuest(id: nat, now: Instant) returns (reply: Reply)
      modifies this`rows
      ensures Outcome(View(), reply) == GuestCancel(old(View()), id, now)
    {
      if id >= |rows| { return Refused(WaitlistNotFound); }
      var entry := rows[id];
      if entry.status !in {Waiting, Called} { return Refused(InvalidStatus); }
      entry := entry.(status := Cancelled);
      entry := entry.(reason := Some(Customer));
      entry := entry.(closedAt := Some(now));
      rows := rows[id := entry];
      return Ok;
    }

    /** The board's `next_up`. */
    method NextUp(now: Instant) returns (next: Option<nat>)
      ensures next.Some? ==> IsNextUp(rows, BusinessDate(zone, now), next.value)
      ensures next.None? ==> WaitingIds(rows, BusinessDate(zone, now)) == {}
    {
      var day := BusinessDate(zone, now);
      next := None;
      for i := 0 to |rows|
        invariant next.Some? ==> next.value < i && WaitingOn(rows[next.value], day)
        invariant forall j :: 0 <= j < i && WaitingOn(rows[j], day) ==>
                    next.Some? && rows[next.value].sortOrder <= rows[j].sortOrder
      {
        if WaitingOn(rows[i], day) && (next.None? || rows[i].sortOrder < rows[next.value].sortOrder) {
          next := Some(i);
        }
      }
    }

    // ---------------------------------------------------------------- staff actions

    method CallEntry(id: nat, now: Instant) returns (reply: Reply)
      modifies this`rows
      ensures Outcome(View(), reply) == Call(old(View()), id, now)
    {
      if id >= |rows| { return Refused(WaitlistNotFound); }
      var entry := rows[id];
      if entry.status != Waiting { return Refused(InvalidStatus); }
      entry := entry.(status := Called);
      entry := entry.(calledAt := Some(now));
      entry := entry.(hold := Some(settings.hold));
      rows := rows[id := entry];
      return Ok;
    }

    method SeatEntry(id: nat, t: nat, now: Instant) returns (reply: Reply)
      modifies this`rows, this`tables
      ensures Outcome(View(), reply) == Seat(old(View()), id, t, now)
    {
      if id >= |rows| { return Refused(WaitlistNotFound); }
      if t >= |tables| { return Refused(TableNotFound); }
      if tables[t].status != Available || !tables[t].active { return Refused(TableNotAvailable); }
      var entry := rows[id];
      if entry.status !in {Waiting, Called} { return Refused(InvalidStatus); }
      entry := entry.(status := Seated);
      entry := entry.(seatedAt := Some(now));
      entry := entry.(table := Some(t));
      rows := rows[id := entry];
      tables := tables[t := tables[t].(status := Occupied)];
      return Ok;
    }

    /** `release_held_table`. */
    method ReleaseHeldTable(id: nat)
      requires id < |rows|
      modifies this`rows, this`tables
      ensures View() == ReleaseHeld(old(View()), id)
    {
      var held := rows[id].table;
      if held.None? { return; }
      if held.value < |tables| { tables := tables[held.value := tables[held.value].(status := Available)]; }
      rows := rows[id := rows[id].(table := None)];
    }

    /** `_close_entry`. */
    method Close(id: nat, status: Status, now: Instant)
      requires id < |rows|
      modifies this`rows, this`tables
      ensures View() == CloseEntry(old(View()), id, status, now)
    {
      rows := rows[id := rows[id].(status := status)];
      rows := rows[id := rows[id].(closedAt := Some(now))];
      assert rows == old(rows)[id := old(rows)[id].(status := status, closedAt := Some(now))];
      ReleaseHeldTable(id);
    }

    method NoShowEntry(id: nat, now: Instant) returns (reply: Reply)
      modifies this`rows, this`tables
      ensures Outcome(View(), reply) == StaffNoShow(old(View()), id, now)
    {
      if id >= |rows| { return Refused(WaitlistNotFound); }
      if !Active(rows[id]) { return Refused(InvalidStatus); }
      Close(id, NoShow, now);
      return Ok;
    }

    method CancelAsStaff(id: nat, now: Instant) returns (reply: Reply)
      modifies this`rows, this`tables
      ensures Outcome(View(), reply) == StaffCancel(old(View()), id, now)
    {
      if id >= |rows| { return Refused(WaitlistNotFound); }
      if !Active(rows[id]) { return Refused(InvalidStatus); }
      rows := rows[id := rows[id].(reason := Some(Staff))];
      Close(id, Cancelled, now);
      return Ok;
    }

    method RestoreEntry(id: nat, now: Instant) returns (reply: Reply)
      modifies this`rows
      ensures Outcome(View(), reply) == Restore(old(View()), id, now)
    {
      if id >= |rows| { return Refused(WaitlistNotFound); }
      var entry := rows[id];
      if entry.status != NoShow { return Refused(InvalidStatus); }
      entry := entry.(status := Waiting);
      entry := entry.(calledAt := None);
      entry := entry.(closedAt := None);
      entry := entry.(hold := None);
      rows := rows[id := entry];
      return Ok;
    }

    method RevertEntry(id: nat, now: Instant) returns (reply: Reply)
      modifies this`rows
      ensures Outcome(View(), reply) == Revert(old(View()), id, now)
    {
      if id >= |rows| { return Refused(WaitlistNotFound); }
      var entry := rows[id];
      if entry.status != Called { return Refused(InvalidStatus); }
      entry := entry.(status := Waiting);
      entry := entry.(calledAt := None);
      entry := entry.(hold := None);
      rows := rows[id := entry];
      return Ok;
    }

    method EditEntry(id: nat, partySize: Option<int>, note: Option<string>) returns (reply: Reply)
      modifies this`rows
      ensures Outcome(View(), reply) == Edit(old(View()), id, partySize, note)
    {
      if partySize.Some? && !(1 <= partySize.value <= 20) { return Refused(ValidationError); }
      if id >= |rows| { return Refused(WaitlistNotFound); }
      var entry := rows[id];
      if entry.status !in {Waiting, Called} { return Refused(InvalidStatus); }
      if partySize.Some? { entry := entry.(partySize := partySize.value); }
      if note.Some? { entry := entry.(note := note); }
      rows := rows[id := entry];
      return Ok;
    }

    // ---------------------------------------------------------------- bulk writes

    /** `_sweep_expired`. */
    method SweepExpired(now: Instant)
      modifies this`rows
      ensures View() == StaffSweep(old(View()), now).after
    {
      for i := 0 to |rows|
        invariant |rows| == |old(rows)|
        invariant forall j :: 0 <= j < i ==> rows[j] == StaffLapse(old(rows)[j], now)
        invariant forall j :: i <= j < |rows| ==> rows[j] == old(rows)[j]
      {
        var left := RemainingSeconds(rows[i], now);
        if left.Some? && left.value <= 0 { ApplyLazyNoShow(i, now); }
      }
    }

    /** The staff list: sweep, then one page of the day's rows that the filter asks for, and how many there are. */
    method ListWaitlist(now: Instant, filter: Filter, limit: nat, offset: nat) returns (page: seq<nat>, total: nat)
      modifies this`rows
      ensures View() == StaffSweep(old(View()), now).after
      ensures total == |Listed(View(), QueueDay(View(), now), filter)|
      ensures page == Page(Listed(View(), QueueDay(View(), now), filter), limit, offset)
    {
      SweepExpired(now);
      var ids := FindWanted(QueueDay(View(), now), filter);
      var listed := Sort(ids, ListOrder(rows));
      total := |listed|;
      page := Page(listed, limit, offset);
    }

    /** `_filtered_query` and the search over its rows. */
    method FindWanted(day: string, filter: Filter) returns (ids: seq<nat>)
      ensures ids == IdsWanted(rows, day, filter, |rows|)
    {
      ids := [];
      for i := 0 to |rows|
        invariant ids == IdsWanted(rows, day, filter, i)
      {
        if Wanted(rows[i], day, filter) { ids := ids + [i]; }
      }
    }

    /** The numbering loop of `reorder`. */
    method WriteOrders(ids: seq<nat>)
      requires NoRepeats(ids) && Names(rows, ids)
      modifies this`rows
      ensures rows == Renumbered(old(rows), ids)
    {
      ghost var before := rows;
      for k := 0 to |ids|
        invariant |rows| == |before|
        invariant forall m :: 0 <= m < k ==> rows[ids[m]] == before[ids[m]].(sortOrder := m + 1)
        invariant forall i :: 0 <= i < |rows| && i !in ids[..k] ==> rows[i] == before[i]
      {
        assert ids[k] !in ids[..k];
        assert ids[..k + 1] == ids[..k] + [ids[k]];
        rows := rows[ids[k] := rows[ids[k]].(sortOrder := k + 1)];
      }
      assert ids[..|ids|] == ids;
      WrittenOrders(before, rows, ids);
    }

    method ReorderQueue(ids: seq<nat>, wall: Instant) returns (reply: Reply, listed: seq<nat>)
      modifies this`rows
      ensures Outcome(View(), reply) == Reorder(old(View()), ids, wall)
      ensures reply.Ok? ==> listed == ids
    {
      var day := QueueDay(View(), wall);
      var live := LiveIds(rows, day);
      LiveIdsAreActive(rows, day);
      ghost var before := View();
      if multiset(ids) != multiset(live) { return Refused(Conflict), []; }
      ReorderTakesPermutations(before, ids, wall);
      ReorderNumbersTheRequest(before, ids, wall);
      WriteOrders(ids);
      QueueReadsBackAsRequested(before, ids, wall);
      return Ok, QueueList(View(), day);
    }

    /** `_close_day`. */
    method CloseTheDay(now: Instant, wall: Instant) returns (counts: CloseCounts)
      modifies this`rows, this`tables
      ensures View() == CloseDay(old(View()), now, wall).after
      ensures counts == Counts(old(View()), wall)
    {
      var day := QueueDay(View(), wall);
      var cancelled, done := CloseEntries(day, now);
      var cleaning := CleanTables();
      counts := CloseCounts(cancelled, done, cleaning);
    }

    method CloseEntries(day: string, now: Instant) returns (cancelled: nat, done: nat)
      modifies this`rows
      ensures |rows| == |old(rows)| && forall i :: 0 <= i < |rows| ==> rows[i] == CloseRow(old(rows)[i], day, now)
      ensures cancelled == CountOn(old(rows), day, Waiting) + CountOn(old(rows), day, Called)
      ensures done == CountOn(old(rows), day, Seated)
    {
      cancelled, done := 0, 0;
      ghost var before := rows;
      for i := 0 to |rows|
        invariant |rows| == |before|
        invariant forall j :: 0 <= j < i ==> rows[j] == CloseRow(before[j], day, now)
        invariant forall j :: i <= j < |rows| ==> rows[j] == before[j]
        invariant cancelled == CountOn(before[..i], day, Waiting) + CountOn(before[..i], day, Called)
        invariant done == CountOn(before[..i], day, Seated)
      {
        CountOnNext(before, i, day);
        var entry := rows[i];
        if entry.day == day && Active(entry) {
          if entry.status == Seated {
            entry := entry.(status := Done);
            done := done + 1;
          } else {
            entry := entry.(status := Cancelled, reason := Some(ClosedDay));
            cancelled := cancelled + 1;
          }
          entry := entry.(closedAt := Some(now));
          rows := rows[i := entry];
        }
      }
      assert before[..|before|] == before;
    }

    method CleanTables() returns (cleaning: nat)
      modifies this`tables
      ensures |tables| == |old(tables)| && forall t :: 0 <= t < |tables| ==> tables[t] == CleanTable(old(tables)[t])
      ensures cleaning == CountTables(old(tables), Occupied)
    {
      cleaning := 0;
      ghost var before := tables;
      for t := 0 to |tables|
        invariant |tables| == |before|
        invariant forall u :: 0 <= u < t ==> tables[u] == CleanTable(before[u])
        invariant forall u :: t <= u < |tables| ==> tables[u] == before[u]
        invariant cleaning == CountTables(before[..t], Occupied)
      {
        assert before[..t + 1][..t] == before[..t];
        if tables[t].active && tables[t].status == Occupied {
          tables := tables[t := tables[t].(status := Cleaning)];
          cleaning := cleaning + 1;
        }
      }
      assert before[..|before|] == before;
    }

    // ---------------------------------------------------------------- the dashboard

    /** `apply_lazy_no_show_for_branch`: returns how many rows it flipped. */
    method SweepDay(day: string, now: Instant) returns (flipped: nat)
      modifies this`rows
      ensures View() == DaySweep(old(View()), day, now)
      ensures flipped == CountExpired(old(rows), day, now)
    {
      flipped := 0;
      ghost var before := rows;
      for i := 0 to |rows|
        invariant |rows| == |before|
        invariant forall j :: 0 <= j < i ==> rows[j] == DayLapse(before[j], day, now)
        invariant forall j :: i <= j < |rows| ==> rows[j] == before[j]
        invariant flipped == CountExpired(before[..i], day, now)
      {
        assert before[..i + 1][..i] == before[..i];
        if rows[i].day == day && Expired(rows[i], now) {
          var was := rows[i].status;
          ApplyLazyNoShow(i, now);
          if rows[i].status != was { flipped := flipped + 1; }
        }
      }
      assert before[..|before|] == before;
    }

    method TallyRows(day: string) returns (tally: map<Status, nat>)
      ensures forall st :: st in tally && tally[st] == CountOn(rows, day, st)
    {
      tally := map[Waiting := 0, Called := 0, Seated := 0, Done := 0, NoShow := 0, Cancelled := 0];
      forall st: Status ensures st in tally && tally[st] == 0 {
        match st
        case Waiting => case Called => case Seated => case Done => case NoShow => case Cancelled =>
      }
      for i := 0 to |rows|
        invariant forall st :: st in tally && tally[st] == CountOn(rows[..i], day, st)
      {
        assert rows[..i + 1][..i] == rows[..i];
        if rows[i].day == day { tally := tally[rows[i].status := tally[rows[i].status] + 1]; }
      }
      assert rows[..|rows|] == rows;
    }

    method TallyTables() returns (tally: map<TableStatus, nat>)
      ensures forall st :: st in tally && tally[st] == CountTables(tables, st)
    {
      tally := map[Available := 0, Occupied := 0, Cleaning := 0];
      forall st: TableStatus ensures st in tally && tally[st] == 0 {
        match st
        case Available => case Occupied => case Cleaning =>
      }
      for t := 0 to |tables|
        invariant forall st :: st in tally && tally[st] == CountTables(tables[..t], st)
      {
        assert tables[..t + 1][..t] == tables[..t];
        if tables[t].active { tally := tally[tables[t].status := tally[tables[t].status] + 1]; }
      }
      assert tables[..|tables|] == tables;
    }

    /** `counters`: sweep the day that is read, then count it. */
    method ReadDashboard(now: Instant) returns (shown: Counters)
      modifies this`rows
      ensures View() == DashboardRead(old(View()), now).after
      ensures shown == CountersOf(View(), ReadDay(old(View()), now))
    {
      var day := ReadDay(View(), now);
      var _ := SweepDay(day, now);
      var queue := TallyRows(day);
      var floor := TallyTables();
      shown := Counters(queue[Waiting], queue[Called], queue[Seated], queue[NoShow], queue[Cancelled],
                        floor[Available], floor[Occupied], floor[Cleaning], AverageWait(rows, day));
    }

    // ---------------------------------------------------------------- tables

    /** The first SEATED row on a table. */
    method FindParty(t: nat) returns (found: Option<nat>)
      ensures found.Some? <==> Held(rows, t)
      ensures found.Some? ==> found.value == PartyOn(rows, t)
    {
      for i := 0 to |rows|
        invariant forall j :: 0 <= j < i ==> !HoldsTable(rows[j], t)
      {
        if HoldsTable(rows[i], t) {
          FirstHolderIsTheParty(rows, t, i);
          return Some(i);
        }
      }
      return None;
    }

    method ReleaseTable(t: nat, now: Instant) returns (reply: Reply)
      modifies this`rows, this`tables
      ensures Outcome(View(), reply) == Release(old(View()), t, now)
    {
      if t >= |tables| || !tables[t].active { return Refused(TableNotFound); }
      if tables[t].status != Occupied { return Refused(TableNotAvailable); }
      tables := tables[t := tables[t].(status := Available)];
      var party := FindParty(t);
      if party.Some? {
        var entry := rows[party.value];
        entry := entry.(status := Done);
        entry := entry.(closedAt := Some(now));
        rows := rows[party.value := entry];
      }
      return Ok;
    }

    method UpdateTableStatus(t: nat, status: TableStatus) returns (reply: Reply)
      modifies this`tables
      ensures Outcome(View(), reply) == PatchTable(old(View()), t, status)
    {
      if t >= |tables| || !tables[t].active { return Refused(TableNotFound); }
      if status == Occupied { return Refused(ValidationError); }
      tables := tables[t := tables[t].(status := status)];
      return Ok;
    }

    method UpdateTableActive(t: nat, active: bool) returns (reply: Reply)
      modifies this`tables
      ensures Outcome(View(), reply) == SetActive(old(View()), t, active)
    {
      if t >= |tables| { return Refused(TableNotFound); }
      tables := tables[t := tables[t].(active := active)];
      return Ok;
    }

    method SoftDeleteTable(t: nat) returns (reply: Reply)
      modifies this`tables
      ensures Outcome(View(), reply) == Retire(old(View()), t)
    {
      if t >= |tables| { return Refused(TableNotFound); }
      if tables[t].status == Occupied { return Refused(Conflict); }
      tables := tables[t := tables[t].(active := false)];
      return Ok;
    }

    method AddTable(title: string) returns (reply: Reply)
      modifies this`tables
      ensures Outcome(View(), reply) == CreateTable(old(View()), title)
    {
      if !(1 <= |title| <= 10) { return Refused(ValidationError); }
      for t := 0 to |tables|
        invariant forall u :: 0 <= u < t ==> tables[u].title != title
      {
        if tables[t].title == title { return Refused(Conflict); }
      }
      tables := tables + [Table(title, Available, true)];
      return Ok;
    }

    // ---------------------------------------------------------------- settings

    method ChangeSettings(patch: SettingsPatch) returns (reply: Reply)
      modifies this`settings
      ensures Outcome(View(), reply) == UpdateSettings(old(View()), patch)
    {
      if patch.hold.Some? && !(5 <= patch.hold.value <= 15) { return Refused(ValidationError); }
      if patch.prefix.Some? && !Letters(patch.prefix.value) { return Refused(ValidationError); }
      if patch.hold.Some? { settings := settings.(hold := patch.hold.value); }
      if patch.prefix.Some? { settings := settings.(prefix := patch.prefix.value); }
      if patch.open.Some? { settings := settings.(open := patch.open.value); }
      return Ok;
    }

    // ---------------------------------------------------------------- whole runs

    /** One action on one entry. */
    method PerformOnEntry(step: Step) returns (reply: Reply)
      requires OneRowStep(step)
      modifies this
      ensures Outcome(View(), reply) == Apply(old(View()), step)
    {
      match step
      case DoCall(id, now) => reply := CallEntry(id, now);
      case DoSeat(id, t, now) => reply := SeatEntry(id, t, now);
      case DoNoShow(id, now) => reply := NoShowEntry(id, now);
      case DoRestore(id, now) => reply := RestoreEntry(id, now);
      case DoRevert(id, now) => reply := RevertEntry(id, now);
      case DoStaffCancel(id, now) => reply := CancelAsStaff(id, now);
      case DoGuestCancel(id, now) => reply := CancelAsGuest(id, now);
      case DoEdit(id, party, remark, _) => reply := EditEntry(id, party, remark);
      case DoStatusRead(id, now) => reply := ReadStatus(id, now);
    }

    /** One request of any kind. */
    method Perform(step: Step) returns (reply: Reply)
      modifies this
      ensures Outcome(View(), reply) == Apply(old(View()), step)
    {
      if OneRowStep(step) {
        reply := PerformOnEntry(step);
        return;
      }
      reply := Ok;
      match step
      case DoJoin(name, phone, partySize, note, now) => reply := JoinWaitlist(name, phone, partySize, note, now);
      case DoStaffSweep(now) => SweepExpired(now);
      case DoDashboard(now) => var _ := ReadDashboard(now);
      case DoReorder(ids, now) => var taken, _ := ReorderQueue(ids, now); reply := taken;
      case DoCloseDay(now, wall) => var _ := CloseTheDay(now, wall);
      case DoRelease(t, now) => reply := ReleaseTable(t, now);
      case DoPatchTable(t, status, _) => reply := UpdateTableStatus(t, status);
      case DoSetActive(t, active, _) => reply := UpdateTableActive(t, active);
      case DoRetire(t, _) => reply := SoftDeleteTable(t);
      case DoCreateTable(title, _) => reply := AddTable(title);
      case DoSettings(patch, _) => reply := ChangeSettings(patch);
    }
  }

  /** A branch served from its bootstrap through any requests: its rows have their shapes and their numbers, and
      with careful table work every party has an OCCUPIED table of its own. */
  method Serve(zone: Zone, settings: Settings, steps: seq<Step>) returns (store: Store)
    ensures fresh(store) && store.View() == Run(Empty(zone, settings), steps)
    ensures AllShaped(store.View())
    ensures Letters(settings.prefix) ==> NumberInv(store.View())
    ensures Along(Empty(zone, settings), steps, Careful) ==> PartyInv(store.View())
  {
    store := new Store(zone, settings);
    for i := 0 to |steps|
      invariant fresh(store) && store.View() == Run(Empty(zone, settings), steps[..i])
    {
      assert steps[..i + 1][..i] == steps[..i];
      var _ := store.Perform(steps[i]);
    }
    assert steps[..|steps|] == steps;
    ReachableRowsAreShaped(zone, settings, steps);
    if Letters(settings.prefix) { ReachableRowsAreNumbered(zone, settings, steps); }
    if Along(Empty(zone, settings), steps, Careful) { CarefulRunsKeepParties(zone, settings, steps); }
  }

  lemma {:induction false} FirstHolderIsTheParty(rows: seq<Row>, t: nat, i: nat)
    requires i < |rows| && HoldsTable(rows[i], t) && forall j :: 0 <= j < i ==> !HoldsTable(rows[j], t)
    ensures Held(rows, t) && PartyOn(rows, t) == i
  {
    if i > 0 {
      HeldTail(rows, t);
      FirstHolderIsTheParty(rows[1..], t, i - 1);
    }
  }

  lemma CountOnNext(rows: seq<Row>, i: nat, day: string)
    requires i < |rows|
    ensures forall st :: CountOn(rows[..i + 1], day, st)
                == CountOn(rows[..i], day, st) + (if rows[i].day == day && rows[i].status == st then 1 else 0)
  {
    assert rows[..i + 1][..i] == rows[..i];
  }

  lemma WrittenOrders(before: seq<Row>, after: seq<Row>, ids: seq<nat>)
    requires NoRepeats(ids) && Names(before, ids) && |before| == |after|
    requires forall m :: 0 <= m < |ids| ==> after[ids[m]] == before[ids[m]].(sortOrder := m + 1)
    requires forall i :: 0 <= i < |after| && i !in ids ==> after[i] == before[i]
    ensures after == Renumbered(before, ids)
  {
    forall i | 0 <= i < |after| ensures after[i] == Renumbered(before, ids)[i] {
      if i in ids {
        var m :| 0 <= m < |ids| && ids[m] == i;
        IndexOfIsTheIndex(ids, m);
      }
    }
  }

  lemma LiveIdsAreActive(rows: seq<Row>, day: string)
    ensures multiset(LiveIds(rows, day)) == multiset(ActiveIds(rows, day))
  {
    var live := LiveIds(rows, day);
    NoRepeatsIsASet(live);
    forall i | i in live ensures i in ActiveIds(rows, day) {
      var a :| 0 <= a < |live| && live[a] == i;
    }
    assert (set i | i in live) == ActiveIds(rows, day);
  }
}
