/** Closing the day: counts, what is left, and closing twice. */
module Closing {
  import opened Text
  import opened Calendar
  import opened Rules
  import opened Days
  import opened Lists

  /** How many rows of a day have a status. */
  function CountOn(rows: seq<Row>, day: string, st: Status): nat {
    if rows == [] then 0
    else
      var n := |rows| - 1;
      CountOn(rows[..n], day, st) + (if rows[n].day == day && rows[n].status == st then 1 else 0)
  }

  /** How many active tables have a status. */
  function CountTables(tables: seq<Table>, st: TableStatus): nat {
    if tables == [] then 0
    else
      var n := |tables| - 1;
      CountTables(tables[..n], st) + (if tables[n].active && tables[n].status == st then 1 else 0)
  }

  function StatusIds(rows: seq<Row>, day: string, st: Status): set<nat> {
    set i | 0 <= i < |rows| && rows[i].day == day && rows[i].status == st
  }

  function TableIds(tables: seq<Table>, st: TableStatus): set<nat> {
    set t | 0 <= t < |tables| && tables[t].active && tables[t].status == st
  }

  /** The count is the number of such rows. */
  lemma {:induction false} CountOnIsSize(rows: seq<Row>, day: string, st: Status)
    ensures CountOn(rows, day, st) == |StatusIds(rows, day, st)|
  {
    if rows != [] {
      CountOnIsSize(rows[..|rows| - 1], day, st);
      LastStatus(rows, day, st);
    }
  }

  lemma LastStatus(rows: seq<Row>, day: string, st: Status)
    requires rows != []
    ensures
      var n := |rows| - 1;
      |StatusIds(rows, day, st)|
      == |StatusIds(rows[..n], day, st)| + if rows[n].day == day && rows[n].status == st then 1 else 0
  {
    var p := (r: Row) => r.day == day && r.status == st;
    PlacesGrow(rows, p);
    assert StatusIds(rows, day, st) == Places(rows, p);
    assert StatusIds(rows[..|rows| - 1], day, st) == Places(rows[..|rows| - 1], p);
  }

  /** And of such tables. */
  lemma {:induction false} CountTablesIsSize(tables: seq<Table>, st: TableStatus)
    ensures CountTables(tables, st) == |TableIds(tables, st)|
  {
    if tables != [] {
      CountTablesIsSize(tables[..|tables| - 1], st);
      LastTable(tables, st);
    }
  }

  lemma LastTable(tables: seq<Table>, st: TableStatus)
    requires tables != []
    ensures
      var n := |tables| - 1;
      |TableIds(tables, st)|
      == |TableIds(tables[..n], st)| + if tables[n].active && tables[n].status == st then 1 else 0
  {
    var p := (t: Table) => t.active && t.status == st;
    PlacesGrow(tables, p);
    assert TableIds(tables, st) == Places(tables, p);
    assert TableIds(tables[..|tables| - 1], st) == Places(tables[..|tables| - 1], p);
  }

  datatype CloseCounts = CloseCounts(cancelled: nat, done: nat, cleaning: nat)

  /** What the close answers. */
  function Counts(s: State, wall: Instant): CloseCounts {
    var day := QueueDay(s, wall);
    CloseCounts(CountOn(s.rows, day, Waiting) + CountOn(s.rows, day, Called), CountOn(s.rows, day, Seated),
                CountTables(s.tables, Occupied))
  }

  /** The day's WAITING and CALLED rows are cancelled, its SEATED rows done, its tables turned over, and
      nothing of any other day and no inactive table is touched. */
  lemma CloseDayExactlyTheDay(s: State, now: Instant, wall: Instant)
    ensures
      var after, day := CloseDay(s, now, wall).after, QueueDay(s, wall);
      && |after.rows| == |s.rows| && |after.tables| == |s.tables| && after.settings == s.settings
      && (forall i :: 0 <= i < |s.rows| && s.rows[i].day == day ==> !Active(after.rows[i]))
      && (forall i :: 0 <= i < |s.rows| && s.rows[i].day == day && s.rows[i].status in {Waiting, Called} ==>
            && after.rows[i].status == Cancelled && after.rows[i].reason == Some(ClosedDay)
            && after.rows[i].closedAt == Some(now))
      && (forall i :: 0 <= i < |s.rows| && s.rows[i].day == day && s.rows[i].status == Seated ==>
            && after.rows[i].status == Done && after.rows[i].table == s.rows[i].table
            && after.rows[i].closedAt == Some(now))
      && (forall i :: 0 <= i < |s.rows| && (s.rows[i].day != day || !Active(s.rows[i])) ==> after.rows[i] == s.rows[i])
      && (forall t :: 0 <= t < |s.tables| && s.tables[t].active && s.tables[t].status == Occupied
            ==> after.tables[t] == Table(s.tables[t].title, Cleaning, true))
      && (forall t :: 0 <= t < |s.tables| && (!s.tables[t].active || s.tables[t].status != Occupied)
            ==> after.tables[t] == s.tables[t])
  {
  }

  lemma {:induction false} LiveCount(rows: seq<Row>, day: string)
    ensures CountOn(rows, day, Waiting) + CountOn(rows, day, Called) + CountOn(rows, day, Seated)
            == |ActiveIds(rows, day)|
  {
    if rows != [] {
      var n := |rows| - 1;
      LiveCount(rows[..n], day);
      var live, before := ActiveIds(rows, day), ActiveIds(rows[..n], day);
      if rows[n].day == day && Active(rows[n]) { assert live == before + {n}; } else { assert live == before; }
    }
  }

  /** The rows a close takes to a status. */
  function Moved(before: seq<Row>, after: seq<Row>, st: Status): set<nat>
    requires |before| == |after|
  {
    set i | 0 <= i < |before| && before[i].status != after[i].status == st
  }

  function TurnedOver(before: seq<Table>, after: seq<Table>): set<nat>
    requires |before| == |after|
  {
    set t | 0 <= t < |before| && before[t] != after[t]
  }

  lemma MovedIds(s: State, now: Instant, wall: Instant)
    ensures
      var after, day := CloseDay(s, now, wall).after, QueueDay(s, wall);
      && Moved(s.rows, after.rows, Cancelled) == StatusIds(s.rows, day, Waiting) + StatusIds(s.rows, day, Called)
      && Moved(s.rows, after.rows, Done) == StatusIds(s.rows, day, Seated)
      && TurnedOver(s.tables, after.tables) == TableIds(s.tables, Occupied)
  {
  }

  /** The close answers what it did: how many rows it cancelled, how many it made DONE, how many tables it turned
      over. */
  lemma CountsAreWhatChanged(s: State, now: Instant, wall: Instant)
    ensures
      var after := CloseDay(s, now, wall).after;
      && Counts(s, wall).cancelled == |Moved(s.rows, after.rows, Cancelled)|
      && Counts(s, wall).done == |Moved(s.rows, after.rows, Done)|
      && Counts(s, wall).cleaning == |TurnedOver(s.tables, after.tables)|
  {
    var day := QueueDay(s, wall);
    MovedIds(s, now, wall);
    CountOnIsSize(s.rows, day, Waiting);
    CountOnIsSize(s.rows, day, Called);
    CountOnIsSize(s.rows, day, Seated);
    CountTablesIsSize(s.tables, Occupied);
  }

  /** The close accounts for every live row of the day: cancelled plus done is what was live. */
  lemma CountsAccountForTheDay(s: State, wall: Instant)
    ensures Counts(s, wall).cancelled + Counts(s, wall).done == |ActiveIds(s.rows, QueueDay(s, wall))|
  {
    LiveCount(s.rows, QueueDay(s, wall));
  }

  lemma {:induction false} NoneOn(rows: seq<Row>, day: string, st: Status)
    requires forall i :: 0 <= i < |rows| ==> rows[i].day != day || rows[i].status != st
    ensures CountOn(rows, day, st) == 0
  {
    if rows != [] { NoneOn(rows[..|rows| - 1], day, st); }
  }

  lemma {:induction false} NoTable(tables: seq<Table>, st: TableStatus)
    requires forall t :: 0 <= t < |tables| ==> !tables[t].active || tables[t].status != st
    ensures CountTables(tables, st) == 0
  {
    if tables != [] { NoTable(tables[..|tables| - 1], st); }
  }

  /** Closing does not move the day the next close would pick. */
  lemma CloseKeepsTheDay(s: State, now: Instant, wall: Instant, later: Instant)
    ensures QueueDay(CloseDay(s, now, wall).after, later) == QueueDay(s, later)
  {
    DayReadIgnoresStatuses(CloseDay(s, now, wall).after, s, later);
  }

  /** A second close of the same day answers zeros and changes nothing. */
  lemma SecondCloseIsNothing(s: State, now: Instant, wall: Instant, now': Instant, wall': Instant)
    requires QueueDay(s, wall') == QueueDay(s, wall)
    ensures
      var closed := CloseDay(s, now, wall).after;
      Counts(closed, wall') == CloseCounts(0, 0, 0) && CloseDay(closed, now', wall').after == closed
  {
    var closed, day := CloseDay(s, now, wall).after, QueueDay(s, wall);
    CloseKeepsTheDay(s, now, wall, wall');
    CloseDayExactlyTheDay(s, now, wall);
    NoneOn(closed.rows, day, Waiting);
    NoneOn(closed.rows, day, Called);
    NoneOn(closed.rows, day, Seated);
    NoTable(closed.tables, Occupied);
    CloseDayExactlyTheDay(closed, now', wall');
    assert CloseDay(closed, now', wall').after.rows == closed.rows;
    assert CloseDay(closed, now', wall').after.tables == closed.tables;
  }
}
