/** The dashboard's counters: what a read moves, what they sum to, and how they bound each other. */
module Dashboard {
  import opened Text
  import opened Calendar
  import opened Rules
  import opened Lifecycle
  import opened Days
  import opened Parties
  import opened Occupancy
  import opened Closing
  import opened Lists

  // ------------------------------------------------------------------ conservation

  /** How many of a day's calls have run out. */
  function CountExpired(rows: seq<Row>, day: string, now: Instant): nat {
    if rows == [] then 0
    else
      var n := |rows| - 1;
      CountExpired(rows[..n], day, now) + (if rows[n].day == day && Expired(rows[n], now) then 1 else 0)
  }

  function Swept(rows: seq<Row>, day: string, now: Instant): seq<Row> {
    seq(|rows|, i requires 0 <= i < |rows| => DayLapse(rows[i], day, now))
  }

  lemma {:induction false} SweepMovesExpired(rows: seq<Row>, day: string, now: Instant)
    ensures CountOn(Swept(rows, day, now), day, Called) == CountOn(rows, day, Called) - CountExpired(rows, day, now)
    ensures CountOn(Swept(rows, day, now), day, NoShow) == CountOn(rows, day, NoShow) + CountExpired(rows, day, now)
  {
    if rows != [] {
      var n := |rows| - 1;
      SweepMovesExpired(rows[..n], day, now);
      assert Swept(rows, day, now)[..n] == Swept(rows[..n], day, now);
    }
  }

  lemma {:induction false} SweepKeepsOthers(rows: seq<Row>, day: string, now: Instant, st: Status)
    requires st !in {Called, NoShow}
    ensures CountOn(Swept(rows, day, now), day, st) == CountOn(rows, day, st)
  {
    if rows != [] {
      var n := |rows| - 1;
      SweepKeepsOthers(rows[..n], day, now, st);
      assert Swept(rows, day, now)[..n] == Swept(rows[..n], day, now);
    }
  }

  lemma {:induction false} SweepKeepsOtherDays(rows: seq<Row>, day: string, now: Instant, other: string, st: Status)
    requires other != day
    ensures CountOn(Swept(rows, day, now), other, st) == CountOn(rows, other, st)
  {
    if rows != [] {
      var n := |rows| - 1;
      SweepKeepsOtherDays(rows[..n], day, now, other, st);
      assert Swept(rows, day, now)[..n] == Swept(rows[..n], day, now);
    }
  }

  /** One read moves exactly the expired calls of its day from `called_count` to `no_show_today`; the
      other counters, the other days and the day it reports stay put. */
  lemma ReadMovesExactlyTheExpired(s: State, now: Instant, other: string, st: Status)
    ensures
      var after, day := DashboardRead(s, now).after, ReadDay(s, now);
      var k := CountExpired(s.rows, day, now);
      && ReadDay(after, now) == day && after.tables == s.tables
      && CountOn(after.rows, day, Called) == CountOn(s.rows, day, Called) - k
      && CountOn(after.rows, day, NoShow) == CountOn(s.rows, day, NoShow) + k
      && (other != day || st !in {Called, NoShow} ==> CountOn(after.rows, other, st) == CountOn(s.rows, other, st))
      && CountExpired(after.rows, day, now) == 0
  {
    var after, day := DashboardRead(s, now).after, ReadDay(s, now);
    DayReadIgnoresStatuses(s, after, now);
    assert after.rows == Swept(s.rows, day, now);
    SweepMovesExpired(s.rows, day, now);
    if other != day { SweepKeepsOtherDays(s.rows, day, now, other, st); }
    else if st !in {Called, NoShow} { SweepKeepsOthers(s.rows, day, now, st); }
    NothingLeftExpired(after.rows, day, now);
  }

  lemma {:induction false} NothingLeftExpired(rows: seq<Row>, day: string, now: Instant)
    requires forall i :: 0 <= i < |rows| ==> rows[i].day != day || !Expired(rows[i], now)
    ensures CountExpired(rows, day, now) == 0
  {
    if rows != [] { NothingLeftExpired(rows[..|rows| - 1], day, now); }
  }

  // ------------------------------------------------------------------ sums

  function RowsOf(rows: seq<Row>, day: string): set<nat> { set i | 0 <= i < |rows| && rows[i].day == day }

  /** The six status counts of a day add up to its rows. */
  lemma {:induction false} StatusesPartitionTheDay(rows: seq<Row>, day: string)
    ensures CountOn(rows, day, Waiting) + CountOn(rows, day, Called) + CountOn(rows, day, Seated)
            + CountOn(rows, day, Done) + CountOn(rows, day, NoShow) + CountOn(rows, day, Cancelled)
            == |RowsOf(rows, day)|
  {
    if rows != [] {
      StatusesPartitionTheDay(rows[..|rows| - 1], day);
      LastRowHasOneStatus(rows, day);
      LastRowOfTheDay(rows, day);
    }
  }

  function OneOn(r: Row, day: string): nat { if r.day == day then 1 else 0 }

  lemma LastRowHasOneStatus(rows: seq<Row>, day: string)
    requires rows != []
    ensures
      var n := |rows| - 1;
      var past := rows[..n];
      CountOn(rows, day, Waiting) + CountOn(rows, day, Called) + CountOn(rows, day, Seated)
      + CountOn(rows, day, Done) + CountOn(rows, day, NoShow) + CountOn(rows, day, Cancelled)
      == CountOn(past, day, Waiting) + CountOn(past, day, Called) + CountOn(past, day, Seated)
         + CountOn(past, day, Done) + CountOn(past, day, NoShow) + CountOn(past, day, Cancelled) + OneOn(rows[n], day)
  {
  }

  lemma LastRowOfTheDay(rows: seq<Row>, day: string)
    requires rows != []
    ensures |RowsOf(rows, day)| == |RowsOf(rows[..|rows| - 1], day)| + OneOn(rows[|rows| - 1], day)
  {
    var p := (r: Row) => r.day == day;
    PlacesGrow(rows, p);
    assert RowsOf(rows, day) == Places(rows, p);
    assert RowsOf(rows[..|rows| - 1], day) == Places(rows[..|rows| - 1], p);
  }

  function InService(tables: seq<Table>): set<nat> { set t | 0 <= t < |tables| && tables[t].active }

  /** The three table counts add up to the active tables. */
  lemma {:induction false} StatusesPartitionTheFloor(tables: seq<Table>)
    ensures CountTables(tables, Available) + CountTables(tables, Occupied) + CountTables(tables, Cleaning)
            == |InService(tables)|
  {
    if tables != [] {
      var n := |tables| - 1;
      StatusesPartitionTheFloor(tables[..n]);
      assert InService(tables) == InService(tables[..n]) + (if tables[n].active then {n} else {});
    }
  }

  // ------------------------------------------------------------------ parties fit their tables

  /** Parties with tables of their own are no more than the tables they sit at. */
  lemma {:induction false} PartiesFit(s: State, parties: set<nat>, tables: set<nat>)
    requires PartyInv(s) && forall i :: i in parties ==> i < |s.rows| && s.rows[i].status == Seated
    requires forall i :: i in parties ==> s.rows[i].table.Some? && s.rows[i].table.value in tables
    ensures |parties| <= |tables|
  {
    if i :| i in parties {
      forall j | j in parties - {i} ensures s.rows[j].table.value in tables - {s.rows[i].table.value} {
        assert Apart(s, i, j);
      }
      PartiesFit(s, parties - {i}, tables - {s.rows[i].table.value});
    }
  }

  /** With every party at its own OCCUPIED table and those tables in service, `seated_count` never exceeds
      `occupied_table_count`. */
  lemma SeatedFitsOccupied(s: State, day: string)
    requires PartyInv(s) && OccupiedInService(s)
    ensures CountOn(s.rows, day, Seated) <= CountTables(s.tables, Occupied)
  {
    CountOnIsSize(s.rows, day, Seated);
    CountTablesIsSize(s.tables, Occupied);
    forall i | i in StatusIds(s.rows, day, Seated)
      ensures s.rows[i].table.Some? && s.rows[i].table.value in TableIds(s.tables, Occupied)
    {
      assert AtOccupied(s, i);
    }
    PartiesFit(s, StatusIds(s.rows, day, Seated), TableIds(s.tables, Occupied));
  }

  predicate CarefulAndInService(s: State, step: Step) { Careful(s, step) && KeepsService(s, step) }

  lemma {:induction false} Weaken(s: State, steps: seq<Step>)
    requires Along(s, steps, CarefulAndInService)
    ensures Along(s, steps, Careful) && Along(s, steps, KeepsService)
  {
    if steps != [] { Weaken(s, steps[..|steps| - 1]); }
  }

  /** So it is on every day after every careful run that takes no occupied table out of service. */
  lemma SeatedFitsOccupiedOverRuns(z: Zone, settings: Settings, steps: seq<Step>, day: string)
    requires Along(Empty(z, settings), steps, CarefulAndInService)
    ensures
      var s := Run(Empty(z, settings), steps);
      CountOn(s.rows, day, Seated) <= CountTables(s.tables, Occupied)
  {
    Weaken(Empty(z, settings), steps);
    CarefulRunsKeepParties(z, settings, steps);
    ServiceOverRuns(z, settings, steps);
    SeatedFitsOccupied(Run(Empty(z, settings), steps), day);
  }

  // ------------------------------------------------------------------ the average

  /** Whole minutes from seating to closing, rounded down. */
  function SeatToClose(r: Row): int
    requires r.seatedAt.Some? && r.closedAt.Some?
  {
    (r.closedAt.value - r.seatedAt.value) / MINUTE
  }

  predicate Finished(r: Row, day: string) { r.day == day && r.status == Done && r.seatedAt.Some? && r.closedAt.Some? }

  function Durations(rows: seq<Row>, day: string): seq<int> {
    if rows == [] then []
    else
      var n := |rows| - 1;
      Durations(rows[..n], day) + (if Finished(rows[n], day) then [SeatToClose(rows[n])] else [])
  }

  function Sum(xs: seq<int>): int { if xs == [] then 0 else Sum(xs[..|xs| - 1]) + xs[|xs| - 1] }

  /** `avg_wait_minutes_today`: no value when nobody finished, else the mean truncated. */
  function AverageWait(rows: seq<Row>, day: string): Option<int> {
    var ds := Durations(rows, day);
    if ds == [] then None else Some(Truncated(Sum(ds), |ds|))
  }

  lemma {:induction false} SumBetween(xs: seq<int>, lo: int, hi: int)
    requires forall i :: 0 <= i < |xs| ==> lo <= xs[i] <= hi
    ensures lo * |xs| <= Sum(xs) <= hi * |xs|
  {
    if xs != [] {
      var n := |xs| - 1;
      SumBetween(xs[..n], lo, hi);
      assert lo * |xs| == lo * n + lo && hi * |xs| == hi * n + hi;
    }
  }

  lemma {:induction false} QuotientAtLeast(a: int, n: nat, lo: int)
    requires n > 0 && lo * n <= a
    ensures lo <= a / n
  {
    var rest := a - lo * n;
    assert a == n * (lo + rest / n) + rest % n;
    QuotientIsUnique(a, n, lo + rest / n, rest % n);
  }

  lemma TruncatedBetween(sum: int, n: nat, lo: int, hi: int)
    requires n > 0 && lo * n <= sum <= hi * n
    ensures lo <= Truncated(sum, n) <= hi
  {
    if sum >= 0 {
      QuotientAtLeast(sum, n, lo);
      QuotientAtMost(sum, n, hi);
    } else {
      assert (-hi) * n <= -sum <= (-lo) * n;
      QuotientAtLeast(-sum, n, -hi);
      QuotientAtMost(-sum, n, -lo);
    }
  }

  lemma QuotientAtMost(a: int, n: nat, hi: int)
    requires n > 0 && a <= hi * n
    ensures a / n <= hi
  {
    var rest := a - hi * n;
    assert a == n * (hi + rest / n) + rest % n;
    QuotientIsUnique(a, n, hi + rest / n, rest % n);
    assert rest / n <= 0;
  }

  /** The average lies between the shortest and the longest stay, whatever the clocks did. */
  lemma AverageBetween(rows: seq<Row>, day: string, lo: int, hi: int)
    requires Durations(rows, day) != []
    requires forall i :: 0 <= i < |Durations(rows, day)| ==> lo <= Durations(rows, day)[i] <= hi
    ensures AverageWait(rows, day).Some? && lo <= AverageWait(rows, day).value <= hi
  {
    var ds := Durations(rows, day);
    SumBetween(ds, lo, hi);
    TruncatedBetween(Sum(ds), |ds|, lo, hi);
  }

  // ------------------------------------------------------------------ the average is the mean

  /** The day's DONE rows with both stamps. */
  function FinishedIds(rows: seq<Row>, day: string): set<nat> {
    set i | 0 <= i < |rows| && rows[i].day == day && rows[i].status == Done
            && rows[i].seatedAt.Some? && rows[i].closedAt.Some?
  }

  /** Minutes from `a` to `b`, the started one left out. */
  predicate WholeMinutes(m: int, a: Instant, b: Instant) { m * MINUTE <= b - a < (m + 1) * MINUTE }

  /** `stays[i]` is the stay of each finished party of the day, and 0 for every other row. */
  predicate AreStays(stays: seq<int>, rows: seq<Row>, day: string) {
    && |stays| == |rows|
    && forall i :: 0 <= i < |rows| ==>
         if i in FinishedIds(rows, day) then WholeMinutes(stays[i], rows[i].seatedAt.value, rows[i].closedAt.value)
         else stays[i] == 0
  }

  /** `avg` is `total` shared among `n`, cut off toward zero. */
  predicate IsMean(avg: int, total: int, n: nat) {
    if total >= 0 then avg * n <= total < (avg + 1) * n else (avg - 1) * n < total <= avg * n
  }

  lemma TruncatedIsMean(total: int, n: nat)
    requires n > 0
    ensures IsMean(Truncated(total, n), total, n)
  {
    if total >= 0 {
      var q := total / n;
      assert total == n * q + total % n;
      assert q * n == n * q && (q + 1) * n == n * q + n;
    } else {
      var q := -total / n;
      assert -total == n * q + (-total) % n;
      assert (-q) * n == -(n * q) && (-q - 1) * n == -(n * q) - n;
    }
  }

  lemma StayIsWholeMinutes(m: int, r: Row)
    requires r.seatedAt.Some? && r.closedAt.Some?
    requires WholeMinutes(m, r.seatedAt.value, r.closedAt.value)
    ensures SeatToClose(r) == m
  {
  }

  lemma {:induction false} DurationsAreTheStays(rows: seq<Row>, day: string, stays: seq<int>)
    requires AreStays(stays, rows, day)
    ensures Sum(Durations(rows, day)) == Sum(stays) && |Durations(rows, day)| == |FinishedIds(rows, day)|
  {
    if rows != [] {
      var n := |rows| - 1;
      LastFinished(rows, day);
      DurationsAreTheStays(rows[..n], day, stays[..n]);
      if Finished(rows[n], day) { StayIsWholeMinutes(stays[n], rows[n]); }
      LastDuration(rows, day);
    }
  }

  lemma LastFinished(rows: seq<Row>, day: string)
    requires rows != []
    ensures
      var n := |rows| - 1;
      var ids, past := FinishedIds(rows, day), FinishedIds(rows[..n], day);
      && (forall i :: 0 <= i < n ==> (i in past <==> i in ids))
      && (n in ids <==> Finished(rows[n], day)) && |ids| == |past| + (if Finished(rows[n], day) then 1 else 0)
  {
    var p := (r: Row) => Finished(r, day);
    PlacesGrow(rows, p);
    assert FinishedIds(rows, day) == Places(rows, p);
    assert FinishedIds(rows[..|rows| - 1], day) == Places(rows[..|rows| - 1], p);
  }

  lemma {:induction false} SumJoins(a: seq<int>, b: seq<int>)
    ensures Sum(a + b) == Sum(a) + Sum(b)
  {
    if b == [] {
      assert a + b == a;
    } else {
      var n := |b| - 1;
      assert (a + b)[..|a| + n] == a + b[..n];
      SumJoins(a, b[..n]);
    }
  }

  lemma SumOfOne(x: int)
    ensures Sum([x]) == x
  {
    var xs := [x];
    assert xs[..|xs| - 1] == [];
  }

  lemma LastDuration(rows: seq<Row>, day: string)
    requires rows != []
    ensures
      var n := |rows| - 1;
      var ds, past := Durations(rows, day), Durations(rows[..n], day);
      && Sum(ds) == Sum(past) + (if Finished(rows[n], day) then SeatToClose(rows[n]) else 0)
      && |ds| == |past| + (if Finished(rows[n], day) then 1 else 0)
  {
    var n := |rows| - 1;
    var ds, past := Durations(rows, day), Durations(rows[..n], day);
    if Finished(rows[n], day) {
      assert ds == past + [SeatToClose(rows[n])];
      SumJoins(past, [SeatToClose(rows[n])]);
      SumOfOne(SeatToClose(rows[n]));
    } else {
      assert ds == past;
    }
  }

  /** The average is the mean of the whole minutes the day's finished parties stayed, cut off toward zero; there is
      none exactly when nobody finished. */
  lemma AverageIsTheMean(rows: seq<Row>, day: string, stays: seq<int>)
    requires AreStays(stays, rows, day)
    ensures
      var avg, n := AverageWait(rows, day), |FinishedIds(rows, day)|;
      && (avg.None? <==> n == 0)
      && (avg.Some? ==> IsMean(avg.value, Sum(stays), n))
  {
    DurationsAreTheStays(rows, day, stays);
    var ds := Durations(rows, day);
    if ds != [] { TruncatedIsMean(Sum(ds), |ds|); }
  }

  lemma {:induction false} DurationsJoin(a: seq<Row>, b: seq<Row>, day: string)
    ensures Durations(a + b, day) == Durations(a, day) + Durations(b, day)
  {
    if b == [] {
      assert a + b == a;
    } else {
      var n := |b| - 1;
      var last := if Finished(b[n], day) then [SeatToClose(b[n])] else [];
      calc {
        Durations(a + b, day);
        { assert (a + b)[..|a| + n] == a + b[..n]; }
        Durations(a + b[..n], day) + last;
        { DurationsJoin(a, b[..n], day); }
        (Durations(a, day) + Durations(b[..n], day)) + last;
        Durations(a, day) + (Durations(b[..n], day) + last);
        Durations(a, day) + Durations(b, day);
      }
    }
  }

  /** What a list of rows adds up to. */
  function Tally(rows: seq<Row>, day: string): (int, nat) { (Sum(Durations(rows, day)), |Durations(rows, day)|) }

  lemma TallyJoins(a: seq<Row>, b: seq<Row>, day: string)
    ensures Tally(a + b, day).0 == Tally(a, day).0 + Tally(b, day).0
    ensures Tally(a + b, day).1 == Tally(a, day).1 + Tally(b, day).1
  {
    DurationsJoin(a, b, day);
    SumJoins(Durations(a, day), Durations(b, day));
  }

  function TakenOut(rows: seq<Row>, k: nat): seq<Row>
    requires k < |rows|
  {
    rows[..k] + rows[k + 1..]
  }

  /** A row can be taken out from anywhere. */
  lemma TallyTakesOut(rows: seq<Row>, k: nat, day: string)
    requires k < |rows|
    ensures Tally(rows, day).0 == Tally([rows[k]], day).0 + Tally(TakenOut(rows, k), day).0
    ensures Tally(rows, day).1 == Tally([rows[k]], day).1 + Tally(TakenOut(rows, k), day).1
  {
    var x, y := rows[..k], rows[k + 1..];
    assert rows == x + [rows[k]] + y;
    TallyJoins(x + [rows[k]], y, day);
    TallyJoins(x, [rows[k]], day);
    TallyJoins(x, y, day);
  }

  lemma TakingOutTakesOne(rows: seq<Row>, k: nat)
    requires k < |rows|
    ensures multiset(TakenOut(rows, k)) == multiset(rows) - multiset{rows[k]}
  {
    assert rows == rows[..k] + ([rows[k]] + rows[k + 1..]);
  }

  lemma SameRowSomewhere(a: seq<Row>, b: seq<Row>) returns (k: nat)
    requires multiset(a) == multiset(b) && a != []
    ensures k < |b| && b[k] == a[0]
  {
    assert a[0] in multiset(b);
    k :| 0 <= k < |b| && b[k] == a[0];
  }

  lemma {:induction false} TallyIgnoresOrder(a: seq<Row>, b: seq<Row>, day: string)
    requires multiset(a) == multiset(b)
    ensures Tally(a, day) == Tally(b, day)
    decreases |a|
  {
    if a == [] {
      assert |multiset(b)| == 0;
    } else {
      var k := SameRowSomewhere(a, b);
      TakingOutTakesOne(a, 0);
      TakingOutTakesOne(b, k);
      TallyIgnoresOrder(TakenOut(a, 0), TakenOut(b, k), day);
      SameTally(a, b, k, day);
    }
  }

  lemma SameTally(a: seq<Row>, b: seq<Row>, k: nat, day: string)
    requires a != [] && k < |b| && b[k] == a[0] && Tally(TakenOut(a, 0), day) == Tally(TakenOut(b, k), day)
    ensures Tally(a, day) == Tally(b, day)
  {
    TallyTakesOut(a, 0, day);
    TallyTakesOut(b, k, day);
  }

  /** The order the rows are read in does not matter to it. */
  lemma AverageIgnoresOrder(a: seq<Row>, b: seq<Row>, day: string)
    requires multiset(a) == multiset(b)
    ensures AverageWait(a, day) == AverageWait(b, day)
  {
    TallyIgnoresOrder(a, b, day);
  }

  // ------------------------------------------------------------------ bounds on it

  /** No stamp lies after `t`, and a finished party closed no earlier than it sat down. */
  predicate StampedBy(r: Row, t: Instant) {
    && (r.seatedAt.Some? ==> r.seatedAt.value <= t)
    && (r.status == Done && r.seatedAt.Some? && r.closedAt.Some? ==> r.seatedAt.value <= r.closedAt.value)
  }

  predicate AllStampedBy(s: State, t: Instant) { forall i :: 0 <= i < |s.rows| ==> StampedBy(s.rows[i], t) }

  lemma MoveKeepsStamps(a: Row, b: Row, step: Step, hold: nat, t: Instant)
    requires StampedBy(a, t) && LegalMove(a, b, step, hold) && t <= Clock(step)
    ensures StampedBy(b, Clock(step))
  {
  }

  predicate ClockForward(steps: seq<Step>) {
    forall i, j :: 0 <= i <= j < |steps| ==> Clock(steps[i]) <= Clock(steps[j])
  }

  lemma {:induction false} StampsOverRuns(z: Zone, settings: Settings, steps: seq<Step>)
    requires ClockForward(steps) && steps != []
    ensures AllStampedBy(Run(Empty(z, settings), steps), Clock(steps[|steps| - 1]))
  {
    var n, s0 := |steps| - 1, Empty(z, settings);
    var s, step := Run(s0, steps[..n]), steps[n];
    var t := if n == 0 then Clock(step) else Clock(steps[n - 1]);
    if n > 0 { StampsOverRuns(z, settings, steps[..n]); }
    assert AllStampedBy(s, t);
    StepMovesLegally(s, step);
    OnlyJoinsAppend(s, step);
    forall i | 0 <= i < |s.rows| ensures StampedBy(Next(s, step).rows[i], Clock(step)) {
      MoveKeepsStamps(s.rows[i], Next(s, step).rows[i], step, s.settings.hold, t);
    }
  }

  lemma {:induction false} DurationsNonNegative(rows: seq<Row>, day: string, t: Instant)
    requires forall i :: 0 <= i < |rows| ==> StampedBy(rows[i], t)
    ensures forall k :: 0 <= k < |Durations(rows, day)| ==> 0 <= Durations(rows, day)[k]
  {
    if rows != [] {
      var n := |rows| - 1;
      DurationsNonNegative(rows[..n], day, t);
      assert StampedBy(rows[n], t);
    }
  }

  lemma {:induction false} SumNonNegative(xs: seq<int>)
    requires forall i :: 0 <= i < |xs| ==> 0 <= xs[i]
    ensures 0 <= Sum(xs)
  {
    if xs != [] { SumNonNegative(xs[..|xs| - 1]); }
  }

  lemma StampedAverage(rows: seq<Row>, day: string, t: Instant)
    requires forall i :: 0 <= i < |rows| ==> StampedBy(rows[i], t)
    ensures AverageWait(rows, day).Some? ==> AverageWait(rows, day).value >= 0
  {
    DurationsNonNegative(rows, day, t);
    SumNonNegative(Durations(rows, day));
  }

  /** With a clock that never goes back, the average is never negative. */
  lemma AverageNeverNegative(z: Zone, settings: Settings, steps: seq<Step>, day: string)
    requires ClockForward(steps)
    ensures
      var avg := AverageWait(Run(Empty(z, settings), steps).rows, day);
      avg.Some? ==> avg.value >= 0
  {
    if steps != [] {
      StampsOverRuns(z, settings, steps);
      StampedAverage(Run(Empty(z, settings), steps).rows, day, Clock(steps[|steps| - 1]));
    }
  }
}
