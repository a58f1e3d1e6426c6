/** Which day the staff queue and the dashboard read. */
module Days {
  import opened Text
  import opened Calendar
  import opened Rules
  import opened Numbering

  lemma {:induction false} TextBeforeTransitive(a: string, b: string, c: string)
    requires TextBefore(a, b) && TextBefore(b, c)
    ensures TextBefore(a, c)
  {
    if a != [] && a[0] == b[0] && b[0] == c[0] { TextBeforeTransitive(a[1..], b[1..], c[1..]); }
  }

  lemma {:induction false} NewestDayIsLast(rows: seq<Row>, j: nat)
    requires j < |rows|
    ensures HasRowsOn(rows, NewestDay(rows)) && !TextBefore(NewestDay(rows), rows[j].day)
  {
    var n := |rows| - 1;
    if n == 0 {
      if TextBefore(rows[0].day, rows[0].day) { TextBeforeAsymmetric(rows[0].day, rows[0].day); }
    } else {
      var best := NewestDay(rows[..n]);
      NewestDayIsLast(rows[..n], if j < n then j else 0);
      var i :| 0 <= i < n && rows[..n][i].day == best;
      assert rows[i].day == best;
      if TextBefore(best, rows[n].day) {
        if TextBefore(rows[n].day, rows[j].day) {
          if j < n { TextBeforeTransitive(best, rows[n].day, rows[j].day); }
          else { TextBeforeAsymmetric(rows[n].day, rows[n].day); }
        }
      }
    }
  }

  /** No row was written against a later business day than row `i`. */
  predicate IsNewest(z: Zone, rows: seq<Row>, i: nat)
    requires i < |rows|
  {
    forall j :: 0 <= j < |rows| ==> BusinessDay(z, rows[j].createdAt) <= BusinessDay(z, rows[i].createdAt)
  }

  /** The last date in text order is the date of the chronologically newest day that holds rows. */
  lemma NewestDayIsNewest(z: Zone, rows: seq<Row>)
    requires Numbered(z, rows) && rows != []
    ensures exists i :: 0 <= i < |rows| && rows[i].day == NewestDay(rows) && IsNewest(z, rows, i)
  {
    NewestDayIsLast(rows, 0);
    var i :| 0 <= i < |rows| && rows[i].day == NewestDay(rows);
    forall j | 0 <= j < |rows| ensures BusinessDay(z, rows[j].createdAt) <= BusinessDay(z, rows[i].createdAt) {
      NewestDayIsLast(rows, j);
      assert NumberedAt(z, rows, i) && NumberedAt(z, rows, j);
      TextOrderIsDayOrder(z, rows[i].createdAt, rows[j].createdAt);
    }
  }

  /** The staff queue reads the clock's day when it holds rows or the branch holds none, and otherwise the
      newest day that does. */
  lemma QueueDayIsClockElseNewest(s: State, now: Instant)
    requires Numbered(s.zone, s.rows)
    ensures HasRowsOn(s.rows, BusinessDate(s.zone, now)) || s.rows == [] ==>
              QueueDay(s, now) == BusinessDate(s.zone, now)
    ensures !HasRowsOn(s.rows, BusinessDate(s.zone, now)) && s.rows != [] ==>
      exists i :: 0 <= i < |s.rows| && s.rows[i].day == QueueDay(s, now) && IsNewest(s.zone, s.rows, i)
  {
    if s.rows != [] { NewestDayIsNewest(s.zone, s.rows); }
  }

  /** The dashboard reads the same day as the staff queue, except when the clock's day is empty and the
      fixture's day is not. */
  lemma ReadDayIsQueueDay(s: State, now: Instant)
    ensures ReadDay(s, now) == QueueDay(s, now)
            || (!HasRowsOn(s.rows, BusinessDate(s.zone, now))
                && ReadDay(s, now) == BusinessDate(s.zone, FIXTURE_INSTANT))
    ensures s.rows != [] ==> HasRowsOn(s.rows, QueueDay(s, now)) && HasRowsOn(s.rows, ReadDay(s, now))
  {
    if s.rows != [] { NewestDayIsLast(s.rows, 0); }
  }

  /** The three authorities for the day the dashboard reads, each asked only when the ones before hold no row. */
  lemma ReadDayExactly(s: State, now: Instant)
    requires Numbered(s.zone, s.rows)
    ensures
      var clock, fixture := BusinessDate(s.zone, now), BusinessDate(s.zone, FIXTURE_INSTANT);
      && (HasRowsOn(s.rows, clock) || s.rows == [] ==> ReadDay(s, now) == clock)
      && (!HasRowsOn(s.rows, clock) && HasRowsOn(s.rows, fixture) ==> ReadDay(s, now) == fixture)
      && (!HasRowsOn(s.rows, clock) && !HasRowsOn(s.rows, fixture) && s.rows != [] ==>
            exists i :: 0 <= i < |s.rows| && s.rows[i].day == ReadDay(s, now) && IsNewest(s.zone, s.rows, i))
  {
    if s.rows != [] { NewestDayIsNewest(s.zone, s.rows); }
  }

  /** The fixture's instant is one in the afternoon of 10 September 2026. */
  lemma FixtureInstant()
    ensures Ordinal(Date(2026, 9, 10)) == FIXTURE_INSTANT / DAY + 1 && FIXTURE_INSTANT % DAY == 13 * HOUR
  {
  }

  lemma {:induction false} SameDaysSameNewest(a: seq<Row>, b: seq<Row>)
    requires |a| == |b| && a != [] && forall i :: 0 <= i < |a| ==> a[i].day == b[i].day
    ensures NewestDay(a) == NewestDay(b)
  {
    var n := |a| - 1;
    if n > 0 { SameDaysSameNewest(a[..n], b[..n]); }
  }

  /** The day read depends on the rows' dates alone, so no status change moves it. */
  lemma DayReadIgnoresStatuses(s: State, t: State, now: Instant)
    requires s.zone == t.zone && |s.rows| == |t.rows|
    requires forall i :: 0 <= i < |s.rows| ==> s.rows[i].day == t.rows[i].day
    ensures QueueDay(s, now) == QueueDay(t, now) && ReadDay(s, now) == ReadDay(t, now)
  {
    if s.rows != [] { SameDaysSameNewest(s.rows, t.rows); }
    SameDaysSameHolds(s.rows, t.rows, BusinessDate(s.zone, now));
    SameDaysSameHolds(s.rows, t.rows, BusinessDate(s.zone, FIXTURE_INSTANT));
  }

  lemma SameDaysSameHolds(a: seq<Row>, b: seq<Row>, day: string)
    requires |a| == |b| && forall i :: 0 <= i < |a| ==> a[i].day == b[i].day
    ensures HasRowsOn(a, day) <==> HasRowsOn(b, day)
  {
    if HasRowsOn(a, day) {
      var i :| 0 <= i < |a| && a[i].day == day;
      assert b[i].day == day;
    }
    if HasRowsOn(b, day) {
      var i :| 0 <= i < |b| && b[i].day == day;
      assert a[i].day == day;
    }
  }
}
