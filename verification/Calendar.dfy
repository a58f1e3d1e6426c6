/** Business dates: the branch's local day, shifted back by its cutoff hour, rendered as text. */
module Calendar {
  import opened Text

  const MICROSECOND := 1
  const SECOND := 1_000_000
  const MINUTE := 60_000_000
  const HOUR := 3_600_000_000
  const DAY := 86_400_000_000

  /** The number of days `datetime.date` can name, 0001-01-01 to 9999-12-31. */
  const LAST_ORDINAL := 3652059

  /** A UTC instant as microseconds since 0001-01-01T00:00:00, leaving two days of room at either
      end of the range `datetime` can name, where the local arithmetic would overflow. */
  type Instant = t: int | 2 * DAY <= t < (LAST_ORDINAL - 2) * DAY witness 2 * DAY

  /** A branch's fixed UTC offset (less than a day either way) and its cutoff hour. */
  type Offset = o: int | -DAY < o < DAY witness 0
  type CutoffHour = h: nat | h < 24 witness 4

  datatype Zone = Zone(offset: Offset, cutoffHour: CutoffHour)

  // ------------------------------------------------------------------ the proleptic Gregorian calendar

  datatype Date = Date(year: nat, month: nat, day: nat)

  predicate Leap(y: nat) { y % 4 == 0 && (y % 100 != 0 || y % 400 == 0) }

  function MonthDays(y: nat, m: nat): (n: nat)
    ensures 28 <= n <= 31
  {
    if m == 2 then (if Leap(y) then 29 else 28)
    else if m in {4, 6, 9, 11} then 30
    else 31
  }

  predicate Valid(d: Date) { 1 <= d.year && 1 <= d.month <= 12 && 1 <= d.day <= MonthDays(d.year, d.month) }

  function Tomorrow(d: Date): (e: Date)
    requires Valid(d)
    ensures Valid(e) && DateBefore(d, e)
  {
    if d.day < MonthDays(d.year, d.month) then d.(day := d.day + 1)
    else if d.month < 12 then Date(d.year, d.month + 1, 1)
    else Date(d.year + 1, 1, 1)
  }

  /** The date `n` days after 0001-01-01. */
  function DateOf(n: nat): (d: Date)
    ensures Valid(d)
  {
    if n == 0 then Date(1, 1, 1) else Tomorrow(DateOf(n - 1))
  }

  function DaysBeforeYear(y: nat): int {
    365 * (y - 1) + (y - 1) / 4 - (y - 1) / 100 + (y - 1) / 400
  }

  function DaysBeforeMonth(y: nat, m: nat): nat
    requires 1 <= m <= 12
  {
    [0, 31, 59, 90, 120, 151, 181, 212, 243, 273, 304, 334][m - 1] + (if m > 2 && Leap(y) then 1 else 0)
  }

  /** The closed form `datetime` uses, 1 for 0001-01-01. */
  function Ordinal(d: Date): int
    requires Valid(d)
  {
    DaysBeforeYear(d.year) + DaysBeforeMonth(d.year, d.month) + d.day
  }

  lemma Quotients(k: nat)
    requires k >= 1
    ensures k / 4 - (k - 1) / 4 == if k % 4 == 0 then 1 else 0
    ensures k / 100 - (k - 1) / 100 == if k % 100 == 0 then 1 else 0
    ensures k / 400 - (k - 1) / 400 == if k % 400 == 0 then 1 else 0
    ensures k % 400 == 0 ==> k % 100 == 0
    ensures k % 100 == 0 ==> k % 4 == 0
  {
    QuotientStep(k, 4);
    QuotientStep(k, 100);
    QuotientStep(k, 400);
  }

  /** Counting up, a quotient steps at the multiples of its divisor. */
  lemma QuotientStep(k: nat, m: nat)
    requires k >= 1 && m >= 2
    ensures k / m - (k - 1) / m == if k % m == 0 then 1 else 0
  {
    var q, r := k / m, k % m;
    assert k == m * q + r;
    if r == 0 {
      assert m * (q - 1) == m * q - m;
      QuotientIsUnique(k - 1, m, q - 1, m - 1);
    } else {
      QuotientIsUnique(k - 1, m, q, r - 1);
    }
  }

  lemma QuotientIsUnique(a: int, n: int, q: int, r: int)
    requires n > 0 && a == n * q + r && 0 <= r < n
    ensures a / n == q
  {
    var d := a / n - q;
    assert n * d == r - a % n;
    assert -n < n * d < n;
  }

  lemma YearLength(y: nat)
    requires y >= 1
    ensures DaysBeforeYear(y + 1) == DaysBeforeYear(y) + (if Leap(y) then 366 else 365)
  {
    Quotients(y);
  }

  lemma MonthLength(y: nat, m: nat)
    requires 1 <= m < 12
    ensures DaysBeforeMonth(y, m + 1) == DaysBeforeMonth(y, m) + MonthDays(y, m)
  {
  }

  lemma OrdinalOfTomorrow(d: Date)
    requires Valid(d)
    ensures Ordinal(Tomorrow(d)) == Ordinal(d) + 1
  {
    if d.month < 12 { MonthLength(d.year, d.month); } else { YearLength(d.year); }
  }

  /** Counting days one by one agrees with the closed form. */
  lemma {:induction false} OrdinalOfDate(n: nat)
    ensures Ordinal(DateOf(n)) == n + 1
  {
    if n > 0 {
      OrdinalOfDate(n - 1);
      OrdinalOfTomorrow(DateOf(n - 1));
    }
  }

  /** Every ordinal `datetime` accepts has a four-digit year. */
  lemma FourDigitYears(n: nat)
    requires n < LAST_ORDINAL
    ensures DateOf(n).year <= 9999
  {
    OrdinalOfDate(n);
  }

  // ------------------------------------------------------------------ order

  predicate DateBefore(a: Date, b: Date) {
    a.year < b.year || (a.year == b.year && (a.month < b.month || (a.month == b.month && a.day < b.day)))
  }

  lemma {:induction false} LaterOrdinalLaterDate(m: nat, n: nat)
    requires m < n
    ensures DateBefore(DateOf(m), DateOf(n))
    decreases n
  {
    if m < n - 1 { LaterOrdinalLaterDate(m, n - 1); }
  }

  /** `date.isoformat()`. */
  function IsoText(d: Date): string { Padded(d.year, 4) + ("-" + (Padded(d.month, 2) + ("-" + Padded(d.day, 2)))) }

  /** A field compares first; what follows its separator decides only a tie. */
  lemma FieldOrder(m: nat, n: nat, width: nat, s: string, t: string)
    requires m <= n && 1 <= width && n < Pow10(width)
    requires m == n ==> TextBefore(s, t)
    ensures TextBefore(Padded(m, width) + ("-" + s), Padded(n, width) + ("-" + t))
  {
    if m < n {
      PaddedOrder(m, n, width, "-" + s, "-" + t);
    } else {
      TextBeforeSharedHead("-", s, t);
      TextBeforeSharedHead(Padded(m, width), "-" + s, "-" + t);
    }
  }

  /** Text order is date order (section 5.1 of RFC 3339), one step. */
  lemma EarlierDateEarlierText(a: Date, b: Date)
    requires Valid(a) && Valid(b) && b.year < 10000 && DateBefore(a, b)
    ensures TextBefore(IsoText(a), IsoText(b))
  {
    var dayA, dayB := Padded(a.day, 2), Padded(b.day, 2);
    var restA, restB := Padded(a.month, 2) + ("-" + dayA), Padded(b.month, 2) + ("-" + dayB);
    assert Pow10(2) == 100 && Pow10(4) == 10000;
    if a.year == b.year {
      if a.month == b.month {
        PaddedOrder(a.day, b.day, 2, "", "");
        assert dayA + "" == dayA && dayB + "" == dayB;
      }
      FieldOrder(a.month, b.month, 2, dayA, dayB);
    }
    FieldOrder(a.year, b.year, 4, restA, restB);
  }

  // ------------------------------------------------------------------ business dates

  /** The branch's business day as a day number: local time less the cutoff, whole days. */
  function BusinessDay(z: Zone, now: Instant): (n: nat)
    ensures n < LAST_ORDINAL
  {
    (now + z.offset - z.cutoffHour * HOUR) / DAY
  }

  /** `business_date_for`: the same day as YYYY-MM-DD. */
  function BusinessDate(z: Zone, now: Instant): string { IsoText(DateOf(BusinessDay(z, now))) }

  predicate SameText(z: Zone, t: Instant, u: Instant) { BusinessDate(z, t) == BusinessDate(z, u) }

  /** Text order of two business dates is chronological order of the days they name, both ways. */
  lemma TextOrderIsDayOrder(z: Zone, t: Instant, u: Instant)
    ensures TextBefore(BusinessDate(z, t), BusinessDate(z, u)) <==> BusinessDay(z, t) < BusinessDay(z, u)
    ensures SameText(z, t, u) <==> BusinessDay(z, t) == BusinessDay(z, u)
  {
    var m, n := BusinessDay(z, t), BusinessDay(z, u);
    FourDigitYears(m);
    FourDigitYears(n);
    if m < n {
      LaterOrdinalLaterDate(m, n);
      EarlierDateEarlierText(DateOf(m), DateOf(n));
      TextBeforeAsymmetric(BusinessDate(z, t), BusinessDate(z, u));
    } else if n < m {
      LaterOrdinalLaterDate(n, m);
      EarlierDateEarlierText(DateOf(n), DateOf(m));
      TextBeforeAsymmetric(BusinessDate(z, u), BusinessDate(z, t));
    } else {
      if TextBefore(BusinessDate(z, t), BusinessDate(z, u)) {
        TextBeforeAsymmetric(BusinessDate(z, t), BusinessDate(z, u));
      }
    }
  }

  /** The business day is the one whose local 24 hours, begun at the cutoff, hold the instant. */
  lemma BusinessDayExactly(z: Zone, now: Instant, n: nat)
    ensures BusinessDay(z, now) == n <==> 0 <= now + z.offset - (n * DAY + z.cutoffHour * HOUR) < DAY
  {
  }

  /** The printed date holds year, month and day as numbers of four, two and two digits, with dashes between. */
  lemma PrintedDate(z: Zone, now: Instant)
    ensures
      var text, d := BusinessDate(z, now), DateOf(BusinessDay(z, now));
      && |text| == 10 && text[4] == '-' && text[7] == '-'
      && AllDigits(text[..4]) && AllDigits(text[5..7]) && AllDigits(text[8..])
      && Numeral(text[..4]) == d.year && Numeral(text[5..7]) == d.month && Numeral(text[8..]) == d.day
  {
    var d := DateOf(BusinessDay(z, now));
    FourDigitYears(BusinessDay(z, now));
    PrintedField(d.year, 4);
    PrintedField(d.month, 2);
    PrintedField(d.day, 2);
    DashedFields(Padded(d.year, 4), Padded(d.month, 2), Padded(d.day, 2));
  }

  lemma PrintedField(n: nat, width: nat)
    requires (width == 4 && n < 10000) || (width == 2 && n < 100)
    ensures |Padded(n, width)| == width && Numeral(Padded(n, width)) == n
  {
    assert Pow10(2) == 100 && Pow10(4) == 10000;
    PaddedWidth(n, width);
    PaddedRoundTrip(n, width);
  }

  lemma DashedFields(y: string, m: string, d: string)
    requires |y| == 4 && |m| == 2 && |d| == 2
    ensures
      var text := y + ("-" + (m + ("-" + d)));
      |text| == 10 && text[4] == text[7] == '-' && text[..4] == y && text[5..7] == m && text[8..] == d
  {
  }

  /** The date never goes back as the clock advances. */
  lemma BusinessDayMonotone(z: Zone, t: Instant, u: Instant)
    requires t <= u
    ensures BusinessDay(z, t) <= BusinessDay(z, u)
    ensures !TextBefore(BusinessDate(z, u), BusinessDate(z, t))
  {
    TextOrderIsDayOrder(z, u, t);
  }

  /** Whether the branch's wall clock reads exactly its cutoff hour at `t`. */
  predicate AtCutoff(z: Zone, t: Instant) { (t + z.offset) % DAY == z.cutoffHour * HOUR }

  lemma CutoffArithmetic(local: int, h: CutoffHour)
    requires local - h * HOUR >= 1
    ensures (local - 1 - h * HOUR) / DAY != (local - h * HOUR) / DAY <==> local % DAY == h * HOUR
  {
    var x := local - h * HOUR;
    assert local == DAY * (x / DAY) + (x % DAY + h * HOUR);
    if x % DAY == 0 {
      assert local / DAY == x / DAY;
    }
  }

  lemma DayNumbers(z: Zone, t: Instant, u: Instant)
    requires t <= u <= t + DAY
    ensures BusinessDay(z, u) == BusinessDay(z, t) || BusinessDay(z, u) == BusinessDay(z, t) + 1
    ensures u == t + DAY ==> BusinessDay(z, u) == BusinessDay(z, t) + 1
    ensures u == t + 1 ==> (BusinessDay(z, t) != BusinessDay(z, u) <==> AtCutoff(z, u))
  {
    CutoffArithmetic(u + z.offset, z.cutoffHour);
  }

  lemma DateFollows(n: nat)
    ensures DateOf(n + 1) == Tomorrow(DateOf(n))
  {
  }

  /** The date changes at the cutoff hour and at no other microsecond. */
  lemma ChangesExactlyAtCutoff(z: Zone, t: Instant, u: Instant)
    requires u == t + MICROSECOND
    ensures !SameText(z, t, u) <==> AtCutoff(z, u)
  {
    DayNumbers(z, t, u);
    TextOrderIsDayOrder(z, t, u);
  }

  /** One cutoff in any 24 hours: the date a day later is the next calendar date. */
  lemma OneChangePerDay(z: Zone, t: Instant, u: Instant, v: Instant)
    requires v == t + DAY && t <= u <= v
    ensures BusinessDate(z, v) == IsoText(Tomorrow(DateOf(BusinessDay(z, t))))
    ensures SameText(z, u, t) || SameText(z, u, v)
  {
    DayNumbers(z, t, u);
    DayNumbers(z, t, v);
    DateFollows(BusinessDay(z, t));
  }
}
