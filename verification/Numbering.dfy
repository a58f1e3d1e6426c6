/** Queue numbers: what `next_seq` allocates over any run, and what a printed number identifies. */
module Numbering {
  import opened Text
  import opened Calendar
  import opened Rules
  import opened Lifecycle

  // ------------------------------------------------------------------ printed numbers are injective

  /** Text cut at the first character outside a class can be cut in one place only. */
  lemma CutOnce(inside: char -> bool, p: string, x: string, q: string, y: string)
    requires (forall i :: 0 <= i < |p| ==> inside(p[i])) && (forall i :: 0 <= i < |q| ==> inside(q[i]))
    requires x != [] && y != [] && !inside(x[0]) && !inside(y[0])
    requires p + x == q + y
    ensures p == q && x == y
  {
    assert (p + x)[|p|] == x[0] && (q + y)[|q|] == y[0];
    assert |p| == |q|;
    assert p == (p + x)[..|p|] && q == (q + y)[..|q|];
    assert x == (p + x)[|p|..] && y == (q + y)[|q|..];
  }

  predicate Capital(c: char) { 'A' <= c <= 'Z' }

  /** A queue number names its prefix and its sequence number, for sequences of any length. */
  lemma QueueNumberInjective(p: string, k: nat, q: string, l: nat)
    requires Letters(p) && Letters(q) && QueueNumber(p, k) == QueueNumber(q, l)
    ensures p == q && k == l
  {
    CutOnce(Capital, p, Padded(k, 3), q, Padded(l, 3));
    PaddedRoundTrip(k, 3);
    PaddedRoundTrip(l, 3);
  }

  lemma {:induction false} DashlessConcat(a: string, b: string)
    ensures Dashless(a + b) == Dashless(a) + Dashless(b)
  {
    if a == [] {
      assert a + b == b;
    } else {
      var head := if a[0] == '-' then [] else [a[0]];
      calc {
        Dashless(a + b);
        { assert (a + b)[0] == a[0] && (a + b)[1..] == a[1..] + b; }
        head + Dashless(a[1..] + b);
        { DashlessConcat(a[1..], b); }
        head + (Dashless(a[1..]) + Dashless(b));
        (head + Dashless(a[1..])) + Dashless(b);
        Dashless(a) + Dashless(b);
      }
    }
  }

  lemma {:induction false} DashlessDigits(s: string)
    requires AllDigits(s)
    ensures Dashless(s) == s
  {
    if s != [] { DashlessDigits(s[1..]); }
  }

  function PlainDate(d: Date): string { Padded(d.year, 4) + (Padded(d.month, 2) + Padded(d.day, 2)) }

  lemma DashlessField(field: string, rest: string)
    requires AllDigits(field)
    ensures Dashless(field + ("-" + rest)) == field + Dashless(rest)
  {
    var tail := "-" + rest;
    DashlessDigits(field);
    DashlessConcat(field, tail);
    assert tail[0] == '-' && tail[1..] == rest;
    assert Dashless(tail) == [] + Dashless(rest) == Dashless(rest);
  }

  lemma DashlessDate(d: Date)
    ensures Dashless(IsoText(d)) == PlainDate(d)
    ensures AllDigits(PlainDate(d))
  {
    DashlessField(Padded(d.year, 4), Padded(d.month, 2) + ("-" + Padded(d.day, 2)));
    DashlessField(Padded(d.month, 2), Padded(d.day, 2));
    DashlessDigits(Padded(d.day, 2));
  }

  /** Dropping the dashes loses nothing: the fields have fixed widths. */
  lemma PlainDateInjective(a: Date, b: Date)
    requires Valid(a) && Valid(b) && a.year < 10000 && b.year < 10000 && PlainDate(a) == PlainDate(b)
    ensures IsoText(a) == IsoText(b)
  {
    assert Pow10(2) == 100 && Pow10(4) == 10000;
    PaddedWidth(a.year, 4);
    PaddedWidth(b.year, 4);
    PaddedWidth(a.month, 2);
    PaddedWidth(b.month, 2);
    var x, y := PlainDate(a), PlainDate(b);
    assert Padded(a.year, 4) == x[..4] && Padded(b.year, 4) == y[..4];
    assert Padded(a.month, 2) + Padded(a.day, 2) == x[4..] && Padded(b.month, 2) + Padded(b.day, 2) == y[4..];
    assert Padded(a.month, 2) == x[4..][..2] && Padded(b.month, 2) == y[4..][..2];
    assert Padded(a.day, 2) == x[4..][2..] && Padded(b.day, 2) == y[4..][2..];
  }

  /** A full queue number names its prefix, its business date and its sequence number. */
  lemma FullNumberInjective(z: Zone, p: string, t: Instant, k: nat, q: string, u: Instant, l: nat)
    requires Letters(p) && Letters(q)
    requires FullQueueNumber(p, BusinessDate(z, t), k) == FullQueueNumber(q, BusinessDate(z, u), l)
    ensures p == q && SameText(z, t, u) && k == l
  {
    var a, b := DateOf(BusinessDay(z, t)), DateOf(BusinessDay(z, u));
    FourDigitYears(BusinessDay(z, t));
    FourDigitYears(BusinessDay(z, u));
    DashlessDate(a);
    DashlessDate(b);
    var x, y := PlainDate(a) + ("-" + Padded(k, 3)), PlainDate(b) + ("-" + Padded(l, 3));
    CutOnce(Capital, p, "-" + x, q, "-" + y);
    assert x == ("-" + x)[1..] && y == ("-" + y)[1..];
    CutOnce(IsDigit, PlainDate(a), "-" + Padded(k, 3), PlainDate(b), "-" + Padded(l, 3));
    PlainDateInjective(a, b);
    assert Padded(k, 3) == ("-" + Padded(k, 3))[1..] && Padded(l, 3) == ("-" + Padded(l, 3))[1..];
    PaddedRoundTrip(k, 3);
    PaddedRoundTrip(l, 3);
  }

  // ------------------------------------------------------------------ allocation over runs

  /** How many rows carry one day and prefix. */
  function CountOf(rows: seq<Row>, day: string, prefix: string): nat {
    if rows == [] then 0
    else
      var n := |rows| - 1;
      CountOf(rows[..n], day, prefix) + (if rows[n].day == day && rows[n].prefix == prefix then 1 else 0)
  }

  /** A row's number is its rank among the joins under its day and prefix, printed both ways. */
  predicate NumberedAt(z: Zone, rows: seq<Row>, i: nat)
    requires i < |rows|
  {
    var r := rows[i];
    && r.serial == CountOf(rows[..i], r.day, r.prefix) + 1
    && Letters(r.prefix) && r.day == BusinessDate(z, r.createdAt)
    && r.number == QueueNumber(r.prefix, r.serial)
    && r.fullNumber == FullQueueNumber(r.prefix, r.day, r.serial)
  }

  predicate Numbered(z: Zone, rows: seq<Row>) { forall i :: 0 <= i < |rows| ==> NumberedAt(z, rows, i) }

  lemma NumberedPrefix(z: Zone, rows: seq<Row>, n: nat)
    requires Numbered(z, rows) && n <= |rows|
    ensures Numbered(z, rows[..n])
  {
    forall i | 0 <= i < n ensures NumberedAt(z, rows[..n], i) {
      assert NumberedAt(z, rows, i);
      assert rows[..n][..i] == rows[..i];
    }
  }

  /** The highest sequence number in use is the number of rows: nothing is skipped or used twice. */
  lemma {:induction false} TopSeqIsCount(z: Zone, rows: seq<Row>, day: string, prefix: string)
    requires Numbered(z, rows)
    ensures TopSeq(rows, day, prefix) == CountOf(rows, day, prefix)
  {
    if rows != [] {
      var n := |rows| - 1;
      NumberedPrefix(z, rows, n);
      TopSeqIsCount(z, rows[..n], day, prefix);
      assert NumberedAt(z, rows, n);
    }
  }

  lemma {:induction false} SameGuestsSameCount(a: seq<Row>, b: seq<Row>, day: string, prefix: string)
    requires |a| == |b| && forall i :: 0 <= i < |a| ==> SameGuest(a[i], b[i])
    ensures CountOf(a, day, prefix) == CountOf(b, day, prefix)
  {
    if a != [] {
      var n := |a| - 1;
      SameGuestsSameCount(a[..n], b[..n], day, prefix);
    }
  }

  predicate NumberInv(s: State) { Numbered(s.zone, s.rows) && Letters(s.settings.prefix) }

  lemma SameGuestsSameNumber(z: Zone, a: seq<Row>, b: seq<Row>, i: nat)
    requires i < |a| <= |b| && NumberedAt(z, a, i) && forall j :: 0 <= j < |a| ==> SameGuest(a[j], b[j])
    ensures NumberedAt(z, b, i)
  {
    SameGuestsSameCount(a[..i], b[..i], a[i].day, a[i].prefix);
  }

  lemma TicketIsNumbered(s: State, name: string, phone: string, partySize: int, note: Option<string>, now: Instant)
    requires NumberInv(s)
    ensures NumberedAt(s.zone, s.rows + [Ticket(s, name, phone, partySize, note, now)], |s.rows|)
  {
    var guest := Ticket(s, name, phone, partySize, note, now);
    assert (s.rows + [guest])[..|s.rows|] == s.rows;
    TopSeqIsCount(s.zone, s.rows, guest.day, guest.prefix);
  }

  lemma StepKeepsNumbers(s: State, step: Step)
    requires NumberInv(s)
    ensures NumberInv(Next(s, step))
  {
    var s' := Next(s, step);
    StepMovesLegally(s, step);
    OnlyJoinsAppend(s, step);
    StepKeepsSettings(s, step);
    forall i | 0 <= i < |s'.rows| ensures NumberedAt(s.zone, s'.rows, i) {
      if i < |s.rows| {
        SameGuestsSameNumber(s.zone, s.rows, s'.rows, i);
      } else {
        TicketIsNumbered(s, step.name, step.phone, step.partySize, step.note, step.now);
      }
    }
  }

  /** The date without its dashes is the printed date's digits. */
  lemma PlainIsDashless(z: Zone, now: Instant)
    ensures
      var day := BusinessDate(z, now);
      |Dashless(day)| == 8 && Dashless(day) == day[..4] + day[5..7] + day[8..]
  {
    var d := DateOf(BusinessDay(z, now));
    FourDigitYears(BusinessDay(z, now));
    PrintedField(d.year, 4);
    PrintedField(d.month, 2);
    PrintedField(d.day, 2);
    DashedFields(Padded(d.year, 4), Padded(d.month, 2), Padded(d.day, 2));
    DashlessDate(d);
  }

  /** A printed queue number is its prefix and then the sequence in decimal, three digits or more and no zero in
      front of more than three; the full one is prefix, date without dashes and sequence, dashed together. */
  lemma PrintedNumbers(z: Zone, now: Instant, p: string, k: nat)
    ensures
      var number, full, day := QueueNumber(p, k), FullQueueNumber(p, BusinessDate(z, now), k), BusinessDate(z, now);
      var digits := number[|p|..];
      && |p| + 3 <= |number| && number[..|p|] == p && AllDigits(digits) && Numeral(digits) == k
      && (|digits| > 3 ==> digits[0] != '0')
      && |day| == 10 && |full| == |p| + 10 + |digits| && full[..|p|] == p && full[|p|] == '-' && full[|p| + 9] == '-'
      && full[|p| + 1..|p| + 9] == day[..4] + day[5..7] + day[8..] && full[|p| + 10..] == digits
  {
    PrintedDate(z, now);
    PlainIsDashless(z, now);
    PaddedRoundTrip(k, 3);
    NoLeadingZero(k, 3);
    JoinedNumber(p, Dashless(BusinessDate(z, now)), Padded(k, 3));
  }

  lemma JoinedNumber(p: string, date: string, digits: string)
    requires |date| == 8
    ensures
      var full := p + ("-" + (date + ("-" + digits)));
      && |full| == |p| + 10 + |digits| && full[..|p|] == p && full[|p|] == '-' && full[|p| + 9] == '-'
      && full[|p| + 1..|p| + 9] == date && full[|p| + 10..] == digits
      && (p + digits)[|p|..] == digits && (p + digits)[..|p|] == p
  {
  }

  lemma {:induction false} NoLeadingZero(n: nat, width: nat)
    ensures |Padded(n, width)| > width && |Padded(n, width)| > 1 ==> Padded(n, width)[0] != '0'
    decreases n, width
  {
    if !(n < 10 && width <= 1) {
      NoLeadingZero(n / 10, if width == 0 then 0 else width - 1);
    }
  }

  /** The allocation invariant holds over every run, changes of the prefix included. */
  lemma {:induction false} ReachableRowsAreNumbered(z: Zone, settings: Settings, steps: seq<Step>)
    requires Letters(settings.prefix)
    ensures NumberInv(Run(Empty(z, settings), steps))
    ensures Run(Empty(z, settings), steps).zone == z
  {
    if steps != [] {
      var n := |steps| - 1;
      ReachableRowsAreNumbered(z, settings, steps[..n]);
      StepKeepsNumbers(Run(Empty(z, settings), steps[..n]), steps[n]);
      StepKeepsSettings(Run(Empty(z, settings), steps[..n]), steps[n]);
    }
  }

  // ------------------------------------------------------------------ what the invariant says of a store

  predicate Carries(r: Row, day: string, prefix: string, k: nat) { r.day == day && r.prefix == prefix && r.serial == k }

  lemma {:induction false} CountGrows(rows: seq<Row>, m: nat, n: nat, day: string, prefix: string)
    requires m <= n <= |rows|
    ensures CountOf(rows[..m], day, prefix) <= CountOf(rows[..n], day, prefix)
    decreases n
  {
    if m < n {
      CountGrows(rows, m, n - 1, day, prefix);
      assert rows[..n][..n - 1] == rows[..n - 1];
    }
  }

  /** Later joins under one day and prefix get higher numbers. */
  lemma LaterJoinHigherSeq(z: Zone, rows: seq<Row>, i: nat, j: nat)
    requires Numbered(z, rows) && i < j < |rows| && rows[i].day == rows[j].day && rows[i].prefix == rows[j].prefix
    ensures rows[i].serial < rows[j].serial
  {
    assert NumberedAt(z, rows, i) && NumberedAt(z, rows, j);
    assert rows[..i + 1][..i] == rows[..i];
    CountGrows(rows, i + 1, j, rows[i].day, rows[i].prefix);
  }

  /** Under each day and prefix the sequence numbers in use are exactly 1..n. */
  lemma {:induction false} SeqsAreOneToN(z: Zone, rows: seq<Row>, day: string, prefix: string, k: nat)
    requires Numbered(z, rows)
    ensures 1 <= k <= CountOf(rows, day, prefix) <==> exists i :: 0 <= i < |rows| && Carries(rows[i], day, prefix, k)
  {
    if rows != [] {
      var n := |rows| - 1;
      NumberedPrefix(z, rows, n);
      SeqsAreOneToN(z, rows[..n], day, prefix, k);
      assert NumberedAt(z, rows, n);
      assert forall i :: 0 <= i < n && Carries(rows[i], day, prefix, k) ==> Carries(rows[..n][i], day, prefix, k);
      assert forall i :: 0 <= i < n && Carries(rows[..n][i], day, prefix, k) ==> Carries(rows[i], day, prefix, k);
    }
  }

  /** No two guests of a day hold the same number, and no two guests ever hold the same full number. */
  lemma NumbersIdentifyGuests(z: Zone, rows: seq<Row>, i: nat, j: nat)
    requires Numbered(z, rows) && i < j < |rows|
    ensures rows[i].day == rows[j].day ==> rows[i].number != rows[j].number
    ensures rows[i].fullNumber != rows[j].fullNumber
  {
    assert NumberedAt(z, rows, i) && NumberedAt(z, rows, j);
    var a, b := rows[i], rows[j];
    if a.day == b.day && a.number == b.number {
      QueueNumberInjective(a.prefix, a.serial, b.prefix, b.serial);
      LaterJoinHigherSeq(z, rows, i, j);
    }
    if a.fullNumber == b.fullNumber {
      FullNumberInjective(z, a.prefix, a.createdAt, a.serial, b.prefix, b.createdAt, b.serial);
      LaterJoinHigherSeq(z, rows, i, j);
    }
  }

  /** `find_entry_by_tail`: the rows of the clock's day with this number and phone tail. */
  predicate TailMatch(s: State, i: nat, number: string, last3: string, now: Instant)
    requires i < |s.rows|
  {
    var r := s.rows[i];
    r.number == number && LastThree(Digits(r.phone)) == last3 && r.day == BusinessDate(s.zone, now)
  }

  /** The lookup has at most one candidate, so the order it searches in cannot matter. */
  lemma TailLookupIsUnique(s: State, i: nat, j: nat, number: string, last3: string, now: Instant)
    requires NumberInv(s) && i < |s.rows| && j < |s.rows|
    requires TailMatch(s, i, number, last3, now) && TailMatch(s, j, number, last3, now)
    ensures i == j
  {
    if i < j { NumbersIdentifyGuests(s.zone, s.rows, i, j); }
    if j < i { NumbersIdentifyGuests(s.zone, s.rows, j, i); }
  }
}
