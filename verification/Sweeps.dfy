/** The lazy no-show: two sweeps, one effect, and no harm in stopping half-way. */
module Sweeps {
  import opened Text
  import opened Calendar
  import opened Rules

  // ------------------------------------------------------------------ the truncated guard

  /** The countdown is below one second whenever the hold has run out, and a whole second or more only
      while at least that much is left: the truncation never hides an expired call from the staff sweep. */
  lemma ExpiredHasNoSecondsLeft(r: Row, now: Instant)
    ensures Expired(r, now) ==> RemainingSeconds(r, now).Some? && RemainingSeconds(r, now).value <= 0
    ensures RemainingSeconds(r, now).Some? && RemainingSeconds(r, now).value >= 1 ==> !Expired(r, now)
    ensures RemainingSeconds(r, now).Some? && !Expired(r, now) ==> RemainingSeconds(r, now).value >= 0
  {
  }

  /** So the guard changes nothing: the staff sweep's step on a row is the single-row rule. */
  lemma StaffLapseIsLapse(r: Row, now: Instant)
    ensures StaffLapse(r, now) == Lapse(r, now)
  {
    ExpiredHasNoSecondsLeft(r, now);
  }

  /** The guard alone would be wrong: within its last second a live call already counts down to zero. */
  lemma TruncationReadsZeroEarly(r: Row, now: Instant)
    requires r.status == Called && r.hold.Some? && r.calledAt.Some?
    ensures RemainingSeconds(r, now).value == 0 && !Expired(r, now)
            <==> 0 < r.calledAt.value + r.hold.value * MINUTE - now < SECOND
  {
  }

  /** The countdown: shown for a CALLED row with its call and hold on record and for no other, the seconds from the
      clock to the end of the hold, a started one dropped on either side of it. */
  lemma CountdownExactly(r: Row, now: Instant)
    ensures RemainingSeconds(r, now).Some? <==> r.status == Called && r.hold.Some? && r.calledAt.Some?
    ensures RemainingSeconds(r, now).Some? ==>
      var left, shown := r.calledAt.value + r.hold.value * 60 * SECOND - now, RemainingSeconds(r, now).value;
      if left >= 0 then shown * SECOND <= left < (shown + 1) * SECOND
      else (shown - 1) * SECOND < left <= shown * SECOND
  {
  }

  /** A call runs out exactly its hold, in minutes, after it was made. */
  lemma ExpiresExactly(r: Row, now: Instant)
    ensures Expired(r, now) <==>
      && r.status == Called && r.hold.Some? && r.calledAt.Some?
      && now - r.calledAt.value >= r.hold.value * 60 * 1_000_000
  {
  }

  // ------------------------------------------------------------------ what a sweep does

  /** The dashboard sweep is the staff sweep, confined to its day. */
  lemma SweepsAgree(s: State, day: string, now: Instant)
    ensures |DaySweep(s, day, now).rows| == |StaffSweep(s, now).after.rows| == |s.rows|
    ensures forall i :: 0 <= i < |s.rows| ==>
      DaySweep(s, day, now).rows[i] == (if s.rows[i].day == day then StaffSweep(s, now).after.rows[i] else s.rows[i])
  {
    forall i | 0 <= i < |s.rows| ensures StaffLapse(s.rows[i], now) == Lapse(s.rows[i], now) {
      StaffLapseIsLapse(s.rows[i], now);
    }
  }

  /** The staff sweep turns exactly the calls past their hold into no-shows, closes them at the clock it
      was given, and writes nothing else: no other column, no other row, no table. */
  lemma StaffSweepExactly(s: State, now: Instant)
    ensures StaffSweep(s, now).after.tables == s.tables && StaffSweep(s, now).after.settings == s.settings
    ensures forall i :: 0 <= i < |s.rows| ==>
      var before, after := s.rows[i], StaffSweep(s, now).after.rows[i];
      && (Expired(before, now) <==> before != after)
      && (before != after ==> before.status == Called && after.status == NoShow && after.closedAt == Some(now))
      && after == before.(status := after.status, closedAt := after.closedAt)
  {
    forall i | 0 <= i < |s.rows| ensures StaffLapse(s.rows[i], now) == Lapse(s.rows[i], now) {
      StaffLapseIsLapse(s.rows[i], now);
    }
  }

  /** After a sweep no live call has run out, and every countdown shown is at least zero. */
  lemma NothingExpiredAfterSweep(s: State, now: Instant, i: nat)
    requires i < |s.rows|
    ensures
      var r := StaffSweep(s, now).after.rows[i];
      !Expired(r, now) && (RemainingSeconds(r, now).Some? ==> RemainingSeconds(r, now).value >= 0)
  {
    StaffLapseIsLapse(s.rows[i], now);
    ExpiredHasNoSecondsLeft(StaffLapse(s.rows[i], now), now);
  }

  // ------------------------------------------------------------------ stopping and starting again

  /** The store after a sweep at `now` that was cut off after `k` rows, each row committed on its own. */
  function CutSweep(s: State, k: nat, now: Instant): State {
    s.(rows := seq(|s.rows|, i requires 0 <= i < |s.rows| => if i < k then StaffLapse(s.rows[i], now) else s.rows[i]))
  }

  function Statuses(s: State): seq<Status> { seq(|s.rows|, i requires 0 <= i < |s.rows| => s.rows[i].status) }

  lemma LapseTwice(r: Row, t: Instant, u: Instant)
    requires t <= u
    ensures Lapse(Lapse(r, t), u).status == Lapse(r, u).status
  {
  }

  /** A sweep cut off anywhere and run again later ends in the statuses of the one later sweep; with no
      cut this says that sweeping early and late is sweeping late. */
  lemma InterruptedSweepConverges(s: State, k: nat, t: Instant, u: Instant)
    requires t <= u
    ensures Statuses(StaffSweep(CutSweep(s, k, t), u).after) == Statuses(StaffSweep(s, u).after)
    ensures k >= |s.rows| ==> CutSweep(s, k, t) == StaffSweep(s, t).after
  {
    var a, b := Statuses(StaffSweep(CutSweep(s, k, t), u).after), Statuses(StaffSweep(s, u).after);
    forall i | 0 <= i < |s.rows| ensures a[i] == b[i] {
      StaffLapseIsLapse(s.rows[i], t);
      StaffLapseIsLapse(s.rows[i], u);
      StaffLapseIsLapse(Lapse(s.rows[i], t), u);
      LapseTwice(s.rows[i], t, u);
    }
  }

  /** Sweeping again at the same clock is free. */
  lemma SweepIsIdempotent(s: State, now: Instant)
    ensures StaffSweep(StaffSweep(s, now).after, now).after == StaffSweep(s, now).after
  {
    var once := StaffSweep(s, now).after;
    forall i | 0 <= i < |s.rows| ensures StaffLapse(once.rows[i], now) == once.rows[i] {
      StaffLapseIsLapse(s.rows[i], now);
      StaffLapseIsLapse(once.rows[i], now);
    }
  }

  /** The store after the dashboard's sweep of a day was cut off after `k` rows. */
  function CutDaySweep(s: State, day: string, k: nat, now: Instant): State {
    s.(rows := seq(|s.rows|, i requires 0 <= i < |s.rows| =>
                     if i < k then DayLapse(s.rows[i], day, now) else s.rows[i]))
  }

  /** The dashboard's sweep of a day, cut off anywhere and run again later, ends in the statuses of the one later
      sweep too; with no cut, sweeping the day early and late is sweeping it late. */
  lemma InterruptedDaySweepConverges(s: State, day: string, k: nat, t: Instant, u: Instant)
    requires t <= u
    ensures Statuses(DaySweep(CutDaySweep(s, day, k, t), day, u)) == Statuses(DaySweep(s, day, u))
    ensures k >= |s.rows| ==> CutDaySweep(s, day, k, t) == DaySweep(s, day, t)
  {
    var a, b := Statuses(DaySweep(CutDaySweep(s, day, k, t), day, u)), Statuses(DaySweep(s, day, u));
    forall i | 0 <= i < |s.rows| ensures a[i] == b[i] {
      LapseTwice(s.rows[i], t, u);
    }
  }

  /** After it no call of the day has run out, and every countdown the day shows is at least zero. */
  lemma NothingExpiredAfterDaySweep(s: State, day: string, now: Instant, i: nat)
    requires i < |s.rows| && s.rows[i].day == day
    ensures
      var r := DaySweep(s, day, now).rows[i];
      !Expired(r, now) && (RemainingSeconds(r, now).Some? ==> RemainingSeconds(r, now).value >= 0)
  {
    ExpiredHasNoSecondsLeft(DayLapse(s.rows[i], day, now), now);
  }
}
