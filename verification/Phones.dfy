/** One live place per phone and day: what the join checks, what it stores, and which step can undo it. */
module Phones {
  import opened Text
  import opened Calendar
  import opened Rules
  import opened Lifecycle

  /** The phone a join stores normalizes to the digits the duplicate check looked for. */
  lemma StoredPhoneNormalizes(s: State, name: string, phone: string, partySize: int, note: Option<string>, now: Instant)
    ensures Digits(Ticket(s, name, phone, partySize, note, now).phone) == Digits(phone)
  {
    DigitsOfStrip(phone);
    DigitsAreDigits(phone);
    DigitsOfDigits(Digits(phone));
  }

  predicate PhonesDiffer(a: Row, b: Row) {
    Active(a) && Active(b) && a.day == b.day ==> Digits(a.phone) != Digits(b.phone)
  }

  predicate OnePlacePerPhone(s: State) {
    forall i, j :: 0 <= i < j < |s.rows| ==> PhonesDiffer(s.rows[i], s.rows[j])
  }

  /** A restore is the one step that does not ask whether the phone has found another place since. */
  predicate AsksForPhone(s: State, step: Step) {
    match step
    case DoRestore(id, _) =>
      Apply(s, step).reply.Refused? || !PhoneTaken(s.rows, s.rows[id].day, Digits(s.rows[id].phone))
    case _ => true
  }

  /** Only a restore makes a closed row live again. */
  lemma OnlyRestoreRevives(s: State, step: Step, i: nat)
    requires i < |s.rows| && i < |Next(s, step).rows| && Active(Next(s, step).rows[i])
    ensures Active(s.rows[i]) || (step.DoRestore? && i == step.id && Apply(s, step).reply.Ok?)
    ensures SameGuest(s.rows[i], Next(s, step).rows[i])
  {
    StepMovesLegally(s, step);
  }

  lemma JoinKeepsPhones(s: State, step: Step)
    requires OnePlacePerPhone(s) && step.DoJoin?
    ensures OnePlacePerPhone(Next(s, step))
  {
    var s' := Next(s, step);
    OnlyJoinsAppend(s, step);
    StoredPhoneNormalizes(s, step.name, step.phone, step.partySize, step.note, step.now);
    forall i, j | 0 <= i < j < |s'.rows| ensures PhonesDiffer(s'.rows[i], s'.rows[j]) {
      assert s'.rows[i] == s.rows[i];
      if j < |s.rows| { assert PhonesDiffer(s.rows[i], s.rows[j]); }
    }
  }

  lemma RestorePhonesExactly(s: State, id: nat, now: Instant)
    requires OnePlacePerPhone(s) && Restore(s, id, now).reply.Ok?
    ensures OnePlacePerPhone(Restore(s, id, now).after)
            <==> !PhoneTaken(s.rows, s.rows[id].day, Digits(s.rows[id].phone))
  {
    var s' := Restore(s, id, now).after;
    var back := s'.rows[id];
    if i :| 0 <= i < |s.rows| && s.rows[i].day == back.day && Active(s.rows[i])
            && Digits(s.rows[i].phone) == Digits(back.phone)
    {
      assert s'.rows[i] == s.rows[i] && !PhonesDiffer(s'.rows[i], back) && !PhonesDiffer(back, s'.rows[i]);
    } else {
      forall i, j | 0 <= i < j < |s'.rows| ensures PhonesDiffer(s'.rows[i], s'.rows[j]) {
        assert PhonesDiffer(s.rows[i], s.rows[j]);
      }
    }
  }

  /** A step keeps one live place per phone and day if and only if it is not a restore onto a phone that
      holds another. */
  lemma PhonesExactly(s: State, step: Step)
    requires OnePlacePerPhone(s)
    ensures OnePlacePerPhone(Next(s, step)) <==> AsksForPhone(s, step)
  {
    if step.DoJoin? {
      JoinKeepsPhones(s, step);
    } else if step.DoRestore? && Apply(s, step).reply.Ok? {
      RestorePhonesExactly(s, step.id, step.now);
    } else {
      var s' := Next(s, step);
      OnlyJoinsAppend(s, step);
      forall i, j | 0 <= i < j < |s'.rows| ensures PhonesDiffer(s'.rows[i], s'.rows[j]) {
        assert PhonesDiffer(s.rows[i], s.rows[j]);
        if Active(s'.rows[i]) && Active(s'.rows[j]) {
          OnlyRestoreRevives(s, step, i);
          OnlyRestoreRevives(s, step, j);
        }
      }
    }
  }

  lemma {:induction false} OnePlacePerPhoneOverRuns(z: Zone, settings: Settings, steps: seq<Step>)
    requires Along(Empty(z, settings), steps, AsksForPhone)
    ensures OnePlacePerPhone(Run(Empty(z, settings), steps))
  {
    if steps != [] {
      var n := |steps| - 1;
      OnePlacePerPhoneOverRuns(z, settings, steps[..n]);
      PhonesExactly(Run(Empty(z, settings), steps[..n]), steps[n]);
    }
  }

  predicate RestoreDoubles(s: State, id: nat, now: Instant) {
    OnePlacePerPhone(s) && Restore(s, id, now).reply.Ok? && !OnePlacePerPhone(Restore(s, id, now).after)
  }

  /** The unguarded restore: a no-showed guest rejoins, and restoring the first row gives one phone two
      live places on one day. */
  lemma RestoreDoublesAPhone(z: Zone, settings: Settings, name: string, phone: string, now: Instant)
    requires settings.open
    ensures
      var left := StaffNoShow(Join(Empty(z, settings), name, phone, 2, None, now).after, 0, now).after;
      RestoreDoubles(Join(left, name, phone, 2, None, now).after, 0, now)
  {
    FirstGuestLeaves(Empty(z, settings), name, phone, now);
    RejoinAndRestore(StaffNoShow(Join(Empty(z, settings), name, phone, 2, None, now).after, 0, now).after,
                     name, phone, now);
  }

  lemma FirstGuestLeaves(s: State, name: string, phone: string, now: Instant)
    requires s.settings.open && s.rows == []
    ensures
      var left := StaffNoShow(Join(s, name, phone, 2, None, now).after, 0, now).after;
      && left.settings == s.settings && left.zone == s.zone && |left.rows| == 1 && left.rows[0].status == NoShow
      && left.rows[0].day == BusinessDate(s.zone, now) && Digits(left.rows[0].phone) == Digits(phone)
  {
    var guest := NoLiveRowJoins(s, name, phone, now);
    FirstGuestNoShows(s.(rows := s.rows + [guest]), guest, now);
  }

  lemma FirstGuestNoShows(s: State, guest: Row, now: Instant)
    requires s.rows == [guest] && Active(guest)
    ensures
      var left := StaffNoShow(s, 0, now).after;
      left.rows == [guest.(status := NoShow, closedAt := Some(now), table := None)]
      && left.settings == s.settings && left.zone == s.zone
  {
    CloseEntryRow(s, 0, NoShow, now);
  }

  lemma NoLiveRowJoins(s: State, name: string, phone: string, now: Instant) returns (guest: Row)
    requires s.settings.open && forall i :: 0 <= i < |s.rows| ==> !Active(s.rows[i])
    ensures Join(s, name, phone, 2, None, now).after == s.(rows := s.rows + [guest])
    ensures Active(guest) && guest.day == BusinessDate(s.zone, now) && Digits(guest.phone) == Digits(phone)
  {
    guest := Ticket(s, name, phone, 2, None, now);
    StoredPhoneNormalizes(s, name, phone, 2, None, now);
  }

  lemma OnlyNoShowJoins(s: State, name: string, phone: string, now: Instant) returns (guest: Row)
    requires s.settings.open && |s.rows| == 1 && s.rows[0].status == NoShow
    requires s.rows[0].day == BusinessDate(s.zone, now) && Digits(s.rows[0].phone) == Digits(phone)
    ensures Join(s, name, phone, 2, None, now).after == s.(rows := s.rows + [guest])
    ensures Active(guest) && guest.day == s.rows[0].day && Digits(guest.phone) == Digits(s.rows[0].phone)
  {
    guest := NoLiveRowJoins(s, name, phone, now);
  }

  lemma RejoinAndRestore(s: State, name: string, phone: string, now: Instant)
    requires s.settings.open && |s.rows| == 1 && s.rows[0].status == NoShow
    requires s.rows[0].day == BusinessDate(s.zone, now) && Digits(s.rows[0].phone) == Digits(phone)
    ensures RestoreDoubles(Join(s, name, phone, 2, None, now).after, 0, now)
  {
    var guest := OnlyNoShowJoins(s, name, phone, now);
    calc {
      RestoreDoubles(Join(s, name, phone, 2, None, now).after, 0, now);
      RestoreDoubles(s.(rows := s.rows + [guest]), 0, now);
      { RestoreUnderLivePhone(s, guest, now); }
      true;
    }
  }

  lemma RestoreUnderLivePhone(s: State, guest: Row, now: Instant)
    requires |s.rows| == 1 && s.rows[0].status == NoShow && Active(guest)
    requires guest.day == s.rows[0].day && Digits(guest.phone) == Digits(s.rows[0].phone)
    ensures RestoreDoubles(s.(rows := s.rows + [guest]), 0, now)
  {
    var t := s.(rows := s.rows + [guest]);
    assert t.rows[0] == s.rows[0] && t.rows[1] == guest;
    assert PhoneTaken(t.rows, t.rows[0].day, Digits(t.rows[0].phone));
    RestorePhonesExactly(t, 0, now);
  }
}
