/** The other direction: no table stays OCCUPIED without a party, and occupied tables stay in service. */
module Occupancy {
  import opened Text
  import opened Calendar
  import opened Rules
  import opened Lifecycle
  import opened Parties

  // ------------------------------------------------------------------ parties and occupied tables match

  predicate Matched(s: State) {
    PartyInv(s) && forall t :: 0 <= t < |s.tables| && s.tables[t].status == Occupied ==> Held(s.rows, t)
  }

  /** Closing a day finds its parties, and only those, at active tables. */
  predicate ClosesWholeFloor(s: State, day: string) {
    forall i, t :: 0 <= i < |s.rows| && 0 <= t < |s.tables| && HoldsTable(s.rows[i], t)
      ==> (s.rows[i].day == day <==> s.tables[t].active)
  }

  predicate Tidy(s: State, step: Step) {
    match step
    case DoPatchTable(t, _, _) => Apply(s, step).reply.Refused? || s.tables[t].status != Occupied
    case DoCloseDay(_, wall) => ClosesWholeFloor(s, QueueDay(s, wall))
    case _ => true
  }

  lemma TidyIsCareful(s: State, step: Step)
    requires Matched(s) && Tidy(s, step)
    ensures Careful(s, step)
  {
    if step.DoPatchTable? && step.t < |s.tables| && Held(s.rows, step.t) { HeldIsOccupied(s, step.t); }
  }

  lemma HeldIsOccupied(s: State, t: nat)
    requires PartyInv(s) && Held(s.rows, t)
    ensures t < |s.tables| && s.tables[t].status == Occupied
  {
    assert AtOccupied(s, PartyOn(s.rows, t));
  }

  lemma OneHolder(s: State, t: nat, i: nat, j: nat)
    requires PartyInv(s) && i < |s.rows| && j < |s.rows| && HoldsTable(s.rows[i], t) && HoldsTable(s.rows[j], t)
    ensures i == j
  {
    assert Apart(s, i, j);
  }

  /** A table keeps a party that the step does not move. */
  lemma StillHeld(s: State, step: Step, t: nat, i: nat)
    requires i < |s.rows| && i < |Next(s, step).rows|
    requires HoldsTable(s.rows[i], t) && Next(s, step).rows[i].status == Seated
    ensures Held(Next(s, step).rows, t)
  {
    StepMovesLegally(s, step);
    assert HoldsTable(Next(s, step).rows[i], t);
  }

  lemma OneRowStepKeepsMatch(s: State, step: Step)
    requires AllShaped(s) && Matched(s) && OneRowStep(step)
    ensures forall t :: 0 <= t < |Next(s, step).tables| && Next(s, step).tables[t].status == Occupied
              ==> Held(Next(s, step).rows, t)
  {
    var s' := Next(s, step);
    OneRowStepTouchesOneRow(s, step);
    forall t | 0 <= t < |s'.tables| && s'.tables[t].status == Occupied ensures Held(s'.rows, t) {
      if step.DoSeat? && Apply(s, step).reply.Ok? && t == step.t {
        assert HoldsTable(s'.rows[step.id], t);
      } else {
        OccupiedStaysHeld(s, step, t);
      }
    }
  }

  lemma OccupiedStaysHeld(s: State, step: Step, t: nat)
    requires AllShaped(s) && Matched(s) && OneRowStep(step) && t < |Next(s, step).tables|
    requires Next(s, step).tables[t].status == Occupied
    requires !(step.DoSeat? && Apply(s, step).reply.Ok? && t == step.t)
    ensures Held(Next(s, step).rows, t)
  {
    OneRowStepTouchesOneRow(s, step);
    var i := PartyOn(s.rows, t);
    if i == step.id { PartyOfOccupiedStays(s, step, t); }
    StillHeld(s, step, t, i);
  }

  /** A party that leaves its table frees it. */
  lemma PartyOfOccupiedStays(s: State, step: Step, t: nat)
    requires OneRowStep(step) && step.id < |s.rows| && HoldsTable(s.rows[step.id], t)
    requires t < |Next(s, step).tables| && Next(s, step).tables[t].status == Occupied
    ensures Next(s, step).rows[step.id].status == Seated
  {
  }

  lemma ReleaseKeepsMatch(s: State, t: nat, now: Instant)
    requires Matched(s)
    ensures Matched(Release(s, t, now).after)
  {
    ReleaseKeepsParties(s, t, now);
    if Release(s, t, now).reply.Ok? {
      ReleaseClosesItsParty(s, t, now);
      var s' := Release(s, t, now).after;
      forall u | 0 <= u < |s'.tables| && s'.tables[u].status == Occupied ensures Held(s'.rows, u) {
        assert u != t;
        StillHeld(s, DoRelease(t, now), u, PartyOn(s.rows, u));
      }
    }
  }

  /** A status PATCH keeps the match exactly when the table is not OCCUPIED, or it is refused. */
  lemma PatchMatchExactly(s: State, t: nat, status: TableStatus, now: Instant)
    requires Matched(s)
    ensures Matched(PatchTable(s, t, status).after) <==> Tidy(s, DoPatchTable(t, status, now))
  {
    var step := DoPatchTable(t, status, now);
    PatchExactly(s, t, status, now);
    if Tidy(s, step) {
      TidyIsCareful(s, step);
      assert Next(s, step).rows == s.rows;
    }
  }

  /** Closing keeps the match exactly when the closed day's parties are those at active tables. */
  lemma CloseDayMatchExactly(s: State, now: Instant, wall: Instant)
    requires Matched(s)
    ensures Matched(CloseDay(s, now, wall).after) <==> ClosesWholeFloor(s, QueueDay(s, wall))
  {
    var day, step := QueueDay(s, wall), DoCloseDay(now, wall);
    var s' := Next(s, step);
    CloseDayExactly(s, now, wall);
    if ClosesWholeFloor(s, day) {
      forall t | 0 <= t < |s'.tables| && s'.tables[t].status == Occupied ensures Held(s'.rows, t) {
        StillHeld(s, step, t, PartyOn(s.rows, t));
      }
    } else if StrandsNobody(s, day) {
      var i, t :| 0 <= i < |s.rows| && 0 <= t < |s.tables| && HoldsTable(s.rows[i], t)
                  && s.rows[i].day == day && !s.tables[t].active;
      assert AtOccupied(s, i);
      assert s'.rows[i].status == Done && s'.tables[t].status == Occupied;
      if Held(s'.rows, t) {
        var j := PartyOn(s'.rows, t);
        OnlySeatingSeats(s, step, j);
        OneHolder(s, t, i, j);
      }
    }
  }

  lemma FloorStepsKeepMatch(s: State, step: Step)
    requires Matched(s)
    requires step.DoStaffSweep? || step.DoDashboard? || step.DoReorder? || step.DoSetActive? || step.DoRetire?
             || step.DoCreateTable? || step.DoJoin? || step.DoSettings?
    ensures forall t :: 0 <= t < |Next(s, step).tables| && Next(s, step).tables[t].status == Occupied
              ==> Held(Next(s, step).rows, t)
  {
    var s' := Next(s, step);
    forall t | 0 <= t < |s'.tables| && s'.tables[t].status == Occupied ensures Held(s'.rows, t) {
      var i := PartyOn(s.rows, t);
      StaysSeated(s, step, i);
      StillHeld(s, step, t, i);
    }
  }

  lemma StaysSeated(s: State, step: Step, i: nat)
    requires i < |s.rows| && s.rows[i].status == Seated
    requires step.DoStaffSweep? || step.DoDashboard? || step.DoReorder? || step.DoSetActive? || step.DoRetire?
             || step.DoCreateTable? || step.DoJoin? || step.DoSettings?
    ensures i < |Next(s, step).rows| && Next(s, step).rows[i].status == Seated
  {
  }

  /** A step keeps parties and OCCUPIED tables in one-to-one match if and only if it is tidy. */
  lemma MatchExactly(s: State, step: Step)
    requires AllShaped(s) && Matched(s)
    ensures Matched(Next(s, step)) <==> Tidy(s, step)
  {
    if step.DoPatchTable? { PatchMatchExactly(s, step.t, step.status, step.now); }
    else if step.DoCloseDay? { CloseDayMatchExactly(s, step.now, step.wall); }
    else if step.DoRelease? { ReleaseKeepsMatch(s, step.t, step.now); }
    else {
      PartyInvariantExactly(s, step);
      if OneRowStep(step) { OneRowStepKeepsMatch(s, step); } else { FloorStepsKeepMatch(s, step); }
    }
  }

  lemma {:induction false} TidyRunsKeepMatch(z: Zone, settings: Settings, steps: seq<Step>)
    requires Along(Empty(z, settings), steps, Tidy)
    ensures Matched(Run(Empty(z, settings), steps))
  {
    if steps != [] {
      var n := |steps| - 1;
      TidyRunsKeepMatch(z, settings, steps[..n]);
      ReachableRowsAreShaped(z, settings, steps[..n]);
      MatchExactly(Run(Empty(z, settings), steps[..n]), steps[n]);
    }
  }

  // ------------------------------------------------------------------ occupied tables stay in service

  predicate OccupiedInService(s: State) {
    forall t :: 0 <= t < |s.tables| && s.tables[t].status == Occupied ==> s.tables[t].active
  }

  /** Only the admin PATCH can take an OCCUPIED table out of service: retiring refuses one. */
  predicate KeepsService(s: State, step: Step) {
    match step
    case DoSetActive(t, active, _) => Apply(s, step).reply.Refused? || active || s.tables[t].status != Occupied
    case _ => true
  }

  lemma OneRowStepKeepsService(s: State, step: Step)
    requires OccupiedInService(s) && OneRowStep(step)
    ensures OccupiedInService(Next(s, step))
  {
  }

  lemma ServiceExactly(s: State, step: Step)
    requires OccupiedInService(s)
    ensures OccupiedInService(Next(s, step)) <==> KeepsService(s, step)
  {
    if OneRowStep(step) {
      OneRowStepKeepsService(s, step);
    } else if step.DoSetActive? && !KeepsService(s, step) {
      assert Next(s, step).tables[step.t].status == Occupied;
    }
  }

  lemma {:induction false} ServiceOverRuns(z: Zone, settings: Settings, steps: seq<Step>)
    requires Along(Empty(z, settings), steps, KeepsService)
    ensures OccupiedInService(Run(Empty(z, settings), steps))
  {
    if steps != [] {
      var n := |steps| - 1;
      ServiceOverRuns(z, settings, steps[..n]);
      ServiceExactly(Run(Empty(z, settings), steps[..n]), steps[n]);
    }
  }

  // ------------------------------------------------------------------ seating and releasing undo each other

  /** Releasing the table a party was just seated at gives back every table as it was, and the party is DONE. */
  lemma SeatThenRelease(s: State, id: nat, t: nat, seatedAt: Instant, releasedAt: Instant)
    requires PartyInv(s) && Seat(s, id, t, seatedAt).reply.Ok?
    ensures
      var seated := Seat(s, id, t, seatedAt).after;
      var released := Release(seated, t, releasedAt);
      && released.reply.Ok? && released.after.tables == s.tables
      && released.after.rows == s.rows[id := s.rows[id].(status := Done, table := Some(t),
                                                          seatedAt := Some(seatedAt), closedAt := Some(releasedAt))]
  {
    var seated := Seat(s, id, t, seatedAt).after;
    SeatKeepsParties(s, id, t, seatedAt);
    ReleaseClosesItsParty(seated, t, releasedAt);
    assert HoldsTable(seated.rows[id], t);
    assert Held(seated.rows, t);
    var released := Release(seated, t, releasedAt).after;
    forall i | 0 <= i < |s.rows| && i != id ensures released.rows[i] == s.rows[i] { assert Apart(seated, i, id); }
  }

  // ------------------------------------------------------------------ witnesses

  /** A party seated on a fresh branch: one table, one guest. */
  function FirstSeating(name: string, phone: string, now: Instant): seq<Step> {
    [DoCreateTable("T1", now), DoJoin(name, phone, 2, None, now), DoSeat(0, 0, now)]
  }

  lemma RunOfThree(s: State, a: Step, b: Step, c: Step)
    ensures Run(s, [a, b, c]) == Next(Next(Next(s, a), b), c)
  {
    assert [a, b, c][..2] == [a, b] && [a, b][..1] == [a] && [a][..0] == [];
    assert Run(s, [a, b]) == Next(Run(s, [a]), b) && Run(s, [a]) == Next(Run(s, []), a);
  }

  lemma FirstSeatingSeats(z: Zone, settings: Settings, name: string, phone: string, now: Instant)
    requires settings.open
    ensures
      var s := Run(Empty(z, settings), FirstSeating(name, phone, now));
      && |s.rows| == 1 && s.tables == [Table("T1", Occupied, true)] && HoldsTable(s.rows[0], 0)
      && s.rows[0].day == BusinessDate(z, now) && PartyInv(s) && s.zone == z && s.settings == settings
  {
    var s0, steps := Empty(z, settings), FirstSeating(name, phone, now);
    RunOfThree(s0, steps[0], steps[1], steps[2]);
    var s1 := Next(s0, steps[0]);
    assert s1 == State(z, settings, [], [Table("T1", Available, true)]);
    var guest := Ticket(s1, name, phone, 2, None, now);
    assert Next(s1, steps[1]) == s1.(rows := [guest]);
    SeatKeepsParties(s1.(rows := [guest]), 0, 0, now);
  }

  /** Cleaning a table under its party leaves a SEATED row at a table that reads as free. */
  lemma PatchStrandsAParty(z: Zone, settings: Settings, name: string, phone: string, now: Instant)
    requires settings.open
    ensures PartyInv(Run(Empty(z, settings), FirstSeating(name, phone, now)))
    ensures !PartyInv(Next(Run(Empty(z, settings), FirstSeating(name, phone, now)), DoPatchTable(0, Cleaning, now)))
  {
    FirstSeatingSeats(z, settings, name, phone, now);
    var s := Run(Empty(z, settings), FirstSeating(name, phone, now));
    assert Held(s.rows, 0);
    PatchExactly(s, 0, Cleaning, now);
  }

  /** So does closing a later day while the party of an earlier one still sits. */
  lemma CloseDayStrandsAParty(z: Zone, settings: Settings, name: string, phone: string, now: Instant, later: Instant)
    requires settings.open && BusinessDay(z, now) != BusinessDay(z, later)
    ensures
      var s := Next(Run(Empty(z, settings), FirstSeating(name, phone, now)), DoJoin(name, phone, 2, None, later));
      PartyInv(s) && !PartyInv(Next(s, DoCloseDay(later, later)))
  {
    FirstSeatingSeats(z, settings, name, phone, now);
    TextOrderIsDayOrder(z, now, later);
    SecondDayStrands(Run(Empty(z, settings), FirstSeating(name, phone, now)), name, phone, later);
  }

  lemma JoinOnAnEmptyDay(s: State, name: string, phone: string, now: Instant)
    requires s.settings.open && !HasRowsOn(s.rows, BusinessDate(s.zone, now))
    ensures Join(s, name, phone, 2, None, now).after == s.(rows := s.rows + [Ticket(s, name, phone, 2, None, now)])
  {
  }

  lemma SecondDayStrands(s: State, name: string, phone: string, later: Instant)
    requires PartyInv(s) && s.settings.open && |s.rows| == 1 && |s.tables| == 1 && s.tables[0].active
    requires HoldsTable(s.rows[0], 0) && s.rows[0].day != BusinessDate(s.zone, later)
    ensures PartyInv(Next(s, DoJoin(name, phone, 2, None, later)))
    ensures !PartyInv(Next(Next(s, DoJoin(name, phone, 2, None, later)), DoCloseDay(later, later)))
  {
    OtherStepsKeepParties(s, DoJoin(name, phone, 2, None, later));
    JoinOnAnEmptyDay(s, name, phone, later);
    ClosingStrands(Next(s, DoJoin(name, phone, 2, None, later)), later);
  }

  lemma ClosingStrands(s: State, later: Instant)
    requires PartyInv(s) && |s.rows| == 2 && |s.tables| == 1 && s.tables[0].active && HoldsTable(s.rows[0], 0)
    requires s.rows[0].day != s.rows[1].day == BusinessDate(s.zone, later)
    ensures !PartyInv(Next(s, DoCloseDay(later, later)))
  {
    assert QueueDay(s, later) == s.rows[1].day;
    CloseDayExactly(s, later, later);
  }

  /** Switching off the table of a seated party takes an OCCUPIED table out of service. */
  lemma DeactivationHidesAParty(z: Zone, settings: Settings, name: string, phone: string, now: Instant)
    requires settings.open
    ensures
      var s := Run(Empty(z, settings), FirstSeating(name, phone, now));
      && OccupiedInService(s) && Apply(s, DoSetActive(0, false, now)).reply.Ok?
      && !OccupiedInService(Next(s, DoSetActive(0, false, now)))
  {
    FirstSeatingSeats(z, settings, name, phone, now);
    var s := Run(Empty(z, settings), FirstSeating(name, phone, now));
    ServiceExactly(s, DoSetActive(0, false, now));
  }
}
