/** Parties and tables live in two tables of the store and meet only through a row's `table` and the
    two statuses. */
module Parties {
  import opened Text
  import opened Calendar
  import opened Rules
  import opened Lifecycle

  // ------------------------------------------------------------------ the invariant

  predicate AtOccupied(s: State, i: nat)
    requires i < |s.rows|
  {
    s.rows[i].status == Seated ==>
      s.rows[i].table.Some? && s.rows[i].table.value < |s.tables|
      && s.tables[s.rows[i].table.value].status == Occupied
  }

  predicate Apart(s: State, i: nat, j: nat)
    requires i < |s.rows| && j < |s.rows|
  {
    i != j && s.rows[i].status == Seated && s.rows[j].status == Seated ==> s.rows[i].table != s.rows[j].table
  }

  /** Every SEATED row is at an OCCUPIED table and no two share one. */
  predicate PartyInv(s: State) {
    && (forall i :: 0 <= i < |s.rows| ==> AtOccupied(s, i))
    && (forall i, j :: 0 <= i < |s.rows| && 0 <= j < |s.rows| ==> Apart(s, i, j))
  }

  /** Closing `day` turns every active OCCUPIED table over; a party of another day keeps its table only
      if that table is inactive. */
  predicate StrandsNobody(s: State, day: string) {
    forall i, t :: 0 <= i < |s.rows| && 0 <= t < |s.tables| && HoldsTable(s.rows[i], t) && s.rows[i].day != day
      ==> !s.tables[t].active
  }

  /** The steps that can break the invariant, with what a caller can check first. */
  predicate Careful(s: State, step: Step) {
    match step
    case DoPatchTable(t, _, _) => Apply(s, step).reply.Refused? || !Held(s.rows, t)
    case DoCloseDay(_, wall) => StrandsNobody(s, QueueDay(s, wall))
    case _ => true
  }

  // ------------------------------------------------------------------ one step at a time

  predicate TableStep(step: Step) {
    step.DoSeat? || step.DoNoShow? || step.DoStaffCancel? || step.DoRelease? || step.DoPatchTable?
    || step.DoSetActive? || step.DoRetire? || step.DoCreateTable? || step.DoCloseDay?
  }

  /** Rows that are SEATED after anything but a seating were SEATED before, at the same table. */
  lemma OnlySeatingSeats(s: State, step: Step, i: nat)
    requires !step.DoSeat? && i < |Next(s, step).rows| && Next(s, step).rows[i].status == Seated
    ensures i < |s.rows| && s.rows[i].status == Seated && s.rows[i].table == Next(s, step).rows[i].table
  {
    StepMovesLegally(s, step);
    OnlyJoinsAppend(s, step);
  }

  lemma OtherStepsLeaveTables(s: State, step: Step)
    requires !TableStep(step)
    ensures Next(s, step).tables == s.tables
  {
  }

  /** A step that seats nobody and keeps OCCUPIED every table of a party it leaves SEATED keeps the invariant. */
  lemma KeepsParties(s: State, step: Step)
    requires PartyInv(s) && !step.DoSeat?
    requires |s.tables| <= |Next(s, step).tables|
    requires forall i, t ::
      0 <= i < |Next(s, step).rows| && 0 <= t < |s.tables| && HoldsTable(Next(s, step).rows[i], t)
      ==> Next(s, step).tables[t].status == Occupied
    ensures PartyInv(Next(s, step))
  {
    var s' := Next(s, step);
    forall i | 0 <= i < |s'.rows| ensures AtOccupied(s', i) {
      if s'.rows[i].status == Seated {
        OnlySeatingSeats(s, step, i);
        assert AtOccupied(s, i);
        assert HoldsTable(s'.rows[i], s'.rows[i].table.value);
      }
    }
    forall i, j | 0 <= i < |s'.rows| && 0 <= j < |s'.rows| ensures Apart(s', i, j) {
      if s'.rows[i].status == Seated && s'.rows[j].status == Seated {
        OnlySeatingSeats(s, step, i);
        OnlySeatingSeats(s, step, j);
        assert Apart(s, i, j);
      }
    }
  }

  lemma SeatKeepsParties(s: State, id: nat, t: nat, now: Instant)
    requires PartyInv(s)
    ensures PartyInv(Seat(s, id, t, now).after)
  {
    var s' := Seat(s, id, t, now).after;
    if Seat(s, id, t, now).reply.Ok? {
      forall i | 0 <= i < |s'.rows| ensures AtOccupied(s', i) { assert AtOccupied(s, i); }
      forall i, j | 0 <= i < |s'.rows| && 0 <= j < |s'.rows| ensures Apart(s', i, j) {
        assert Apart(s, i, j);
        assert AtOccupied(s, i) && AtOccupied(s, j);
      }
    }
  }

  /** What a no-show or a staff cancel does to the tables: at most the row's own comes free. */
  lemma ClosingFreesOwnTable(s: State, step: Step)
    requires AllShaped(s) && (step.DoNoShow? || step.DoStaffCancel?)
    ensures |Next(s, step).tables| == |s.tables|
    ensures forall t :: 0 <= t < |s.tables| && Next(s, step).tables[t] != s.tables[t]
              ==> step.id < |s.rows| && HoldsTable(s.rows[step.id], t) && Next(s, step).tables[t].status == Available
  {
    if step.id < |s.rows| { assert Shaped(s.rows[step.id]); }
  }

  /** Hence it never frees a table another party holds. */
  lemma ClosingNeverFreesAnothersTable(s: State, step: Step, j: nat, t: nat)
    requires AllShaped(s) && PartyInv(s) && (step.DoNoShow? || step.DoStaffCancel?)
    requires j < |s.rows| && t < |s.tables| && HoldsTable(s.rows[j], t) && j != step.id
    ensures Next(s, step).tables[t] == s.tables[t] && Next(s, step).tables[t].status == Occupied
    ensures Next(s, step).rows[j] == s.rows[j]
  {
    ClosingFreesOwnTable(s, step);
    OneRowStepTouchesOneRow(s, step);
    assert AtOccupied(s, j);
    if step.id < |s.rows| { assert Apart(s, step.id, j); }
  }

  lemma ClosingKeepsParties(s: State, step: Step)
    requires AllShaped(s) && PartyInv(s) && (step.DoNoShow? || step.DoStaffCancel?)
    ensures PartyInv(Next(s, step))
  {
    var s' := Next(s, step);
    ClosingFreesOwnTable(s, step);
    forall i, t | 0 <= i < |s'.rows| && 0 <= t < |s.tables| && HoldsTable(s'.rows[i], t)
      ensures s'.tables[t].status == Occupied
    {
      OnlySeatingSeats(s, step, i);
      if Apply(s, step).reply.Refused? {
        assert AtOccupied(s, i);
      } else {
        assert s'.rows[step.id].status in {NoShow, Cancelled};
        ClosingNeverFreesAnothersTable(s, step, i, t);
      }
    }
    KeepsParties(s, step);
  }

  /** A release closes exactly the party at the table: nobody is SEATED there afterwards, that party is
      DONE, and every other row and table is as it was. */
  lemma ReleaseClosesItsParty(s: State, t: nat, now: Instant)
    requires PartyInv(s) && Release(s, t, now).reply.Ok?
    ensures !Held(Release(s, t, now).after.rows, t)
    ensures Release(s, t, now).after.tables == s.tables[t := s.tables[t].(status := Available)]
    ensures |Release(s, t, now).after.rows| == |s.rows|
    ensures forall i :: 0 <= i < |s.rows| ==>
      Release(s, t, now).after.rows[i]
      == if HoldsTable(s.rows[i], t) then s.rows[i].(status := Done, closedAt := Some(now)) else s.rows[i]
  {
    if Held(s.rows, t) {
      var id := PartyOn(s.rows, t);
      forall i | 0 <= i < |s.rows| && i != id ensures !HoldsTable(s.rows[i], t) { assert Apart(s, i, id); }
    }
  }

  lemma ReleaseKeepsParties(s: State, t: nat, now: Instant)
    requires PartyInv(s)
    ensures PartyInv(Release(s, t, now).after)
  {
    if Release(s, t, now).reply.Ok? {
      ReleaseClosesItsParty(s, t, now);
      var s' := Release(s, t, now).after;
      forall i, u | 0 <= i < |s'.rows| && 0 <= u < |s.tables| && HoldsTable(s'.rows[i], u)
        ensures s'.tables[u].status == Occupied
      {
        assert u != t;
        assert AtOccupied(s, i);
      }
      KeepsParties(s, DoRelease(t, now));
    }
  }

  /** A status PATCH breaks the invariant exactly when it is accepted under a seated party. */
  lemma PatchExactly(s: State, t: nat, status: TableStatus, now: Instant)
    requires PartyInv(s)
    ensures PartyInv(PatchTable(s, t, status).after) <==> Careful(s, DoPatchTable(t, status, now))
  {
    var step := DoPatchTable(t, status, now);
    var s' := Next(s, step);
    if Apply(s, step).reply.Ok? {
      if Held(s.rows, t) {
        assert !AtOccupied(s', PartyOn(s.rows, t));
      } else {
        forall i, u | 0 <= i < |s'.rows| && 0 <= u < |s.tables| && HoldsTable(s'.rows[i], u)
          ensures s'.tables[u].status == Occupied
        {
          assert u != t;
          assert AtOccupied(s, i);
        }
        KeepsParties(s, step);
      }
    }
  }

  /** Closing the day breaks it exactly when a party of another day sits at an active table. */
  lemma CloseDayExactly(s: State, now: Instant, wall: Instant)
    requires PartyInv(s)
    ensures PartyInv(CloseDay(s, now, wall).after) <==> StrandsNobody(s, QueueDay(s, wall))
  {
    var day, step := QueueDay(s, wall), DoCloseDay(now, wall);
    var s' := Next(s, step);
    if StrandsNobody(s, day) {
      forall i, t | 0 <= i < |s'.rows| && 0 <= t < |s.tables| && HoldsTable(s'.rows[i], t)
        ensures s'.tables[t].status == Occupied
      {
        assert HoldsTable(s.rows[i], t) && s.rows[i].day != day;
        assert AtOccupied(s, i);
      }
      KeepsParties(s, step);
    } else {
      var i, t :| 0 <= i < |s.rows| && 0 <= t < |s.tables| && HoldsTable(s.rows[i], t) && s.rows[i].day != day
                  && s.tables[t].active;
      assert AtOccupied(s, i);
      assert s'.rows[i] == s.rows[i] && !AtOccupied(s', i);
    }
  }

  lemma AdminTableStepsKeepParties(s: State, step: Step)
    requires PartyInv(s) && (step.DoSetActive? || step.DoRetire? || step.DoCreateTable?)
    ensures PartyInv(Next(s, step))
  {
    var s' := Next(s, step);
    forall i, t | 0 <= i < |s'.rows| && 0 <= t < |s.tables| && HoldsTable(s'.rows[i], t)
      ensures s'.tables[t].status == Occupied
    {
      assert AtOccupied(s, i);
    }
    KeepsParties(s, step);
  }

  lemma OtherStepsKeepParties(s: State, step: Step)
    requires PartyInv(s) && !TableStep(step)
    ensures PartyInv(Next(s, step))
  {
    var s' := Next(s, step);
    OtherStepsLeaveTables(s, step);
    forall i, t | 0 <= i < |s'.rows| && 0 <= t < |s.tables| && HoldsTable(s'.rows[i], t)
      ensures s'.tables[t].status == Occupied
    {
      OnlySeatingSeats(s, step, i);
      assert AtOccupied(s, i);
    }
    KeepsParties(s, step);
  }

  /** A step keeps the party invariant if and only if it is careful. */
  lemma PartyInvariantExactly(s: State, step: Step)
    requires AllShaped(s) && PartyInv(s)
    ensures PartyInv(Next(s, step)) <==> Careful(s, step)
  {
    if !TableStep(step) { OtherStepsKeepParties(s, step); }
    else if step.DoSeat? { SeatKeepsParties(s, step.id, step.t, step.now); }
    else if step.DoNoShow? || step.DoStaffCancel? { ClosingKeepsParties(s, step); }
    else if step.DoRelease? { ReleaseKeepsParties(s, step.t, step.now); }
    else if step.DoPatchTable? { PatchExactly(s, step.t, step.status, step.now); }
    else if step.DoCloseDay? { CloseDayExactly(s, step.now, step.wall); }
    else { AdminTableStepsKeepParties(s, step); }
  }

  /** Over every careful run from a bootstrapped branch, every party has an OCCUPIED table of its own. */
  lemma {:induction false} CarefulRunsKeepParties(z: Zone, settings: Settings, steps: seq<Step>)
    requires Along(Empty(z, settings), steps, Careful)
    ensures PartyInv(Run(Empty(z, settings), steps))
  {
    if steps != [] {
      var n := |steps| - 1;
      CarefulRunsKeepParties(z, settings, steps[..n]);
      ReachableRowsAreShaped(z, settings, steps[..n]);
      PartyInvariantExactly(Run(Empty(z, settings), steps[..n]), steps[n]);
    }
  }
}
