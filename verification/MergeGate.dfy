/** The test gate over runs: what reaches origin/main went through a test command that passed. */
module MergeGate {
  import opened Text
  import opened Merging
  import opened MergeSafety
  import opened MergeRuns

  /** Event `i` was the end of a test command, run over the merge the checkpoint names, and the checkpoint holds
      what that command reported. */
  predicate TestedAt(start: Now, events: seq<Event>, i: nat, cp: Checkpoint)
    requires i < |events|
  {
    var n := Run(start, events[..i]);
    && events[i].Command? && events[i].fate != Killed && n.local.Running? && n.local.pc == Test
    && cp.pre == n.local.cp.pre && cp.merge == n.local.cp.merge && cp.merge == Some(n.world.main)
    && cp.test.Some? && Tallies(cp.test.value, events[i].run)
  }

  predicate WasTested(start: Now, events: seq<Event>, cp: Checkpoint) {
    exists i: nat :: i < |events| && TestedAt(start, events, i, cp)
  }

  lemma WasTestedStays(start: Now, events: seq<Event>, e: Event, cp: Checkpoint)
    requires WasTested(start, events, cp)
    ensures WasTested(start, events + [e], cp)
  {
    var i: nat :| i < |events| && TestedAt(start, events, i, cp);
    assert (events + [e])[..i] == events[..i];
    assert TestedAt(start, events + [e], i, cp);
  }

  predicate TestsAccounted(start: Now, events: seq<Event>, cp: Checkpoint) {
    cp.test.Some? ==> WasTested(start, events, cp)
  }

  /** Every test result on disk, in a running attempt or under an advance came from a test command of the run. */
  predicate Accounted(start: Now, events: seq<Event>) {
    var n := Run(start, events);
    && (n.world.disk.Some? ==> TestsAccounted(start, events, n.world.disk.value))
    && (n.local.Running? ==> TestsAccounted(start, events, n.local.cp))
    && (forall k :: 0 <= k < |n.world.advances| && n.world.advances[k].recorded.Some? ==>
          TestsAccounted(start, events, n.world.advances[k].recorded.value))
  }

  lemma SameRecord(start: Now, events: seq<Event>, cp: Checkpoint, other: Checkpoint)
    requires TestsAccounted(start, events, cp)
    requires other.test.Some? ==> other.test == cp.test && other.pre == cp.pre && other.merge == cp.merge
    ensures TestsAccounted(start, events, other)
  {
    if other.test.Some? {
      var i: nat :| i < |events| && TestedAt(start, events, i, cp);
      assert TestedAt(start, events, i, other);
    }
  }

  lemma AccountedStays(start: Now, events: seq<Event>, e: Event, cp: Checkpoint)
    requires TestsAccounted(start, events, cp)
    ensures TestsAccounted(start, events + [e], cp)
  {
    if cp.test.Some? { WasTestedStays(start, events, e, cp); }
  }

  /** A command other than the end of the tests hands on the test result it finds. */
  lemma HandsOn(n: Now, f: Fate, run: TestRun, base: Sha)
    requires Inv(n, base, false) && n.local.Running? && n.local.pc != Test
    ensures
      var cp, after := n.local.cp, Happen(n, Command(f, run));
      after.local.Running? && after.local.cp.test.Some? ==>
        after.local.cp.test == cp.test && after.local.cp.pre == cp.pre && after.local.cp.merge == cp.merge
  {
  }

  /** What a command writes to disk is its own checkpoint or nothing. */
  lemma WritesItsOwn(w: World, ctx: Context, pc: Pc, cp: Checkpoint, f: Fate, run: TestRun)
    ensures Exec(w, ctx, pc, cp, f, run).world.disk in {w.disk, Some(cp), None}
  {
  }

  /** What a push adds to the history is what was on disk. */
  lemma RecordsTheDisk(w: World, ctx: Context, pc: Pc, cp: Checkpoint, f: Fate, run: TestRun)
    ensures
      var after := Exec(w, ctx, pc, cp, f, run).world.advances;
      after == w.advances || exists a :: after == w.advances + [a] && a.recorded == w.disk
  {
    if pc == PushMain { assert Push(w, f).world.advances == w.advances || f == Succeeds; }
  }

  lemma TestIsAccounted(start: Now, events: seq<Event>, e: Event, base: Sha)
    requires
      var n := Run(start, events);
      Inv(n, base, false) && n.local.Running? && n.local.pc == Test && e.Command? && e.fate != Killed
    ensures
      var after := Run(start, events + [e]).local;
      after.Running? && TestsAccounted(start, events + [e], after.cp)
  {
    var all, n := events + [e], Run(start, events);
    assert all[..|events|] == events;
    RunTestsTallies(e.run);
    assert Linked(n.world, n.local.cp, false);
    assert TestedAt(start, all, |events|, Run(start, all).local.cp);
  }

  /** The records a run has made so far stay accounted for as it goes on. */
  lemma RecordsStay(start: Now, events: seq<Event>, e: Event)
    requires Accounted(start, events)
    ensures
      var n := Run(start, events);
      && (n.world.disk.Some? ==> TestsAccounted(start, events + [e], n.world.disk.value))
      && (n.local.Running? ==> TestsAccounted(start, events + [e], n.local.cp))
      && (forall k :: 0 <= k < |n.world.advances| && n.world.advances[k].recorded.Some? ==>
            TestsAccounted(start, events + [e], n.world.advances[k].recorded.value))
  {
    var all, n := events + [e], Run(start, events);
    if n.local.Running? { AccountedStays(start, events, e, n.local.cp); }
    if n.world.disk.Some? { AccountedStays(start, events, e, n.world.disk.value); }
    forall k | 0 <= k < |n.world.advances| && n.world.advances[k].recorded.Some?
      ensures TestsAccounted(start, all, n.world.advances[k].recorded.value)
    {
      AccountedStays(start, events, e, n.world.advances[k].recorded.value);
    }
  }

  lemma RunOn(start: Now, events: seq<Event>, e: Event)
    ensures Run(start, events + [e]) == Happen(Run(start, events), e)
  {
    assert (events + [e])[..|events|] == events;
  }

  lemma CommandIsAccounted(start: Now, events: seq<Event>, e: Event, base: Sha)
    requires
      var n := Run(start, events);
      Accounted(start, events) && Inv(n, base, false) && n.local.Running? && e.Command?
    ensures Accounted(start, events + [e])
  {
    var all, n := events + [e], Run(start, events);
    RunOn(start, events, e);
    RecordsStay(start, events, e);
    WritesItsOwn(n.world, n.local.ctx, n.local.pc, n.local.cp, e.fate, e.run);
    RecordsTheDisk(n.world, n.local.ctx, n.local.pc, n.local.cp, e.fate, e.run);
    LocalIsAccounted(start, events, e, base);
  }

  lemma LocalIsAccounted(start: Now, events: seq<Event>, e: Event, base: Sha)
    requires
      var n := Run(start, events);
      Accounted(start, events) && Inv(n, base, false) && n.local.Running? && e.Command?
    ensures
      var after := Run(start, events + [e]).local;
      after.Running? ==> TestsAccounted(start, events + [e], after.cp)
  {
    var all, n := events + [e], Run(start, events);
    RunOn(start, events, e);
    var after := Run(start, all).local;
    if after.Running? {
      if n.local.pc == Test {
        TestIsAccounted(start, events, e, base);
      } else {
        HandsOn(n, e.fate, e.run, base);
        AccountedStays(start, events, e, n.local.cp);
        SameRecord(start, all, n.local.cp, after.cp);
      }
    }
  }

  /** Away from a command, a running attempt's checkpoint is the one it had, the one on disk, or a fresh one. */
  lemma OthersWriteNothing(n: Now, e: Event)
    requires !e.Command? || !n.local.Running?
    ensures
      var after := Happen(n, e);
      && after.world.disk in {n.world.disk, None} && after.world.advances == n.world.advances
      && (after.local.Running? ==>
            || after.local.cp.test.None?
            || (n.local.Running? && after.local.cp == n.local.cp)
            || n.world.disk == Some(after.local.cp))
  {
    match e
    case Start(_) =>
    case Restart(_) =>
    case Command(_, _) =>
    case Recovery =>
    case Builder(_) =>
    case Extend(_) =>
  }

  lemma OtherIsAccounted(start: Now, events: seq<Event>, e: Event)
    requires Accounted(start, events) && (!e.Command? || !Run(start, events).local.Running?)
    ensures Accounted(start, events + [e])
  {
    RunOn(start, events, e);
    RecordsStay(start, events, e);
    OthersWriteNothing(Run(start, events), e);
  }

  lemma {:induction false} AccountedOverRuns(commits: seq<Commit>, head: Sha, events: seq<Event>)
    requires head < |commits|
    ensures Accounted(Initial(commits, head), events)
  {
    if events != [] {
      var n := |events| - 1;
      var past, e, start := events[..n], events[n], Initial(commits, head);
      AccountedOverRuns(commits, head, past);
      InvOverRuns(commits, head, past, false);
      assert events == past + [e];
      if e.Command? && Run(start, past).local.Running? {
        CommandIsAccounted(start, past, e, head);
      } else {
        OtherIsAccounted(start, past, e);
      }
    }
  }

  /** Event `i` ended a test command that passed, over main at the merge that `a` published, on top of the
      origin/main that `a` started from. */
  predicate GatedBy(start: Now, events: seq<Event>, i: nat, a: Advance)
    requires i < |events|
  {
    var n := Run(start, events[..i]);
    && events[i].Command? && n.local.Running? && n.local.pc == Test && Passes(events[i].run)
    && n.world.main == a.to && n.world.origin == a.from
  }

  /** Over every run, stopped and restarted anywhere, what a push put on origin/main had been through a test command
      that passed: one that ended well, or printed that nothing failed. */
  lemma PassedBeforePublished(commits: seq<Commit>, head: Sha, events: seq<Event>, k: nat) returns (i: nat)
    requires head < |commits| && k < |Run(Initial(commits, head), events).world.advances|
    ensures
      i < |events| && GatedBy(Initial(commits, head), events, i, Run(Initial(commits, head), events).world.advances[k])
  {
    var start := Initial(commits, head);
    var a := Run(start, events).world.advances[k];
    OriginHistory(commits, head, events);
    assert RecordsTestedMerge(a);
    AccountedOverRuns(commits, head, events);
    i :| i < |events| && TestedAt(start, events, i, a.recorded.value);
    InvOverRuns(commits, head, events[..i], false);
    var n := Run(start, events[..i]);
    assert Linked(n.world, n.local.cp, false);
  }
}
