/** `executeMerge` as the source writes it, and what a whole attempt comes to. */
module MergeAttempt {
  import opened Text
  import opened Merging

  // ------------------------------------------------------------------ an attempt driven to its end

  function Rank(pc: Pc): (r: nat)
    ensures r < 20
  {
    match pc
    case FetchOrigin => 0 case WriteFetched => 1 case Checkout => 2 case ResetToOrigin => 3 case ReadPre => 4
    case WriteReset => 5 case DryMerge => 6 case DryAbort => 7 case ConflictAbort => 8 case DoMerge => 9
    case ReadMerge => 10 case WriteMerged => 11 case Test => 12 case WriteTested => 13 case RollBack => 14
    case PushMain => 15 case WritePushed => 16 case Close => 17 case WriteClosed => 18 case Unlink => 19
  }

  /** Runs an attempt until it returns or dies; no command occurs twice, so a plan fixes every fate. */
  function Drive(n: Now, plan: Pc -> Fate, run: TestRun): Now
    decreases if n.local.Running? then 20 - Rank(n.local.pc) else 0
  {
    if !n.local.Running? then n
    else Drive(Exec(n.world, n.local.ctx, n.local.pc, n.local.cp, plan(n.local.pc), run), plan, run)
  }

  lemma Step(w: World, ctx: Context, pc: Pc, cp: Checkpoint, plan: Pc -> Fate, run: TestRun)
    ensures Drive(Now(w, Running(ctx, pc, cp)), plan, run) == Drive(Exec(w, ctx, pc, cp, plan(pc), run), plan, run)
  {
  }

  function Stop(went: Went, thrown: Local): Local { if went == Threw then thrown else Dead }

  class Workspace {
    var commits: seq<Commit>
    var main: Sha
    var origin: Sha
    var merging: bool
    var unmerged: bool
    var disk: Option<Checkpoint>
    var advances: seq<Advance>

    function State(): World
      reads this
    {
      World(commits, main, origin, merging, unmerged, disk, advances)
    }

    /** A command that changes neither refs nor the checkpoint. */
    method Git(f: Fate) returns (went: Went)
      ensures Ran(State(), went) == Plain(State(), f)
    {
      went := match f case Succeeds => Did case Killed => Died case _ => Threw;
    }

    method CheckOutMain(f: Fate) returns (went: Went)
      ensures Ran(State(), went) == CheckOut(State(), f)
    {
      went := Git(f);
      if went == Did && unmerged { went := Threw; }
    }

    method ResetHard(to: Sha, f: Fate) returns (went: Went)
      modifies this
      ensures Ran(State(), went) == HardReset(old(State()), to, f)
    {
      went := Git(f);
      if went == Did {
        main := to;
        merging, unmerged := false, false;
      }
    }

    method MergeNoCommit(tip: Sha, f: Fate) returns (went: Went)
      modifies this
      ensures Ran(State(), went) == TryMerge(old(State()), tip, f)
    {
      if f == Killed { return Died; }
      if merging || f == Fails { return Threw; }
      if Reaches(commits, tip, main) { return Did; }
      merging, unmerged := true, f == Conflicts;
      went := if f == Conflicts then Threw else Did;
    }

    method MergeAbort(f: Fate) returns (went: Went)
      modifies this
      ensures Ran(State(), went) == AbortMerge(old(State()), f)
    {
      went := Git(f);
      if went == Did {
        if merging { merging, unmerged := false, false; } else { went := Threw; }
      }
    }

    method Merge(tip: Sha, f: Fate) returns (went: Went)
      modifies this
      ensures Ran(State(), went) == CommitMerge(old(State()), tip, f)
    {
      if f == Killed { return Died; }
      if merging || f == Fails { return Threw; }
      if Reaches(commits, tip, main) { return Did; }
      if f == Conflicts {
        merging, unmerged := true, true;
        return Threw;
      }
      commits, main := commits + [Commit([main, tip])], |commits|;
      went := Did;
    }

    method PushOrigin(f: Fate) returns (went: Went)
      modifies this
      ensures Ran(State(), went) == Push(old(State()), f)
    {
      went := Git(f);
      if went == Did {
        if origin == main { return Did; }
        if !Reaches(commits, origin, main) { return Threw; }
        advances := advances + [Advance(origin, main, disk)];
        origin := main;
      }
    }

    method WriteCheckpoint(to: Option<Checkpoint>, f: Fate) returns (went: Went)
      modifies this
      ensures Ran(State(), went) == WriteFile(old(State()), to, f)
    {
      went := Git(f);
      if went == Did { disk := to; }
    }

    /** Steps 1 and 2: fetch, reset main to origin/main. */
    method Prepare(ctx: Context, plan: Pc -> Fate, ghost run: TestRun) returns (end: Option<Local>, cp: Checkpoint)
      modifies this
      ensures
        Drive(Now(old(State()), Begin(ctx)), plan, run)
        == if end.Some? then Now(State(), end.value) else Drive(Now(State(), Running(ctx, DryMerge, cp)), plan, run)
    {
      cp := Checkpoint(ctx.issue, 1, Fetched, None, None, None);
      Step(State(), ctx, FetchOrigin, cp, plan, run);
      var went := Git(plan(FetchOrigin));
      if went != Did { return Some(Stop(went, Caught(cp))), cp; }
      Step(State(), ctx, WriteFetched, cp, plan, run);
      went := WriteCheckpoint(Some(cp), plan(WriteFetched));
      if went != Did { return Some(Stop(went, Caught(cp))), cp; }
      Step(State(), ctx, Checkout, cp, plan, run);
      went := CheckOutMain(plan(Checkout));
      if went != Did { return Some(Stop(went, Caught(cp))), cp; }
      Step(State(), ctx, ResetToOrigin, cp, plan, run);
      went := ResetHard(origin, plan(ResetToOrigin));
      if went != Did { return Some(Stop(went, Caught(cp))), cp; }
      Step(State(), ctx, ReadPre, cp, plan, run);
      went := Git(plan(ReadPre));
      if went != Did { return Some(Stop(went, Caught(cp))), cp; }
      cp := cp.(pre := Some(main), step := 2, state := Reset);
      Step(State(), ctx, WriteReset, cp, plan, run);
      went := WriteCheckpoint(Some(cp), plan(WriteReset));
      end := if went == Did then None else Some(Stop(went, Caught(cp)));
    }

    /** Step 3: try the merge and take it back. */
    method DryRun(ctx: Context, cp: Checkpoint, plan: Pc -> Fate, ghost run: TestRun) returns (end: Option<Local>)
      modifies this
      ensures
        Drive(Now(old(State()), Running(ctx, DryMerge, cp)), plan, run)
        == if end.Some? then Now(State(), end.value) else Drive(Now(State(), Running(ctx, DoMerge, cp)), plan, run)
    {
      Step(State(), ctx, DryMerge, cp, plan, run);
      var went := MergeNoCommit(ctx.tip, plan(DryMerge));
      if went == Did {
        Step(State(), ctx, DryAbort, cp, plan, run);
        went := MergeAbort(plan(DryAbort));
      }
      if went == Did { return None; }
      if went == Died { return Some(Dead); }
      Step(State(), ctx, ConflictAbort, cp, plan, run);
      went := MergeAbort(plan(ConflictAbort));
      end := Some(if went == Did then Returned(Result(false, 3, Conflict, None)) else Stop(went, Caught(cp)));
    }

    /** Step 4: make the merge. */
    method MergeBranch(ctx: Context, cp0: Checkpoint, plan: Pc -> Fate, ghost run: TestRun)
      returns (end: Option<Local>, cp: Checkpoint)
      modifies this
      ensures
        Drive(Now(old(State()), Running(ctx, DoMerge, cp0)), plan, run)
        == if end.Some? then Now(State(), end.value) else Drive(Now(State(), Running(ctx, Test, cp)), plan, run)
    {
      cp := cp0;
      Step(State(), ctx, DoMerge, cp, plan, run);
      var went := Merge(ctx.tip, plan(DoMerge));
      if went != Did { return Some(Stop(went, Caught(cp))), cp; }
      Step(State(), ctx, ReadMerge, cp, plan, run);
      went := Git(plan(ReadMerge));
      if went != Did { return Some(Stop(went, Caught(cp))), cp; }
      cp := cp.(merge := Some(main), step := 4, state := Merged);
      Step(State(), ctx, WriteMerged, cp, plan, run);
      went := WriteCheckpoint(Some(cp), plan(WriteMerged));
      end := if went == Did then None else Some(Stop(went, Caught(cp)));
    }

    /** Step 5: the tests, and the roll back when they fail. */
    method TestMerge(ctx: Context, cp0: Checkpoint, plan: Pc -> Fate, run: TestRun)
      returns (end: Option<Local>, cp: Checkpoint)
      modifies this
      ensures
        Drive(Now(old(State()), Running(ctx, Test, cp0)), plan, run)
        == if end.Some? then Now(State(), end.value) else Drive(Now(State(), Running(ctx, PushMain, cp)), plan, run)
    {
      cp := cp0;
      Step(State(), ctx, Test, cp, plan, run);
      if plan(Test) == Killed { return Some(Dead), cp; }
      cp := cp.(test := Some(RunTests(run)), step := 5, state := Tested);
      Step(State(), ctx, WriteTested, cp, plan, run);
      var went := WriteCheckpoint(Some(cp), plan(WriteTested));
      if went != Did { return Some(Stop(went, Caught(cp))), cp; }
      if cp.test.value.failed > 0 {
        Step(State(), ctx, RollBack, cp, plan, run);
        went := ResetHard(if cp.pre.Some? then cp.pre.value else main, plan(RollBack));
        end := Some(if went == Did then Returned(Result(false, 5, TestFailed, cp.merge)) else Stop(went, Caught(cp)));
        return;
      }
      end := None;
    }

    /** Steps 6 and 7: push, close, remove the checkpoint. */
    method Publish(ctx: Context, cp0: Checkpoint, plan: Pc -> Fate, ghost run: TestRun) returns (end: Local)
      modifies this
      ensures Drive(Now(old(State()), Running(ctx, PushMain, cp0)), plan, run) == Now(State(), end)
    {
      var cp := cp0;
      Step(State(), ctx, PushMain, cp, plan, run);
      var went := PushOrigin(plan(PushMain));
      if went != Did { return Stop(went, Caught(cp)); }
      cp := cp.(step := 6, state := Pushed);
      Step(State(), ctx, WritePushed, cp, plan, run);
      went := WriteCheckpoint(Some(cp), plan(WritePushed));
      if went != Did { return Stop(went, Caught(cp)); }
      Step(State(), ctx, Close, cp, plan, run);
      went := Git(plan(Close));
      if went != Did { return Stop(went, Caught(cp)); }
      cp := cp.(step := 7, state := Closed);
      Step(State(), ctx, WriteClosed, cp, plan, run);
      went := WriteCheckpoint(Some(cp), plan(WriteClosed));
      if went != Did { return Stop(went, Caught(cp)); }
      Step(State(), ctx, Unlink, cp, plan, run);
      went := WriteCheckpoint(None, plan(Unlink));
      end := if went == Did then Returned(Result(true, 7, At(Closed), cp.merge)) else Stop(went, Caught(cp));
    }

    /** `executeMerge`, each command meeting its planned fate. */
    method ExecuteMerge(ctx: Context, plan: Pc -> Fate, run: TestRun) returns (end: Local)
      modifies this
      ensures Now(State(), end) == Drive(Now(old(State()), Begin(ctx)), plan, run)
    {
      var stopped, cp := Prepare(ctx, plan, run);
      if stopped.Some? { return stopped.value; }
      stopped := DryRun(ctx, cp, plan, run);
      if stopped.Some? { return stopped.value; }
      stopped, cp := MergeBranch(ctx, cp, plan, run);
      if stopped.Some? { return stopped.value; }
      stopped, cp := TestMerge(ctx, cp, plan, run);
      if stopped.Some? { return stopped.value; }
      end := Publish(ctx, cp, plan, run);
    }

    /** `recoverMerge` on the checkpoint on disk: advice, and a closed checkpoint removed. */
    method RecoverMerge() returns (advice: Option<Advice>)
      modifies this`disk
      ensures State() == old(State()).(disk := RecoveredDisk(old(disk)))
      ensures disk == if old(disk).Some? && old(disk).value.state == Closed then None else old(disk)
      ensures advice == if old(disk).None? then None else Some(Recover(old(State()), old(disk).value))
    {
      if disk.None? { return None; }
      var cp := disk.value;
      match cp.state {
        case Fetched => advice := Some(Resume(2));
        case Reset => advice := Some(Resume(3));
        case Merged =>
          advice := Some(if cp.merge.Some? && Reaches(commits, cp.merge.value, main) then Resume(5) else Abort);
        case Tested => advice := Some(if cp.test.Some? && cp.test.value.failed == 0 then Resume(6) else RollBackAdvice);
        case Pushed => advice := Some(if cp.merge == Some(origin) then Resume(7) else Abort);
        case Closed =>
          disk := None;
          advice := Some(Complete);
      }
    }
  }
}
