/** What whole attempts come to, and when a stopped one can be resumed. */
module MergeOutcomes {
  import opened Text
  import opened Merging
  import opened MergeSafety
  import opened MergeRuns
  import opened MergeAttempt

  // ------------------------------------------------------------------ every attempt

  lemma {:induction false} RunFromFront(n: Now, e: Event, rest: seq<Event>)
    ensures Run(n, [e] + rest) == Run(Happen(n, e), rest)
    decreases |rest|
  {
    var all := [e] + rest;
    if rest == [] {
      assert all[..0] == [];
      assert Run(n, all[..0]) == n;
    } else {
      assert all[..|all| - 1] == [e] + rest[..|rest| - 1];
      RunFromFront(n, e, rest[..|rest| - 1]);
    }
  }

  /** A driven attempt is a run, so what holds over runs holds of it. */
  lemma {:induction false} AttemptIsARun(n: Now, plan: Pc -> Fate, run: TestRun) returns (events: seq<Event>)
    ensures Run(n, events) == Drive(n, plan, run)
    decreases if n.local.Running? then 20 - Rank(n.local.pc) else 0
  {
    if !n.local.Running? { return []; }
    var e := Command(plan(n.local.pc), run);
    var rest := AttemptIsARun(Happen(n, e), plan, run);
    RunFromFront(n, e, rest);
    events := [e] + rest;
  }

  ghost predicate Sound(n: Now, base: Sha, straight: bool) {
    Inv(n, base, straight) && (n.local.Returned? ==> Honest(n.world, n.local.result, straight))
  }

  lemma CommandKeepsSound(n: Now, f: Fate, run: TestRun, base: Sha, straight: bool)
    requires Sound(n, base, straight) && n.local.Running?
    ensures Sound(Happen(n, Command(f, run)), base, straight)
  {
    EventKeepsInv(n, Command(f, run), base, straight);
    ReturnIsHonest(n, f, run, base, straight);
  }

  lemma DriveOn(n: Now, plan: Pc -> Fate, run: TestRun)
    requires n.local.Running?
    ensures Drive(n, plan, run) == Drive(Happen(n, Command(plan(n.local.pc), run)), plan, run)
    ensures
      var next := Happen(n, Command(plan(n.local.pc), run)).local;
      next.Running? ==> Rank(n.local.pc) < Rank(next.pc)
  {
  }

  /** Whatever its commands meet, an attempt keeps the invariant and returns honestly. */
  lemma {:induction false} AttemptsAreHonest(n: Now, plan: Pc -> Fate, run: TestRun, base: Sha, straight: bool)
    requires Sound(n, base, straight)
    ensures Sound(Drive(n, plan, run), base, straight) && !Drive(n, plan, run).local.Running?
    decreases if n.local.Running? then 20 - Rank(n.local.pc) else 0
  {
    if n.local.Running? {
      var f := plan(n.local.pc);
      CommandKeepsSound(n, f, run, base, straight);
      DriveOn(n, plan, run);
      AttemptsAreHonest(Happen(n, Command(f, run)), plan, run, base, straight);
    }
  }

  // ------------------------------------------------------------------ attempts whose commands all succeed

  predicate WellUpTo(plan: Pc -> Fate, last: Pc) {
    forall pc: Pc :: Rank(pc) <= Rank(last) ==> plan(pc) == Succeeds
  }

  function PreCheckpoint(w: World, ctx: Context): Checkpoint {
    Checkpoint(ctx.issue, 2, Reset, Some(w.origin), None, None)
  }

  function Fresh(w: World, ctx: Context): World {
    w.(main := w.origin, merging := false, unmerged := false, disk := Some(PreCheckpoint(w, ctx)))
  }

  function FetchedCheckpoint(ctx: Context): Checkpoint { Checkpoint(ctx.issue, 1, Fetched, None, None, None) }

  lemma FetchesFirst(w: World, ctx: Context, plan: Pc -> Fate, run: TestRun)
    requires WellUpTo(plan, WriteFetched)
    ensures
      var cp := FetchedCheckpoint(ctx);
      Drive(Now(w, Begin(ctx)), plan, run) == Drive(Now(w.(disk := Some(cp)), Running(ctx, Checkout, cp)), plan, run)
  {
    Step(w, ctx, FetchOrigin, FetchedCheckpoint(ctx), plan, run);
    Step(w, ctx, WriteFetched, FetchedCheckpoint(ctx), plan, run);
  }

  lemma PreparedFromCheckout(w: World, ctx: Context, plan: Pc -> Fate, run: TestRun)
    requires WellUpTo(plan, WriteReset) && !w.unmerged
    ensures
      var ready := Now(Fresh(w, ctx), Running(ctx, DryMerge, PreCheckpoint(w, ctx)));
      Drive(Now(w, Running(ctx, Checkout, FetchedCheckpoint(ctx))), plan, run) == Drive(ready, plan, run)
  {
    var cp := FetchedCheckpoint(ctx);
    Step(w, ctx, Checkout, cp, plan, run);
    Step(w, ctx, ResetToOrigin, cp, plan, run);
    var w1 := w.(main := w.origin, merging := false, unmerged := false);
    Step(w1, ctx, ReadPre, cp, plan, run);
    Step(w1, ctx, WriteReset, PreCheckpoint(w, ctx), plan, run);
  }

  lemma Prepared(w: World, ctx: Context, plan: Pc -> Fate, run: TestRun)
    requires WellUpTo(plan, WriteReset) && !w.unmerged
    ensures
      var ready := Now(Fresh(w, ctx), Running(ctx, DryMerge, PreCheckpoint(w, ctx)));
      Drive(Now(w, Begin(ctx)), plan, run) == Drive(ready, plan, run)
  {
    FetchesFirst(w, ctx, plan, run);
    PreparedFromCheckout(w.(disk := Some(FetchedCheckpoint(ctx))), ctx, plan, run);
  }

  function Joined(w: World, ctx: Context): World {
    w.(commits := w.commits + [Commit([w.main, ctx.tip])], main := |w.commits|, unmerged := false)
  }

  /** Steps 3 and 4 from a main that is free of a merge and lacks the branch. */
  lemma MergesWhenFree(w: World, ctx: Context, cp: Checkpoint, plan: Pc -> Fate, run: TestRun)
    requires WellUpTo(plan, DoMerge) && !w.merging && !Reaches(w.commits, ctx.tip, w.main)
    ensures
      var joined := Now(Joined(w, ctx), Running(ctx, ReadMerge, cp));
      Drive(Now(w, Running(ctx, DryMerge, cp)), plan, run) == Drive(joined, plan, run)
  {
    Step(w, ctx, DryMerge, cp, plan, run);
    var w1 := w.(merging := true, unmerged := false);
    Step(w1, ctx, DryAbort, cp, plan, run);
    Step(w1.(merging := false), ctx, DoMerge, cp, plan, run);
  }

  function MergedCheckpoint(w: World, cp: Checkpoint): Checkpoint {
    cp.(merge := Some(w.main), step := 4, state := Merged)
  }

  function TestedCheckpoint(w: World, cp: Checkpoint, run: TestRun): Checkpoint {
    MergedCheckpoint(w, cp).(test := Some(RunTests(run)), step := 5, state := Tested)
  }

  lemma TestsMerged(w: World, ctx: Context, cp: Checkpoint, plan: Pc -> Fate, run: TestRun)
    requires WellUpTo(plan, WriteTested)
    ensures
      var tested := cp.(test := Some(RunTests(run)), step := 5, state := Tested);
      var next := if Passes(run) then PushMain else RollBack;
      Drive(Now(w, Running(ctx, Test, cp)), plan, run)
      == Drive(Now(w.(disk := Some(tested)), Running(ctx, next, tested)), plan, run)
  {
    Step(w, ctx, Test, cp, plan, run);
    Step(w, ctx, WriteTested, cp.(test := Some(RunTests(run)), step := 5, state := Tested), plan, run);
  }

  lemma TestsAfterMerge(w: World, ctx: Context, cp: Checkpoint, plan: Pc -> Fate, run: TestRun)
    requires WellUpTo(plan, WriteTested)
    ensures
      var tested := TestedCheckpoint(w, cp, run);
      var next := if Passes(run) then PushMain else RollBack;
      Drive(Now(w, Running(ctx, ReadMerge, cp)), plan, run)
      == Drive(Now(w.(disk := Some(tested)), Running(ctx, next, tested)), plan, run)
  {
    var merged, tested := MergedCheckpoint(w, cp), TestedCheckpoint(w, cp, run);
    var next := if Passes(run) then PushMain else RollBack;
    calc {
      Drive(Now(w, Running(ctx, ReadMerge, cp)), plan, run);
      { RecordsMerge(w, ctx, cp, plan, run); }
      Drive(Now(w.(disk := Some(merged)), Running(ctx, Test, merged)), plan, run);
      { TestsMerged(w.(disk := Some(merged)), ctx, merged, plan, run); }
      Drive(Now(w.(disk := Some(tested)), Running(ctx, next, tested)), plan, run);
    }
  }

  lemma RecordsMerge(w: World, ctx: Context, cp: Checkpoint, plan: Pc -> Fate, run: TestRun)
    requires WellUpTo(plan, WriteMerged)
    ensures
      var merged := MergedCheckpoint(w, cp);
      Drive(Now(w, Running(ctx, ReadMerge, cp)), plan, run)
      == Drive(Now(w.(disk := Some(merged)), Running(ctx, Test, merged)), plan, run)
  {
    Step(w, ctx, ReadMerge, cp, plan, run);
    Step(w, ctx, WriteMerged, MergedCheckpoint(w, cp), plan, run);
  }

  lemma ClosesPushed(w: World, ctx: Context, cp: Checkpoint, plan: Pc -> Fate, run: TestRun)
    requires WellUpTo(plan, Unlink)
    ensures
      Drive(Now(w, Running(ctx, Close, cp)), plan, run)
      == Now(w.(disk := None), Returned(Result(true, 7, At(Closed), cp.merge)))
  {
    Step(w, ctx, Close, cp, plan, run);
    var closed := cp.(step := 7, state := Closed);
    Step(w, ctx, WriteClosed, closed, plan, run);
    Step(w.(disk := Some(closed)), ctx, Unlink, closed, plan, run);
  }

  lemma WritesPushed(w: World, ctx: Context, cp: Checkpoint, plan: Pc -> Fate, run: TestRun)
    requires WellUpTo(plan, Unlink)
    ensures
      Drive(Now(w, Running(ctx, WritePushed, cp)), plan, run)
      == Now(w.(disk := None), Returned(Result(true, 7, At(Closed), cp.merge)))
  {
    Step(w, ctx, WritePushed, cp, plan, run);
    ClosesPushed(w.(disk := Some(cp)), ctx, cp, plan, run);
  }

  lemma PublishesTested(w: World, ctx: Context, cp: Checkpoint, plan: Pc -> Fate, run: TestRun)
    requires WellUpTo(plan, Unlink) && w.origin != w.main && Reaches(w.commits, w.origin, w.main)
    ensures
      Drive(Now(w, Running(ctx, PushMain, cp)), plan, run)
      == Now(w.(origin := w.main, advances := w.advances + [Advance(w.origin, w.main, w.disk)], disk := None),
             Returned(Result(true, 7, At(Closed), cp.merge)))
  {
    Step(w, ctx, PushMain, cp, plan, run);
    var w1 := w.(origin := w.main, advances := w.advances + [Advance(w.origin, w.main, w.disk)]);
    WritesPushed(w1, ctx, cp.(step := 6, state := Pushed), plan, run);
  }

  lemma JoinedContains(w: World, ctx: Context)
    requires w.main < |w.commits| && Reaches(w.commits, w.origin, w.main)
    ensures var j := Joined(w, ctx); w.origin < j.main && Reaches(j.commits, w.origin, j.main)
  {
    var j := Joined(w, ctx);
    ReachesBack(w.commits, w.origin, w.main);
    ReachesGrows(w.commits, Commit([w.main, ctx.tip]), w.origin, w.main);
    assert Reaches(j.commits, w.origin, j.commits[j.main].parents[0]);
  }

  /** From step 3, with no merge in progress and main, which contains origin/main, lacking the branch: published
      when the test command reports no failure, put back otherwise. */
  lemma FreeAttempt(w: World, ctx: Context, cp: Checkpoint, plan: Pc -> Fate, run: TestRun)
    requires WellUpTo(plan, Unlink) && !w.merging && !Reaches(w.commits, ctx.tip, w.main)
    requires w.main < |w.commits| && Reaches(w.commits, w.origin, w.main) && cp.pre == Some(w.origin)
    ensures
      var end := Drive(Now(w, Running(ctx, DryMerge, cp)), plan, run);
      var m, tested := |w.commits|, TestedCheckpoint(Joined(w, ctx), cp, run);
      && end.world.commits == Joined(w, ctx).commits
      && (if !Passes(run) then
            && end.local == Returned(Result(false, 5, TestFailed, Some(m)))
            && end.world.main == end.world.origin == w.origin && end.world.advances == w.advances
            && end.world.disk == Some(tested)
          else
            && end.local == Returned(Result(true, 7, At(Closed), Some(m)))
            && end.world.main == end.world.origin == m && end.world.disk.None?
            && end.world.advances == w.advances + [Advance(w.origin, m, Some(tested))])
  {
    MergesWhenFree(w, ctx, cp, plan, run);
    TestsAfterMerge(Joined(w, ctx), ctx, cp, plan, run);
    if !Passes(run) { PutsBack(w, ctx, cp, plan, run); } else { PublishesJoined(w, ctx, cp, plan, run); }
  }

  lemma PutsBack(w: World, ctx: Context, cp: Checkpoint, plan: Pc -> Fate, run: TestRun)
    requires WellUpTo(plan, RollBack) && cp.pre == Some(w.origin)
    ensures
      var tested := TestedCheckpoint(Joined(w, ctx), cp, run);
      var end := Drive(Now(Joined(w, ctx).(disk := Some(tested)), Running(ctx, RollBack, tested)), plan, run);
      && end.local == Returned(Result(false, 5, TestFailed, Some(|w.commits|)))
      && end.world.commits == Joined(w, ctx).commits && end.world.advances == w.advances
      && end.world.main == end.world.origin == w.origin && end.world.disk == Some(tested)
  {
    var tested := TestedCheckpoint(Joined(w, ctx), cp, run);
    Step(Joined(w, ctx).(disk := Some(tested)), ctx, RollBack, tested, plan, run);
  }

  lemma PublishesJoined(w: World, ctx: Context, cp: Checkpoint, plan: Pc -> Fate, run: TestRun)
    requires WellUpTo(plan, Unlink) && w.main < |w.commits| && Reaches(w.commits, w.origin, w.main)
    ensures
      var tested := TestedCheckpoint(Joined(w, ctx), cp, run);
      var end := Drive(Now(Joined(w, ctx).(disk := Some(tested)), Running(ctx, PushMain, tested)), plan, run);
      && end.local == Returned(Result(true, 7, At(Closed), Some(|w.commits|)))
      && end.world.commits == Joined(w, ctx).commits
      && end.world.main == end.world.origin == |w.commits| && end.world.disk.None?
      && end.world.advances == w.advances + [Advance(w.origin, |w.commits|, Some(tested))]
  {
    var tested := TestedCheckpoint(Joined(w, ctx), cp, run);
    JoinedContains(w, ctx);
    PublishesTested(Joined(w, ctx).(disk := Some(tested)), ctx, tested, plan, run);
  }

  /** A branch that main contains begins no merge, so there is none to abort. */
  lemma RefusedAtDryRun(w: World, ctx: Context, cp: Checkpoint, plan: Pc -> Fate, run: TestRun)
    requires WellUpTo(plan, ConflictAbort) && !w.merging && Reaches(w.commits, ctx.tip, w.main)
    ensures Drive(Now(w, Running(ctx, DryMerge, cp)), plan, run) == Now(w, Caught(cp))
  {
    Step(w, ctx, DryMerge, cp, plan, run);
    Step(w, ctx, DryAbort, cp, plan, run);
    Step(w, ctx, ConflictAbort, cp, plan, run);
  }

  /** The checkpoint of a tested merge `m` made over `pre`, holding the counts the test command printed. */
  predicate RecordsTest(cp: Checkpoint, issue: nat, pre: Sha, m: Sha, run: TestRun) {
    && cp.issue == issue && cp.step == 5 && cp.state == Tested && cp.pre == Some(pre) && cp.merge == Some(m)
    && cp.test.Some? && Tallies(cp.test.value, run)
  }

  /** What an attempt answers when none of its git commands fails. */
  function Answer(w: World, ctx: Context, run: TestRun): Result {
    if w.unmerged then Result(false, 1, At(Fetched), None)
    else if Reaches(w.commits, ctx.tip, w.origin) then Result(false, 2, At(Reset), None)
    else if Passes(run) then Result(true, 7, At(Closed), Some(|w.commits|))
    else Result(false, 5, TestFailed, Some(|w.commits|))
  }

  /** And where it leaves main, origin/main, the history and the checkpoint. */
  predicate Settled(w: World, ctx: Context, run: TestRun, end: World) {
    var m := |w.commits|;
    if w.unmerged then
      end.main == w.main && end.origin == w.origin && end.advances == w.advances
    else if Reaches(w.commits, ctx.tip, w.origin) then
      end.main == end.origin == w.origin && end.advances == w.advances
    else
      && end.commits == w.commits + [Commit([w.origin, ctx.tip])]
      && (if Passes(run) then
            && end.main == end.origin == m && end.disk.None? && |end.advances| == |w.advances| + 1
            && end.advances[..|w.advances|] == w.advances
            && var a := end.advances[|w.advances|];
               && a.from == w.origin && a.to == m
               && a.recorded.Some? && RecordsTest(a.recorded.value, ctx.issue, w.origin, m, run)
          else
            && end.main == end.origin == w.origin && end.advances == w.advances
            && end.disk.Some? && RecordsTest(end.disk.value, ctx.issue, w.origin, m, run))
  }

  /** The whole attempt when no git command fails: exactly a branch not yet published whose tests pass is
      published, unless an unmerged index stops the checkout; what it answers and leaves otherwise. */
  lemma AttemptExactly(w: World, ctx: Context, plan: Pc -> Fate, run: TestRun)
    requires WellUpTo(plan, Unlink) && w.origin < |w.commits|
    ensures
      var end := Drive(Now(w, Begin(ctx)), plan, run);
      end.local == Returned(Answer(w, ctx, run)) && Settled(w, ctx, run, end.world)
  {
    FetchesFirst(w, ctx, plan, run);
    CheckoutExactly(w.(disk := Some(FetchedCheckpoint(ctx))), ctx, plan, run);
  }

  lemma CheckoutExactly(w: World, ctx: Context, plan: Pc -> Fate, run: TestRun)
    requires WellUpTo(plan, Unlink) && w.origin < |w.commits|
    ensures
      var end := Drive(Now(w, Running(ctx, Checkout, FetchedCheckpoint(ctx))), plan, run);
      end.local == Returned(Answer(w, ctx, run)) && Settled(w, ctx, run, end.world)
  {
    if w.unmerged {
      Step(w, ctx, Checkout, FetchedCheckpoint(ctx), plan, run);
    } else {
      PreparedFromCheckout(w, ctx, plan, run);
      var f, cp := Fresh(w, ctx), PreCheckpoint(w, ctx);
      if Reaches(w.commits, ctx.tip, w.origin) {
        RefusedAtDryRun(f, ctx, cp, plan, run);
      } else {
        FreeAttempt(f, ctx, cp, plan, run);
      }
    }
  }

  /** A test command that exits with a failure but prints "<p> passed ... 0 failed" is published. */
  lemma FailedExitCanPublish(w: World, ctx: Context, plan: Pc -> Fate, passed: nat)
    requires WellUpTo(plan, Unlink) && w.origin < |w.commits| && !w.unmerged && !Reaches(w.commits, ctx.tip, w.origin)
    ensures
      var end := Drive(Now(w, Begin(ctx)), plan, Broken(Some((passed, 0))));
      end.local.Returned? && end.local.result.success && end.world.origin == |w.commits|
  {
    AttemptExactly(w, ctx, plan, Broken(Some((passed, 0))));
  }

  // ------------------------------------------------------------------ restarting at step 3

  /** From step 3 with a merge in progress, or with the branch already on main, no attempt gets past the dry
      run, whatever its commands meet: refs, history and checkpoint stay, and it never succeeds. */
  lemma StuckAtStepThree(w: World, ctx: Context, cp: Checkpoint, plan: Pc -> Fate, run: TestRun)
    requires w.merging || Reaches(w.commits, ctx.tip, w.main)
    ensures
      var end := Drive(Now(w, Running(ctx, DryMerge, cp)), plan, run);
      && end.world == w.(merging := end.world.merging, unmerged := end.world.unmerged)
      && (end.local.Returned? ==> !end.local.result.success)
      && (WellUpTo(plan, ConflictAbort) ==> end.local.Returned?)
  {
    Step(w, ctx, DryMerge, cp, plan, run);
    if !w.merging { Step(w, ctx, DryAbort, cp, plan, run); }
    Step(w, ctx, ConflictAbort, cp, plan, run);
  }

  /** An attempt that returned: with a success that put `published` on main and origin/main, or without one and with
      origin/main where it `was`. */
  predicate Ends(end: Now, success: bool, published: Sha, was: Sha) {
    && end.local.Returned? && (end.local.result.success <==> success)
    && (success ==> end.local.result.merge == Some(published) && end.world.main == end.world.origin == published
                    && end.world.disk.None?)
    && (!success ==> end.world.origin == was)
  }

  /** Every `reset` checkpoint gets the advice "from step 3". Whatever run left it, with every command succeeding,
      step 3 leads to success if and only if no merge is in progress, main does not contain the branch and the
      tests pass. */
  lemma ResumeAtStepThreeExactly(w: World, ctx: Context, cp: Checkpoint, plan: Pc -> Fate, run: TestRun)
    requires WellUpTo(plan, Unlink)
    requires w.main < |w.commits| && w.origin < |w.commits| && cp.state == Reset && Linked(w, cp, false)
    ensures Recover(w, cp) == Resume(3)
    ensures
      var end := Drive(Now(w, Running(ctx, DryMerge, cp)), plan, run);
      Ends(end, !w.merging && !Reaches(w.commits, ctx.tip, w.main) && Passes(run), |w.commits|, w.origin)
  {
    if w.merging || Reaches(w.commits, ctx.tip, w.main) {
      StuckAtStepThree(w, ctx, cp, plan, run);
    } else {
      FreeAttempt(w, ctx, cp, plan, run);
    }
  }

  lemma ResumeMerged(w: World, ctx: Context, cp: Checkpoint, plan: Pc -> Fate, run: TestRun)
    requires WellUpTo(plan, Unlink) && cp.state == Merged && Linked(w, cp, false)
    ensures Recover(w, cp) == Resume(5)
    ensures
      var end := Drive(Now(w, Running(ctx, Test, cp)), plan, run);
      Ends(end, Passes(run), w.main, w.origin)
  {
    var tested := cp.(test := Some(RunTests(run)), step := 5, state := Tested);
    TestsMerged(w, ctx, cp, plan, run);
    if !Passes(run) {
      Step(w.(disk := Some(tested)), ctx, RollBack, tested, plan, run);
    } else {
      PublishesTested(w.(disk := Some(tested)), ctx, tested, plan, run);
    }
  }

  lemma ResumeTested(w: World, ctx: Context, cp: Checkpoint, plan: Pc -> Fate, run: TestRun)
    requires WellUpTo(plan, Unlink) && cp.state == Tested && Linked(w, cp, false)
    ensures Recover(w, cp) == if Passed(cp) then Resume(6) else RollBackAdvice
    ensures
      var end := Drive(Now(w, Running(ctx, if Passed(cp) then PushMain else RollBack, cp)), plan, run);
      Ends(end, Passed(cp), w.main, w.origin)
  {
    if !Passed(cp) {
      Step(w, ctx, RollBack, cp, plan, run);
    } else if w.origin == w.main {
      Step(w, ctx, PushMain, cp, plan, run);
      WritesPushed(w, ctx, cp.(step := 6, state := Pushed), plan, run);
    } else {
      PublishesTested(w, ctx, cp, plan, run);
    }
  }

  /** When the restart that recovery advises for a checkpoint publishes, the issue's branch now being at `tip` and
      `run` what the test command would do. */
  predicate RestartPublishes(w: World, cp: Checkpoint, tip: Sha, run: TestRun) {
    match cp.state
    case Fetched => !w.unmerged && !Reaches(w.commits, tip, w.origin) && Passes(run)
    case Reset => !w.merging && !Reaches(w.commits, tip, w.main) && Passes(run)
    case Merged => Passes(run)
    case Tested => Passed(cp)
    case Pushed => true
    case Closed => false
  }

  /** The merge it publishes: the one it makes, or the one on main. */
  function RestartMerge(w: World, cp: Checkpoint): Sha { if cp.state in {Fetched, Reset} then |w.commits| else w.main }

  lemma ResumeExactly(w: World, cp: Checkpoint, tip: Sha, plan: Pc -> Fate, run: TestRun)
    requires WellUpTo(plan, Unlink) && w.main < |w.commits| && w.origin < |w.commits|
    requires w.disk == Some(cp) && Linked(w, cp, false) && cp.state != Closed
    ensures Restarted(w, tip).Some?
    ensures
      var end := Drive(Now(w, Restarted(w, tip).value), plan, run);
      Ends(end, RestartPublishes(w, cp, tip, run), RestartMerge(w, cp), w.origin)
  {
    var ctx := Context(cp.issue, tip);
    match cp.state
    case Fetched => CheckoutExactly(w, ctx, plan, run);
    case Reset => ResumeAtStepThreeExactly(w, ctx, cp, plan, run);
    case Merged => ResumeMerged(w, ctx, cp, plan, run);
    case Tested => ResumeTested(w, ctx, cp, plan, run);
    case Pushed => ClosesPushed(w, ctx, cp, plan, run);
  }

  /** Whatever run left it, stopped and restarted anywhere, and wherever the branch has moved since: restarted as
      recovery advises with every command succeeding, the attempt returns, and publishes exactly then. */
  lemma RestartExactly(commits: seq<Commit>, head: Sha, events: seq<Event>, tip: Sha,
                       plan: Pc -> Fate, run: TestRun)
    requires head < |commits| && WellUpTo(plan, Unlink)
    requires
      var n := Run(Initial(commits, head), events);
      !n.local.Running? && n.world.disk.Some? && n.world.disk.value.state != Closed && tip < |n.world.commits|
    ensures
      var n := Run(Initial(commits, head), events);
      var cp, end := n.world.disk.value, Drive(Happen(n, Restart(tip)), plan, run);
      Ends(end, RestartPublishes(n.world, cp, tip, run), RestartMerge(n.world, cp), n.world.origin)
  {
    var n := Run(Initial(commits, head), events);
    InvOverRuns(commits, head, events, false);
    ResumeExactly(n.world, n.world.disk.value, tip, plan, run);
  }

  /** An attempt on a branch already published is refused at the dry run and leaves a `reset` checkpoint over a
      clean main at origin/main; recovery advises step 3, which can only be refused again while the branch stays. */
  lemma RefusedAttemptCannotResume(w: World, ctx: Context, plan: Pc -> Fate, run: TestRun,
                                   again: Pc -> Fate, rerun: TestRun)
    requires WellUpTo(plan, Unlink) && !w.unmerged && Reaches(w.commits, ctx.tip, w.origin)
    ensures
      var left := Drive(Now(w, Begin(ctx)), plan, run);
      var cp := PreCheckpoint(w, ctx);
      && left == Now(Fresh(w, ctx), Returned(Result(false, 2, At(Reset), None))) && Recover(left.world, cp) == Resume(3)
      && (var end := Drive(Now(left.world, Running(ctx, DryMerge, cp)), again, rerun);
          end.world.origin == w.origin && (end.local.Returned? ==> !end.local.result.success))
  {
    Prepared(w, ctx, plan, run);
    RefusedAtDryRun(Fresh(w, ctx), ctx, PreCheckpoint(w, ctx), plan, run);
    StuckAtStepThree(Fresh(w, ctx), ctx, PreCheckpoint(w, ctx), again, rerun);
  }

  function LeftByMerge(w: World, ctx: Context): World { Joined(Fresh(w, ctx), ctx) }

  predicate KilledBetween(plan: Pc -> Fate) {
    && WellUpTo(plan, DoMerge)
    && (plan(ReadMerge) == Killed || (plan(ReadMerge) == Succeeds && plan(WriteMerged) == Killed))
  }

  /** An attempt killed after `git merge` and before the `merged` checkpoint leaves a `reset` checkpoint over a
      main that has already moved, and recovery advises step 3. */
  lemma KilledAfterMerge(w: World, ctx: Context, plan: Pc -> Fate, run: TestRun)
    requires !w.unmerged && !Reaches(w.commits, ctx.tip, w.origin) && KilledBetween(plan)
    ensures
      var left := Drive(Now(w, Begin(ctx)), plan, run);
      && left == Now(LeftByMerge(w, ctx), Dead) && left.world.disk == Some(PreCheckpoint(w, ctx))
      && left.world.main == |w.commits| && Recover(left.world, PreCheckpoint(w, ctx)) == Resume(3)
  {
    Prepared(w, ctx, plan, run);
    var f, cp := Fresh(w, ctx), PreCheckpoint(w, ctx);
    MergesWhenFree(f, ctx, cp, plan, run);
    var j := Joined(f, ctx);
    Step(j, ctx, ReadMerge, cp, plan, run);
    Step(j, ctx, WriteMerged, MergedCheckpoint(j, cp), plan, run);
  }

  /** There, while the branch stays where it was, no restart at step 3 can succeed; starting over from step 1 does. */
  lemma LostMergeNeedsANewStart(w: World, ctx: Context, again: Pc -> Fate, rerun: TestRun)
    requires w.origin < |w.commits| && ctx.tip < |w.commits| && !Reaches(w.commits, ctx.tip, w.origin)
    ensures
      var left := LeftByMerge(w, ctx);
      && (var end := Drive(Now(left, Running(ctx, DryMerge, PreCheckpoint(w, ctx))), again, rerun);
          end.world.origin == w.origin && (end.local.Returned? ==> !end.local.result.success))
      && (WellUpTo(again, Unlink) && Passes(rerun) ==>
            var end := Drive(Now(left, Begin(ctx)), again, rerun);
            end.local.Returned? && end.local.result.success)
  {
    var left := LeftByMerge(w, ctx);
    assert Reaches(left.commits, ctx.tip, left.commits[left.main].parents[1]);
    StuckAtStepThree(left, ctx, PreCheckpoint(w, ctx), again, rerun);
    ReachesGrows(w.commits, Commit([w.origin, ctx.tip]), ctx.tip, w.origin);
    if WellUpTo(again, Unlink) { AttemptExactly(left, ctx, again, rerun); }
  }

  function Moved(w: World, ctx: Context): World {
    Happen(Now(LeftByMerge(w, ctx), Dead), Builder([ctx.tip])).world
  }

  lemma MovedBranchIsFree(w: World, ctx: Context)
    requires w.origin < |w.commits| && ctx.tip < |w.commits|
    ensures
      var left := Moved(w, ctx);
      && |left.commits| == |w.commits| + 2 && left.main == |w.commits| && left.origin == w.origin && !left.merging
      && !Reaches(left.commits, |w.commits| + 1, left.main) && Reaches(left.commits, left.origin, left.main)
  {
    var was, left := LeftByMerge(w, ctx), Moved(w, ctx);
    JoinedContains(Fresh(w, ctx), ctx);
    ReachesGrows(was.commits, Commit([ctx.tip]), was.origin, was.main);
    if Reaches(left.commits, |w.commits| + 1, left.main) { ReachesBack(left.commits, |w.commits| + 1, left.main); }
  }

  /** Once the builder has added a commit to the branch, the restart at step 3 does succeed: it merges the new
      commit on top of the lost merge and publishes both. */
  lemma MovedBranchResumes(w: World, ctx: Context, again: Pc -> Fate, rerun: TestRun)
    requires w.origin < |w.commits| && ctx.tip < |w.commits| && !Reaches(w.commits, ctx.tip, w.origin)
    requires WellUpTo(again, Unlink) && Passes(rerun)
    ensures
      var ahead := Context(ctx.issue, |w.commits| + 1);
      var end := Drive(Now(Moved(w, ctx), Running(ahead, DryMerge, PreCheckpoint(w, ctx))), again, rerun);
      end.local.Returned? && end.local.result.success && end.world.origin == |w.commits| + 2
  {
    MovedBranchIsFree(w, ctx);
    FreeAttempt(Moved(w, ctx), Context(ctx.issue, |w.commits| + 1), PreCheckpoint(w, ctx), again, rerun);
  }

  /** Step 3 resumed over a merge in progress ends in a conflict report and clears the merge. */
  lemma ClearsTheMerge(w: World, ctx: Context, cp: Checkpoint, plan: Pc -> Fate, run: TestRun)
    requires w.merging && WellUpTo(plan, ConflictAbort)
    ensures
      Drive(Now(w, Running(ctx, DryMerge, cp)), plan, run)
      == Now(w.(merging := false, unmerged := false), Returned(Result(false, 3, Conflict, None)))
  {
    Step(w, ctx, DryMerge, cp, plan, run);
    Step(w, ctx, ConflictAbort, cp, plan, run);
  }

  function LeftByDryRun(w: World, ctx: Context): World { Fresh(w, ctx).(merging := true) }

  lemma StopsInDryRun(w: World, ctx: Context, plan: Pc -> Fate, run: TestRun)
    requires !w.unmerged && !Reaches(w.commits, ctx.tip, w.origin)
    requires WellUpTo(plan, DryMerge) && plan(DryAbort) == Killed
    ensures Drive(Now(w, Begin(ctx)), plan, run) == Now(LeftByDryRun(w, ctx), Dead)
  {
    Prepared(w, ctx, plan, run);
    Step(Fresh(w, ctx), ctx, DryMerge, PreCheckpoint(w, ctx), plan, run);
    Step(LeftByDryRun(w, ctx), ctx, DryAbort, PreCheckpoint(w, ctx), plan, run);
  }

  lemma ResumedTwice(w: World, ctx: Context, plan: Pc -> Fate, run: TestRun)
    requires w.origin < |w.commits| && !Reaches(w.commits, ctx.tip, w.origin) && WellUpTo(plan, Unlink)
    ensures
      var cp := PreCheckpoint(w, ctx);
      var first := Drive(Now(LeftByDryRun(w, ctx), Running(ctx, DryMerge, cp)), plan, run);
      var second := Drive(Now(Fresh(w, ctx), Running(ctx, DryMerge, cp)), plan, run);
      && first == Now(Fresh(w, ctx), Returned(Result(false, 3, Conflict, None)))
      && second.local.Returned? && (second.local.result.success <==> Passes(run))
  {
    ClearsTheMerge(LeftByDryRun(w, ctx), ctx, PreCheckpoint(w, ctx), plan, run);
    FreeAttempt(Fresh(w, ctx), ctx, PreCheckpoint(w, ctx), plan, run);
  }

  /** An attempt killed inside the dry run: the next resumption at step 3 cannot succeed, the merge being still in
      progress; with its commands succeeding it reports a conflict, and the resumption after that publishes when
      the tests pass. */
  lemma KilledInDryRun(w: World, ctx: Context, plan: Pc -> Fate, run: TestRun, again: Pc -> Fate, rerun: TestRun)
    requires w.origin < |w.commits| && !w.unmerged && !Reaches(w.commits, ctx.tip, w.origin)
    requires WellUpTo(plan, DryMerge) && plan(DryAbort) == Killed
    ensures
      var left := Drive(Now(w, Begin(ctx)), plan, run);
      var cp := PreCheckpoint(w, ctx);
      && left.local == Dead && left.world.disk == Some(cp) && Recover(left.world, cp) == Resume(3)
      && (var end := Drive(Now(left.world, Running(ctx, DryMerge, cp)), again, rerun);
          end.world.origin == w.origin && (end.local.Returned? ==> !end.local.result.success))
      && (WellUpTo(again, Unlink) ==>
            var first := Drive(Now(left.world, Running(ctx, DryMerge, cp)), again, rerun);
            var second := Drive(Now(first.world, Running(ctx, DryMerge, cp)), again, rerun);
            && first == Now(Fresh(w, ctx), Returned(Result(false, 3, Conflict, None)))
            && Restarted(first.world, ctx.tip) == Some(Running(ctx, DryMerge, cp))
            && second.local.Returned? && (second.local.result.success <==> Passes(rerun)))
  {
    StopsInDryRun(w, ctx, plan, run);
    StuckAtStepThree(LeftByDryRun(w, ctx), ctx, PreCheckpoint(w, ctx), again, rerun);
    if WellUpTo(again, Unlink) { ResumedTwice(w, ctx, again, rerun); }
  }

  // ------------------------------------------------------------------ an unmerged index

  /** An unmerged index stops every new attempt at the checkout, whatever its commands meet: nothing moves but
      the checkpoint, which then says `fetched`. */
  lemma UnmergedStopsAttempts(w: World, ctx: Context, plan: Pc -> Fate, run: TestRun)
    requires w.unmerged
    ensures
      var end := Drive(Now(w, Begin(ctx)), plan, run);
      && end.world == w.(disk := end.world.disk) && end.world.disk in {w.disk, Some(Begin(ctx).cp)}
      && end.local in {Dead, Caught(Begin(ctx).cp)}
      && (WellUpTo(plan, Unlink) ==> end == Now(w.(disk := Some(Begin(ctx).cp)), Caught(Begin(ctx).cp)))
  {
    var cp := Begin(ctx).cp;
    Step(w, ctx, FetchOrigin, cp, plan, run);
    Step(w, ctx, WriteFetched, cp, plan, run);
    Step(w.(disk := Some(cp)), ctx, Checkout, cp, plan, run);
  }

  /** An unmerged index with no checkpoint, or one that sends recovery to the checkout. */
  predicate Blocked(n: Now) {
    && n.world.unmerged && (n.world.disk.Some? ==> n.world.disk.value.state in {Fetched, Closed})
    && !(n.local.Returned? && n.local.result.success)
    && (n.local.Running? ==> n.local.cp.state == Fetched && n.local.pc in {FetchOrigin, WriteFetched, Checkout})
  }

  lemma BlockedStays(n: Now, e: Event)
    requires Blocked(n)
    ensures Blocked(Happen(n, e))
    ensures Happen(n, e).world.main == n.world.main && Happen(n, e).world.origin == n.world.origin
  {
  }

  /** From there no attempt, restart or recovery, in any number, ever moves main or origin/main or succeeds:
      somebody has to abort the merge by hand. */
  lemma {:induction false} BlockedForGood(n: Now, events: seq<Event>)
    requires Blocked(n)
    ensures
      var end := Run(n, events);
      && Blocked(end) && end.world.main == n.world.main && end.world.origin == n.world.origin
      && !(end.local.Returned? && end.local.result.success)
  {
    if events != [] {
      BlockedForGood(n, events[..|events| - 1]);
      BlockedStays(Run(n, events[..|events| - 1]), events[|events| - 1]);
    }
  }

  /** It is reached by an attempt killed between a conflicting dry run and its abort, followed by a new attempt;
      a restart at step 3 instead, as recovery advises, reports the conflict and cleans up. */
  lemma KilledInConflict(w: World, ctx: Context, plan: Pc -> Fate, run: TestRun, again: Pc -> Fate, rerun: TestRun)
    requires !w.unmerged && !Reaches(w.commits, ctx.tip, w.origin) && WellUpTo(again, Unlink)
    requires WellUpTo(plan, WriteReset) && plan(DryMerge) == Conflicts && plan(ConflictAbort) == Killed
    ensures
      var left := Drive(Now(w, Begin(ctx)), plan, run);
      var cp := PreCheckpoint(w, ctx);
      && left.local == Dead && left.world.disk == Some(cp) && Recover(left.world, cp) == Resume(3)
      && Blocked(Drive(Now(left.world, Begin(ctx)), again, rerun))
      && Drive(Now(left.world, Running(ctx, DryMerge, cp)), again, rerun)
         == Now(Fresh(w, ctx), Returned(Result(false, 3, Conflict, None)))
  {
    Prepared(w, ctx, plan, run);
    var f, cp := Fresh(w, ctx), PreCheckpoint(w, ctx);
    Step(f, ctx, DryMerge, cp, plan, run);
    var left := f.(merging := true, unmerged := true);
    Step(left, ctx, ConflictAbort, cp, plan, run);
    UnmergedStopsAttempts(left, ctx, again, rerun);
    ClearsTheMerge(left, ctx, cp, again, rerun);
  }
}
