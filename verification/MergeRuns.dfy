/** What the merge protocol's invariant gives: the history of origin/main, what a return value means,
    and what recovery may rely on. */
module MergeRuns {
  import opened Text
  import opened Merging
  import opened MergeSafety

  // ------------------------------------------------------------------ the history of origin/main

  /** The branch tip an advance brought in. */
  function BroughtIn(commits: seq<Commit>, a: Advance): Sha
    requires Over(commits, a.to, a.from, false)
  {
    commits[a.to].parents[1]
  }

  lemma {:induction false} AdvancesClimb(commits: seq<Commit>, base: Sha, advances: seq<Advance>, i: nat, j: nat)
    requires AllJustified(commits, advances, false) && Chained(base, advances) && i <= j < |advances|
    ensures Reaches(commits, advances[i].to, advances[j].to)
    decreases j
  {
    if i < j {
      AdvancesClimb(commits, base, advances, i, j - 1);
      assert StartsWhereLastEnded(base, advances, j);
      assert Justified(commits, advances[j], false);
      ReachesOn(commits, advances[i].to, advances[j].from, advances[j].to);
    }
  }

  /** The merge the checkpoint recorded, over the recorded sha, with no failed test. */
  predicate RecordsTestedMerge(a: Advance) {
    && a.recorded.Some?
    && var cp := a.recorded.value;
       cp.pre == Some(a.from) && cp.merge == Some(a.to) && cp.test.Some? && cp.test.value.failed == 0
  }

  /** Over any run, stopped and restarted as recovery advises any number of times, origin/main is where the last
      advance put it, each advance started where the one before ended, and each put there the merge recorded on
      disk, over the recorded sha, with no failed test. */
  lemma OriginHistory(commits: seq<Commit>, head: Sha, events: seq<Event>)
    requires head < |commits|
    ensures
      var w := Run(Initial(commits, head), events).world;
      && w.origin == Tip(head, w.advances) && Chained(head, w.advances)
      && (forall k :: 0 <= k < |w.advances| ==> RecordsTestedMerge(w.advances[k]))
  {
    InvOverRuns(commits, head, events, false);
    var w := Run(Initial(commits, head), events).world;
    forall k | 0 <= k < |w.advances| ensures RecordsTestedMerge(w.advances[k]) {
      assert Justified(w.commits, w.advances[k], false);
    }
  }

  /** Over any run each advance of origin/main is a tested merge containing the one before, made directly on top
      of it where nothing was restarted; an advance contains its branch from then on, and no later one brings in
      anything already contained: a branch is published once. */
  lemma BranchesArePublishedOnce(commits: seq<Commit>, head: Sha, events: seq<Event>, straight: bool, i: nat, j: nat)
    requires head < |commits| && i < j < |Run(Initial(commits, head), events).world.advances|
    requires straight ==> NoRestart(events)
    ensures
      var w := Run(Initial(commits, head), events).world;
      && Justified(w.commits, w.advances[i], straight) && Justified(w.commits, w.advances[j], straight)
      && Reaches(w.commits, BroughtIn(w.commits, w.advances[i]), w.advances[j].from)
      && !Reaches(w.commits, BroughtIn(w.commits, w.advances[j]), w.advances[i].to)
      && BroughtIn(w.commits, w.advances[i]) != BroughtIn(w.commits, w.advances[j])
  {
    InvOverRuns(commits, head, events, straight);
    var w := Run(Initial(commits, head), events).world;
    assert Justified(w.commits, w.advances[i], straight) && Justified(w.commits, w.advances[j], straight);
    LaterBringsNew(w, head, straight, i, j);
  }

  lemma LaterBringsNew(w: World, base: Sha, straight: bool, i: nat, j: nat)
    requires AllJustified(w.commits, w.advances, straight) && Chained(base, w.advances) && i < j < |w.advances|
    ensures Justified(w.commits, w.advances[i], false) && Justified(w.commits, w.advances[j], false)
    ensures Reaches(w.commits, BroughtIn(w.commits, w.advances[i]), w.advances[j].from)
    ensures !Reaches(w.commits, BroughtIn(w.commits, w.advances[j]), w.advances[i].to)
    ensures BroughtIn(w.commits, w.advances[i]) != BroughtIn(w.commits, w.advances[j])
  {
    var a, b := w.advances[i], w.advances[j];
    forall k | 0 <= k < |w.advances| ensures Justified(w.commits, w.advances[k], false) {
      assert Justified(w.commits, w.advances[k], straight);
    }
    assert StartsWhereLastEnded(base, w.advances, j);
    assert b.from == w.advances[j - 1].to;
    AdvancesClimb(w.commits, base, w.advances, i, j - 1);
    ContainsBranch(w.commits, a.to, a.from, false);
    ReachesOn(w.commits, BroughtIn(w.commits, a), a.to, b.from);
    if Reaches(w.commits, BroughtIn(w.commits, b), a.to) {
      ReachesOn(w.commits, BroughtIn(w.commits, b), a.to, b.from);
    }
  }

  // ------------------------------------------------------------------ what a return value means

  /** A success is published and leaves no checkpoint; a test failure leaves main and origin/main at the recorded
      commit before the merge; a conflict leaves no merge begun and origin/main at the recorded commit, where
      main is too when nothing was restarted. */
  predicate Honest(w: World, r: Result, straight: bool) {
    && (r.success ==>
          && r.state == At(Closed) && r.merge.Some? && w.disk.None? && w.main == w.origin == r.merge.value
          && w.advances != [] && w.advances[|w.advances| - 1].to == r.merge.value)
    && (r.state == TestFailed ==>
          && !r.success && w.disk.Some? && w.disk.value.pre == Some(w.main) && w.main == w.origin
          && w.disk.value.merge == r.merge && r.merge.Some? && r.merge.value != w.main && !Passed(w.disk.value))
    && (r.state == Conflict ==>
          && !r.success && !w.merging && !w.unmerged && w.disk.Some? && w.disk.value.pre == Some(w.origin)
          && (straight ==> w.main == w.origin))
  }

  lemma ReturnsAreHonest(commits: seq<Commit>, head: Sha, events: seq<Event>, straight: bool, f: Fate, run: TestRun)
    requires head < |commits| && Run(Initial(commits, head), events).local.Running?
    requires straight ==> NoRestart(events)
    ensures
      var n := Happen(Run(Initial(commits, head), events), Command(f, run));
      n.local.Returned? ==> Honest(n.world, n.local.result, straight)
  {
    InvOverRuns(commits, head, events, straight);
    ReturnIsHonest(Run(Initial(commits, head), events), f, run, head, straight);
  }

  lemma ReturnIsHonest(n: Now, f: Fate, run: TestRun, base: Sha, straight: bool)
    requires Inv(n, base, straight) && n.local.Running?
    ensures
      var after := Happen(n, Command(f, run));
      after.local.Returned? ==> Honest(after.world, after.local.result, straight)
  {
    match n.local.pc
    case ConflictAbort => ConflictIsHonest(n.world, n.local.ctx, n.local.cp, f, run, base, straight);
    case RollBack => RollBackIsHonest(n.world, n.local.ctx, n.local.cp, f, run, base, straight);
    case Unlink => SuccessIsHonest(n.world, n.local.ctx, n.local.cp, f, run, straight);
    case _ => OthersOnlyThrow(n, f, run);
  }

  lemma ConflictIsHonest(w: World, ctx: Context, cp: Checkpoint, f: Fate, run: TestRun, base: Sha, straight: bool)
    requires Ready(w, ctx, ConflictAbort, cp, straight) && Steady(w, base, straight)
    ensures
      var after := Exec(w, ctx, ConflictAbort, cp, f, run);
      after.local.Returned? ==> Honest(after.world, after.local.result, straight)
  {
    assert Linked(w, cp, straight);
  }

  lemma RollBackIsHonest(w: World, ctx: Context, cp: Checkpoint, f: Fate, run: TestRun, base: Sha, straight: bool)
    requires Ready(w, ctx, RollBack, cp, straight) && Steady(w, base, straight)
    ensures
      var after := Exec(w, ctx, RollBack, cp, f, run);
      after.local.Returned? ==> Honest(after.world, after.local.result, straight)
  {
    assert Linked(w, cp, straight);
  }

  lemma SuccessIsHonest(w: World, ctx: Context, cp: Checkpoint, f: Fate, run: TestRun, straight: bool)
    requires Ready(w, ctx, Unlink, cp, straight) && Linked(w, cp, straight)
    ensures
      var after := Exec(w, ctx, Unlink, cp, f, run);
      after.local.Returned? ==> Honest(after.world, after.local.result, straight)
  {
  }

  /** Any other command that returns does so through the outer catch. */
  lemma OthersOnlyThrow(n: Now, f: Fate, run: TestRun)
    requires n.local.Running? && n.local.pc !in {ConflictAbort, RollBack, Unlink}
    ensures
      var after := Happen(n, Command(f, run));
      after.local.Returned? ==> !after.local.result.success && after.local.result.state == At(n.local.cp.state)
  {
  }

  // ------------------------------------------------------------------ recovery

  /** What the commands from step `step` on rely on. */
  predicate MayResume(w: World, cp: Checkpoint, step: nat, straight: bool) {
    match step
    case 2 => Blank(cp)
    case 3 => HasPre(w, cp) && Reaches(w.commits, w.origin, w.main)
    case 5 => HasMerge(w, cp, straight) && cp.test.None? && w.main == cp.merge.value && w.origin == cp.pre.value
    case 6 =>
      && HasMerge(w, cp, straight) && Passed(cp) && w.main == cp.merge.value
      && w.origin in {cp.pre.value, cp.merge.value} && Reaches(w.commits, w.origin, w.main)
    case 7 => Published(w, cp, straight)
    case _ => false
  }

  /** Whatever checkpoint a run cut off and restarted anywhere leaves, recovery never advises an abort, resumes
      only where the recorded shas, main and origin/main agree, rolls back only unpublished merges whose tests
      failed, and calls complete only what is published. */
  lemma RecoveryIsSound(commits: seq<Commit>, head: Sha, events: seq<Event>, straight: bool)
    requires straight ==> NoRestart(events)
    requires head < |commits| && Run(Initial(commits, head), events).world.disk.Some?
    ensures
      var w := Run(Initial(commits, head), events).world;
      var cp := w.disk.value;
      match Recover(w, cp)
      case Resume(step) => MayResume(w, cp, step, straight)
      case RollBackAdvice =>
        HasMerge(w, cp, straight) && !Passed(cp) && w.origin == cp.pre.value && w.main in {cp.pre.value, cp.merge.value}
      case Abort => false
      case Complete => Published(w, cp, straight)
  {
    InvOverRuns(commits, head, events, straight);
  }
}
