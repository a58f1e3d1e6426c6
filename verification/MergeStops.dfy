/** Stopping an attempt at each of its commands: what it leaves, what it answers, and what recovery makes of it. */
module MergeStops {
  import opened Text
  import opened Merging
  import opened MergeSafety
  import opened MergeAttempt
  import opened MergeOutcomes

  // ------------------------------------------------------------------ one stop at every command

  /** The command before `pc` in an attempt that goes well, or whose tests fail. */
  function Previous(pc: Pc): Pc
    requires pc != FetchOrigin && pc != ConflictAbort
  {
    match pc
    case WriteFetched => FetchOrigin case Checkout => WriteFetched case ResetToOrigin => Checkout
    case ReadPre => ResetToOrigin case WriteReset => ReadPre case DryMerge => WriteReset case DryAbort => DryMerge
    case DoMerge => DryAbort case ReadMerge => DoMerge case WriteMerged => ReadMerge case Test => WriteMerged
    case WriteTested => Test case RollBack => WriteTested case PushMain => WriteTested case WritePushed => PushMain
    case Close => WritePushed case WriteClosed => Close case Unlink => WriteClosed
  }

  /** The last phase an attempt has entered when it comes to `pc`. */
  function PhaseAt(pc: Pc): Phase {
    match pc
    case FetchOrigin => Fetched case WriteFetched => Fetched case Checkout => Fetched case ResetToOrigin => Fetched
    case ReadPre => Fetched
    case WriteReset => Reset case DryMerge => Reset case DryAbort => Reset case ConflictAbort => Reset
    case DoMerge => Reset case ReadMerge => Reset
    case WriteMerged => Merged case Test => Merged
    case WriteTested => Tested case RollBack => Tested case PushMain => Tested
    case WritePushed => Pushed case Close => Pushed
    case WriteClosed => Closed case Unlink => Closed
  }

  /** The checkpoint of a phase: what it records is the sha before the merge, the merge and the tests, as far as
      the attempt has come. */
  function CheckpointOf(w: World, ctx: Context, phase: Phase, run: TestRun): Checkpoint {
    var pre, m, test := Some(w.origin), Some(|w.commits|), Some(RunTests(run));
    match phase
    case Fetched => Checkpoint(ctx.issue, 1, Fetched, None, None, None)
    case Reset => Checkpoint(ctx.issue, 2, Reset, pre, None, None)
    case Merged => Checkpoint(ctx.issue, 4, Merged, pre, m, None)
    case Tested => Checkpoint(ctx.issue, 5, Tested, pre, m, test)
    case Pushed => Checkpoint(ctx.issue, 6, Pushed, pre, m, test)
    case Closed => Checkpoint(ctx.issue, 7, Closed, pre, m, test)
  }

  /** Main taken back to origin/main, the merge made on top of it, and that merge pushed; each with the checkpoint
      of a phase on disk. */
  function ResetWorld(w: World, ctx: Context, phase: Phase, run: TestRun): World {
    w.(main := w.origin, merging := false, unmerged := false, disk := Some(CheckpointOf(w, ctx, phase, run)))
  }

  function MergedWorld(w: World, ctx: Context, phase: Phase, run: TestRun): World {
    w.(commits := w.commits + [Commit([w.origin, ctx.tip])], main := |w.commits|, merging := false, unmerged := false,
       disk := Some(CheckpointOf(w, ctx, phase, run)))
  }

  function PushedWorld(w: World, ctx: Context, phase: Phase, run: TestRun): World {
    MergedWorld(w, ctx, phase, run).(origin := |w.commits|,
      advances := w.advances + [Advance(w.origin, |w.commits|, Some(CheckpointOf(w, ctx, Tested, run)))])
  }

  /** The world an attempt on an unpublished branch has made when it comes to `pc`. */
  function WorldAt(w: World, ctx: Context, pc: Pc, run: TestRun): World {
    match pc
    case FetchOrigin => w
    case WriteFetched => w
    case Checkout => w.(disk := Some(CheckpointOf(w, ctx, Fetched, run)))
    case ResetToOrigin => w.(disk := Some(CheckpointOf(w, ctx, Fetched, run)))
    case ReadPre => ResetWorld(w, ctx, Fetched, run)
    case WriteReset => ResetWorld(w, ctx, Fetched, run)
    case DryMerge => ResetWorld(w, ctx, Reset, run)
    case DryAbort => ResetWorld(w, ctx, Reset, run).(merging := true)
    case ConflictAbort => ResetWorld(w, ctx, Reset, run)
    case DoMerge => ResetWorld(w, ctx, Reset, run)
    case ReadMerge => MergedWorld(w, ctx, Reset, run)
    case WriteMerged => MergedWorld(w, ctx, Reset, run)
    case Test => MergedWorld(w, ctx, Merged, run)
    case WriteTested => MergedWorld(w, ctx, Merged, run)
    case RollBack => MergedWorld(w, ctx, Tested, run)
    case PushMain => MergedWorld(w, ctx, Tested, run)
    case WritePushed => PushedWorld(w, ctx, Tested, run)
    case Close => PushedWorld(w, ctx, Pushed, run)
    case WriteClosed => PushedWorld(w, ctx, Pushed, run)
    case Unlink => PushedWorld(w, ctx, Closed, run)
  }

  function LocalAt(w: World, ctx: Context, pc: Pc, run: TestRun): Local {
    Running(ctx, pc, CheckpointOf(w, ctx, PhaseAt(pc), run))
  }

  /** On a branch that origin/main lacks, over an index that is not unmerged; past the tests only if they pass,
      and to the roll back only if they do not. */
  predicate OnTheWay(w: World, ctx: Context, pc: Pc, run: TestRun) {
    && w.origin < |w.commits| && !w.unmerged && !Reaches(w.commits, ctx.tip, w.origin) && pc != ConflictAbort
    && (pc == RollBack ==> !Passes(run)) && (Rank(pc) > Rank(RollBack) ==> Passes(run))
  }

  /** The command before `pc`, succeeding, leads there. */
  predicate Leads(w: World, ctx: Context, pc: Pc, run: TestRun)
    requires pc != FetchOrigin && pc != ConflictAbort
  {
    var p := Previous(pc);
    Exec(WorldAt(w, ctx, p, run), ctx, p, CheckpointOf(w, ctx, PhaseAt(p), run), Succeeds, run)
    == Now(WorldAt(w, ctx, pc, run), LocalAt(w, ctx, pc, run))
  }

  lemma EarlyCommand(w: World, ctx: Context, pc: Pc, run: TestRun)
    requires OnTheWay(w, ctx, pc, run) && 0 < Rank(pc) <= Rank(DoMerge)
    ensures Leads(w, ctx, pc, run)
  {
  }

  lemma MiddleCommand(w: World, ctx: Context, pc: Pc, run: TestRun)
    requires OnTheWay(w, ctx, pc, run) && Rank(DoMerge) < Rank(pc) <= Rank(PushMain)
    ensures Leads(w, ctx, pc, run)
  {
    match pc
    case ReadMerge => case WriteMerged => case Test => case WriteTested => case RollBack => case PushMain =>
  }

  lemma PushCommand(w: World, ctx: Context, run: TestRun)
    requires OnTheWay(w, ctx, WritePushed, run)
    ensures Leads(w, ctx, WritePushed, run)
  {
    JoinedContains(w.(main := w.origin), ctx);
  }

  lemma LateCommand(w: World, ctx: Context, pc: Pc, run: TestRun)
    requires OnTheWay(w, ctx, pc, run) && Rank(WritePushed) < Rank(pc)
    ensures Leads(w, ctx, pc, run)
  {
    match pc
    case Close => case WriteClosed => case Unlink =>
  }

  lemma EveryCommand(w: World, ctx: Context, pc: Pc, run: TestRun)
    requires OnTheWay(w, ctx, pc, run) && pc != FetchOrigin
    ensures Leads(w, ctx, pc, run)
  {
    if Rank(pc) <= Rank(DoMerge) { EarlyCommand(w, ctx, pc, run); }
    else if Rank(pc) <= Rank(PushMain) { MiddleCommand(w, ctx, pc, run); }
    else if pc == WritePushed { PushCommand(w, ctx, run); }
    else { LateCommand(w, ctx, pc, run); }
  }

  predicate WellBefore(plan: Pc -> Fate, pc: Pc) {
    forall q: Pc :: Rank(q) < Rank(pc) && q != ConflictAbort && q != RollBack ==> plan(q) == Succeeds
  }

  /** An attempt whose commands before `pc` succeed comes to `pc`. */
  lemma {:induction false} Arrives(w: World, ctx: Context, pc: Pc, plan: Pc -> Fate, run: TestRun)
    requires OnTheWay(w, ctx, pc, run) && WellBefore(plan, pc)
    ensures
      Drive(Now(w, Begin(ctx)), plan, run)
      == Drive(Now(WorldAt(w, ctx, pc, run), LocalAt(w, ctx, pc, run)), plan, run)
    decreases Rank(pc)
  {
    if pc != FetchOrigin {
      var p := Previous(pc);
      Arrives(w, ctx, p, plan, run);
      Step(WorldAt(w, ctx, p, run), ctx, p, CheckpointOf(w, ctx, PhaseAt(p), run), plan, run);
      EveryCommand(w, ctx, pc, run);
    }
  }

  /** Killed at any command, an attempt leaves exactly what the commands before it made. */
  lemma KilledAnywhere(w: World, ctx: Context, pc: Pc, plan: Pc -> Fate, run: TestRun)
    requires OnTheWay(w, ctx, pc, run) && WellBefore(plan, pc) && plan(pc) == Killed
    ensures Drive(Now(w, Begin(ctx)), plan, run) == Now(WorldAt(w, ctx, pc, run), Dead)
  {
    Arrives(w, ctx, pc, plan, run);
    Step(WorldAt(w, ctx, pc, run), ctx, pc, CheckpointOf(w, ctx, PhaseAt(pc), run), plan, run);
    KillLeaves(WorldAt(w, ctx, pc, run), ctx, pc, CheckpointOf(w, ctx, PhaseAt(pc), run), run);
  }

  lemma KillLeaves(v: World, ctx: Context, pc: Pc, cp: Checkpoint, run: TestRun)
    ensures Exec(v, ctx, pc, cp, Killed, run) == Now(v, Dead)
  {
  }

  /** A command that fails, outside the dry run and the tests, which catch their own failures, makes the attempt
      answer the phase it had entered, with its step and, once there is one, the merge; nothing more is done. */
  lemma FailsAnywhere(w: World, ctx: Context, pc: Pc, plan: Pc -> Fate, run: TestRun)
    requires OnTheWay(w, ctx, pc, run) && WellBefore(plan, pc) && plan(pc) == Fails
    requires pc !in {DryMerge, DryAbort, Test}
    ensures
      var cp := CheckpointOf(w, ctx, PhaseAt(pc), run);
      Drive(Now(w, Begin(ctx)), plan, run)
      == Now(WorldAt(w, ctx, pc, run), Returned(Result(false, cp.step, At(cp.state), cp.merge)))
  {
    Arrives(w, ctx, pc, plan, run);
    Step(WorldAt(w, ctx, pc, run), ctx, pc, CheckpointOf(w, ctx, PhaseAt(pc), run), plan, run);
    FailureLeaves(WorldAt(w, ctx, pc, run), ctx, pc, CheckpointOf(w, ctx, PhaseAt(pc), run), run);
  }

  lemma FailureLeaves(v: World, ctx: Context, pc: Pc, cp: Checkpoint, run: TestRun)
    requires pc !in {DryMerge, DryAbort, Test}
    ensures Exec(v, ctx, pc, cp, Fails, run) == Now(v, Returned(Result(false, cp.step, At(cp.state), cp.merge)))
  {
  }

  // ------------------------------------------------------------------ a kill, then a restart

  /** A checkpoint short of the last on disk, linked to main and origin/main. */
  predicate LeftLinked(left: World) {
    && left.disk.Some? && Linked(left, left.disk.value, false) && left.disk.value.state != Closed
    && left.main < |left.commits| && left.origin < |left.commits|
  }

  lemma EarlyIsLinked(w: World, ctx: Context, pc: Pc, run: TestRun)
    requires OnTheWay(w, ctx, pc, run) && Rank(Checkout) <= Rank(pc) <= Rank(DoMerge) && w.main < |w.commits|
    ensures LeftLinked(WorldAt(w, ctx, pc, run))
  {
  }

  lemma MergedIsOver(w: World, ctx: Context)
    requires w.origin < |w.commits| && ctx.tip < |w.commits| && !Reaches(w.commits, ctx.tip, w.origin)
    ensures Over(w.commits + [Commit([w.origin, ctx.tip])], |w.commits|, w.origin, false)
  {
    MergesOver(w.commits, w.origin, w.origin, ctx.tip);
  }

  lemma MergedIsLinked(w: World, ctx: Context, phase: Phase, run: TestRun)
    requires phase in {Reset, Merged, Tested} && w.origin < |w.commits| && ctx.tip < |w.commits|
    requires !Reaches(w.commits, ctx.tip, w.origin)
    ensures LeftLinked(MergedWorld(w, ctx, phase, run))
  {
    MergedIsOver(w, ctx);
  }

  lemma PushedIsLinked(w: World, ctx: Context, phase: Phase, run: TestRun)
    requires phase in {Tested, Pushed} && Passes(run) && w.origin < |w.commits| && ctx.tip < |w.commits|
    requires !Reaches(w.commits, ctx.tip, w.origin)
    ensures LeftLinked(PushedWorld(w, ctx, phase, run))
  {
    MergedIsOver(w, ctx);
  }

  /** What an attempt leaves is linked to the checkpoint it leaves. */
  lemma LeftIsLinked(w: World, ctx: Context, pc: Pc, run: TestRun)
    requires OnTheWay(w, ctx, pc, run) && Rank(Checkout) <= Rank(pc) < Rank(Unlink)
    requires ctx.tip < |w.commits| && w.main < |w.commits|
    ensures LeftLinked(WorldAt(w, ctx, pc, run))
  {
    match pc
    case ReadMerge => MergedIsLinked(w, ctx, Reset, run);
    case WriteMerged => MergedIsLinked(w, ctx, Reset, run);
    case Test => MergedIsLinked(w, ctx, Merged, run);
    case WriteTested => MergedIsLinked(w, ctx, Merged, run);
    case RollBack => MergedIsLinked(w, ctx, Tested, run);
    case PushMain => MergedIsLinked(w, ctx, Tested, run);
    case WritePushed => PushedIsLinked(w, ctx, Tested, run);
    case Close => PushedIsLinked(w, ctx, Pushed, run);
    case WriteClosed => PushedIsLinked(w, ctx, Pushed, run);
    case _ => EarlyIsLinked(w, ctx, pc, run);
  }

  /** The commands at which a kill costs the restart its success. */
  predicate Costly(pc: Pc) { pc in {DryAbort, ReadMerge, WriteMerged, RollBack} }

  /** What the restart of a left world comes to. */
  predicate Restarts(left: World, tip: Sha, rerun: TestRun, publishes: bool, m: Sha) {
    && left.disk.Some? && (RestartPublishes(left, left.disk.value, tip, rerun) <==> publishes)
    && (publishes ==> RestartMerge(left, left.disk.value) == m)
  }

  lemma EarlyRestart(w: World, ctx: Context, pc: Pc, run: TestRun, rerun: TestRun)
    requires OnTheWay(w, ctx, pc, run) && Rank(Checkout) <= Rank(pc) <= Rank(DoMerge)
    ensures Restarts(WorldAt(w, ctx, pc, run), ctx.tip, rerun, pc != DryAbort && Passes(rerun), |w.commits|)
  {
  }

  lemma MergedRestart(w: World, ctx: Context, phase: Phase, run: TestRun, rerun: TestRun)
    requires phase in {Reset, Merged, Tested} && w.origin < |w.commits| && ctx.tip < |w.commits|
    requires !Reaches(w.commits, ctx.tip, w.origin)
    ensures
      var publishes := if phase == Reset then false else if phase == Merged then Passes(rerun) else Passes(run);
      Restarts(MergedWorld(w, ctx, phase, run), ctx.tip, rerun, publishes, |w.commits|)
  {
    MergedIsOver(w, ctx);
    ContainsBranch(w.commits + [Commit([w.origin, ctx.tip])], |w.commits|, w.origin, false);
  }

  lemma PushedRestart(w: World, ctx: Context, phase: Phase, run: TestRun, rerun: TestRun)
    requires phase in {Tested, Pushed} && Passes(run)
    ensures Restarts(PushedWorld(w, ctx, phase, run), ctx.tip, rerun, true, |w.commits|)
  {
  }

  lemma RestartFromLeft(w: World, ctx: Context, pc: Pc, run: TestRun, rerun: TestRun)
    requires OnTheWay(w, ctx, pc, run) && Rank(Checkout) <= Rank(pc) < Rank(Unlink) && ctx.tip < |w.commits|
    ensures Restarts(WorldAt(w, ctx, pc, run), ctx.tip, rerun,
                     !Costly(pc) && (Rank(pc) <= Rank(WriteTested) ==> Passes(rerun)), |w.commits|)
  {
    match pc
    case ReadMerge => MergedRestart(w, ctx, Reset, run, rerun);
    case WriteMerged => MergedRestart(w, ctx, Reset, run, rerun);
    case Test => MergedRestart(w, ctx, Merged, run, rerun);
    case WriteTested => MergedRestart(w, ctx, Merged, run, rerun);
    case RollBack => MergedRestart(w, ctx, Tested, run, rerun);
    case PushMain => MergedRestart(w, ctx, Tested, run, rerun);
    case WritePushed => PushedRestart(w, ctx, Tested, run, rerun);
    case Close => PushedRestart(w, ctx, Pushed, run, rerun);
    case WriteClosed => PushedRestart(w, ctx, Pushed, run, rerun);
    case _ => EarlyRestart(w, ctx, pc, run, rerun);
  }

  /** A killed attempt restarted as recovery advises, the branch still there and its commands succeeding, publishes
      wherever it was killed, if the tests it repeats pass; except inside the dry run, between `git merge` and its
      checkpoint, and at the roll back of failed tests. */
  lemma KilledThenRestarted(w: World, ctx: Context, pc: Pc, plan: Pc -> Fate, run: TestRun,
                            again: Pc -> Fate, rerun: TestRun)
    requires OnTheWay(w, ctx, pc, run) && ctx.tip < |w.commits| && Rank(Checkout) <= Rank(pc) < Rank(Unlink)
    requires w.main < |w.commits| && WellBefore(plan, pc) && plan(pc) == Killed && WellUpTo(again, Unlink)
    ensures
      var left := Drive(Now(w, Begin(ctx)), plan, run).world;
      && Restarted(left, ctx.tip).Some?
      && var end := Drive(Now(left, Restarted(left, ctx.tip).value), again, rerun);
         Ends(end, !Costly(pc) && (Rank(pc) <= Rank(WriteTested) ==> Passes(rerun)), |w.commits|, left.origin)
  {
    KilledAnywhere(w, ctx, pc, plan, run);
    LeftIsLinked(w, ctx, pc, run);
    RestartFromLeft(w, ctx, pc, run, rerun);
    var left := WorldAt(w, ctx, pc, run);
    ResumeExactly(left, left.disk.value, ctx.tip, again, rerun);
  }

  // ------------------------------------------------------------------ recovery's advice and its one write

  /** The recorded merge is on local main. */
  predicate OnMain(w: World, cp: Checkpoint) { cp.merge.Some? && Reaches(w.commits, cp.merge.value, w.main) }

  predicate TestsPassed(cp: Checkpoint) { cp.test.Some? && cp.test.value.failed == 0 }

  /** The advice for every checkpoint, whoever wrote it: abort exactly when the recorded merge is missing, from main
      after the merge or from origin/main after the push; roll back exactly on tests not known to have passed. */
  lemma AdviceExactly(w: World, cp: Checkpoint)
    ensures Recover(w, cp) == Resume(2) <==> cp.state == Fetched
    ensures Recover(w, cp) == Resume(3) <==> cp.state == Reset
    ensures Recover(w, cp) == Resume(5) <==> cp.state == Merged && OnMain(w, cp)
    ensures Recover(w, cp) == Resume(6) <==> cp.state == Tested && TestsPassed(cp)
    ensures Recover(w, cp) == Resume(7) <==> cp.state == Pushed && cp.merge == Some(w.origin)
    ensures Recover(w, cp) == RollBackAdvice <==> cp.state == Tested && !TestsPassed(cp)
    ensures Recover(w, cp) == Complete <==> cp.state == Closed
    ensures Recover(w, cp) == Abort <==>
      (cp.state == Merged && !OnMain(w, cp)) || (cp.state == Pushed && cp.merge != Some(w.origin))
  {
  }

  /** With no attempt running, recovery removes a closed checkpoint, leaves any other and writes nothing else. */
  lemma RecoveryExactly(n: Now)
    ensures
      var after := Happen(n, Recovery);
      && after.local == n.local && after.world == n.world.(disk := after.world.disk)
      && (!n.local.Running? && n.world.disk.Some? && n.world.disk.value.state == Closed ==> after.world.disk.None?)
      && (n.local.Running? || n.world.disk.None? || n.world.disk.value.state != Closed ==>
            after.world.disk == n.world.disk)
  {
  }

  predicate SameButUnlink(plan: Pc -> Fate, cut: Pc -> Fate) { forall pc: Pc :: pc != Unlink ==> plan(pc) == cut(pc) }

  /** A process killed before the last unlink, then recovered, leaves exactly the world of the same attempt
      uninterrupted; an attempt that does not get so far is not affected. */
  lemma {:induction false} UnlinkIsRecovered(n: Now, plan: Pc -> Fate, cut: Pc -> Fate, run: TestRun, base: Sha)
    requires Inv(n, base, false) && (n.local.Running? || n.local == Dead)
    requires SameButUnlink(plan, cut) && plan(Unlink) == Succeeds && cut(Unlink) == Killed
    ensures
      var whole, killed := Drive(n, plan, run), Drive(n, cut, run);
      && Happen(killed, Recovery).world == Happen(whole, Recovery).world
      && (whole.local.Returned? && whole.local.result.success ==>
            killed.local == Dead && Happen(killed, Recovery).world == whole.world)
    decreases if n.local.Running? then 20 - Rank(n.local.pc) else 0
  {
    if n.local.Running? {
      var pc := n.local.pc;
      DriveOn(n, plan, run);
      DriveOn(n, cut, run);
      if pc == Unlink {
        UnlinkOrNot(n, run, base);
      } else {
        var next := Happen(n, Command(plan(pc), run));
        EventKeepsInv(n, Command(plan(pc), run), base, false);
        if next.local.Returned? {
          OthersDoNotSucceed(n, plan(pc), run);
        } else {
          UnlinkIsRecovered(next, plan, cut, run, base);
        }
      }
    }
  }

  lemma UnlinkOrNot(n: Now, run: TestRun, base: Sha)
    requires Inv(n, base, false) && n.local.Running? && n.local.pc == Unlink
    ensures
      var done, killed := Happen(n, Command(Succeeds, run)), Happen(n, Command(Killed, run));
      && done.local.Returned? && killed.local == Dead
      && Happen(killed, Recovery).world == done.world == Happen(done, Recovery).world
  {
  }

  lemma OthersDoNotSucceed(n: Now, f: Fate, run: TestRun)
    requires n.local.Running? && n.local.pc != Unlink
    ensures var next := Happen(n, Command(f, run)).local; next.Returned? ==> !next.result.success
  {
  }
}
