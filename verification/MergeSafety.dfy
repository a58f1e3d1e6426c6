/** Safety of the merge protocol over every run, cut off anywhere. */
module MergeSafety {
  import opened Text
  import opened Merging

  // ------------------------------------------------------------------ ancestry

  /** New commits do not change what old ones reach. */
  lemma {:induction false} ReachesGrows(commits: seq<Commit>, c: Commit, a: Sha, b: Sha)
    requires b < |commits|
    ensures Reaches(commits + [c], a, b) <==> Reaches(commits, a, b)
    decreases b
  {
    var more := commits + [c];
    assert more[b] == commits[b];
    forall k | 0 <= k < |commits[b].parents| && commits[b].parents[k] < b
      ensures Reaches(more, a, commits[b].parents[k]) <==> Reaches(commits, a, commits[b].parents[k])
    {
      ReachesGrows(commits, c, a, commits[b].parents[k]);
    }
  }

  /** Reaching is transitive. */
  lemma {:induction false} ReachesOn(commits: seq<Commit>, a: Sha, b: Sha, c: Sha)
    requires Reaches(commits, a, b) && Reaches(commits, b, c)
    ensures Reaches(commits, a, c)
    decreases c
  {
    if b != c {
      var k :| 0 <= k < |commits[c].parents| && commits[c].parents[k] < c && Reaches(commits, b, commits[c].parents[k]);
      ReachesOn(commits, a, b, commits[c].parents[k]);
    }
  }

  /** Reaching goes back in the order of creation. */
  lemma ReachesBack(commits: seq<Commit>, a: Sha, b: Sha)
    requires Reaches(commits, a, b)
    ensures a <= b
    decreases b
  {
    if a != b {
      var k :| 0 <= k < |commits[b].parents| && commits[b].parents[k] < b && Reaches(commits, a, commits[b].parents[k]);
      ReachesBack(commits, a, commits[b].parents[k]);
    }
  }

  /** `m` is a merge that contains `p` and brings in a second parent that `p` did not contain; `straight`, it
      is made directly on top of `p`. */
  predicate Over(commits: seq<Commit>, m: Sha, p: Sha, straight: bool) {
    && m < |commits| && |commits[m].parents| == 2 && p < m && Reaches(commits, p, m)
    && commits[m].parents[1] < m && !Reaches(commits, commits[m].parents[1], p)
    && (straight ==> commits[m].parents[0] == p)
  }

  lemma ContainsBranch(commits: seq<Commit>, m: Sha, p: Sha, straight: bool)
    requires Over(commits, m, p, straight)
    ensures Reaches(commits, commits[m].parents[1], m)
  {
    assert Reaches(commits, commits[m].parents[1], commits[m].parents[1]);
  }

  /** Merging an uncontained branch into `b`, itself `p` or a merge over it, gives a merge over `p`. */
  lemma MergesOver(commits: seq<Commit>, p: Sha, b: Sha, tip: Sha)
    requires b < |commits| && p < |commits| && tip < |commits| && Reaches(commits, p, b) && !Reaches(commits, tip, b)
    ensures Over(commits + [Commit([b, tip])], |commits|, p, b == p)
  {
    var c := Commit([b, tip]);
    var more := commits + [c];
    var m := |commits|;
    ReachesBack(commits, p, b);
    ReachesGrows(commits, c, p, b);
    ReachesGrows(commits, c, tip, p);
    assert more[m] == c && Reaches(more, p, more[m].parents[0]);
    if Reaches(commits, tip, p) { ReachesOn(commits, tip, p, b); }
  }

  // ------------------------------------------------------------------ what a checkpoint on disk promises

  /** In what follows `straight` says that no attempt has been restarted from a checkpoint. */

  predicate Blank(cp: Checkpoint) { cp.pre.None? && cp.merge.None? && cp.test.None? }

  predicate HasPre(w: World, cp: Checkpoint) {
    cp.pre.Some? && cp.merge.None? && cp.test.None? && cp.pre.value == w.origin
  }

  predicate HasMerge(w: World, cp: Checkpoint, straight: bool) {
    cp.pre.Some? && cp.merge.Some? && Over(w.commits, cp.merge.value, cp.pre.value, straight)
  }

  predicate Passed(cp: Checkpoint) { cp.test.Some? && cp.test.value.failed == 0 }

  /** The recorded merge, tested, is what the last push put on origin/main. */
  predicate Published(w: World, cp: Checkpoint, straight: bool) {
    && HasMerge(w, cp, straight) && Passed(cp) && w.main == w.origin == cp.merge.value
    && w.advances != []
    && w.advances[|w.advances| - 1].from == cp.pre.value && w.advances[|w.advances| - 1].to == cp.merge.value
  }

  function StepOf(state: Phase): nat {
    match state case Fetched => 1 case Reset => 2 case Merged => 4 case Tested => 5 case Pushed => 6 case Closed => 7
  }

  predicate Fits(cp: Checkpoint, state: Phase) { cp.state == state && cp.step == StepOf(state) }

  /** The link between the checkpoint, local main and origin/main, by recorded state. */
  predicate Linked(w: World, cp: Checkpoint, straight: bool) {
    cp.step == StepOf(cp.state) &&
    match cp.state
    case Fetched => Blank(cp)
    case Reset => HasPre(w, cp) && (w.main == cp.pre.value || Over(w.commits, w.main, cp.pre.value, straight))
    case Merged => HasMerge(w, cp, straight) && cp.test.None? && w.main == cp.merge.value && w.origin == cp.pre.value
    case Tested =>
      && HasMerge(w, cp, straight) && cp.test.Some?
      && (if Passed(cp) then w.main == cp.merge.value && (w.origin == cp.pre.value || Published(w, cp, straight))
          else w.origin == cp.pre.value && w.main in {cp.pre.value, cp.merge.value})
    case Pushed => Published(w, cp, straight)
    case Closed => Published(w, cp, straight)
  }

  /** At step 3's commands. */
  predicate StepThree(w: World, cp: Checkpoint, straight: bool) {
    Fits(cp, Reset) && w.disk == Some(cp) && (straight ==> w.main == w.origin)
  }

  predicate OnDisk(w: World, state: Phase) { w.disk.Some? && w.disk.value.state == state }

  /** What holds before each command of a running attempt, beside the link. */
  predicate Ready(w: World, ctx: Context, pc: Pc, cp: Checkpoint, straight: bool) {
    ctx.tip < |w.commits| && cp.issue == ctx.issue &&
    match pc
    case FetchOrigin => Fits(cp, Fetched) && Blank(cp)
    case WriteFetched => Fits(cp, Fetched) && Blank(cp)
    case Checkout => Fits(cp, Fetched) && w.disk == Some(cp)
    case ResetToOrigin => Fits(cp, Fetched) && w.disk == Some(cp)
    case ReadPre => Fits(cp, Fetched) && w.disk == Some(cp) && w.main == w.origin
    case WriteReset => Fits(cp, Reset) && HasPre(w, cp) && w.main == w.origin && OnDisk(w, Fetched)
    case DryMerge => StepThree(w, cp, straight)
    case DryAbort => StepThree(w, cp, straight) && (w.merging ==> !Reaches(w.commits, ctx.tip, w.main))
    case ConflictAbort => StepThree(w, cp, straight)
    case DoMerge => StepThree(w, cp, straight) && !w.merging && !Reaches(w.commits, ctx.tip, w.main)
    case ReadMerge =>
      Fits(cp, Reset) && w.disk == Some(cp) && cp.pre.Some? && Over(w.commits, w.main, cp.pre.value, straight)
    case WriteMerged =>
      && Fits(cp, Merged) && HasMerge(w, cp, straight) && cp.test.None?
      && w.main == cp.merge.value && w.origin == cp.pre.value && OnDisk(w, Reset)
    case Test => Fits(cp, Merged) && w.disk == Some(cp)
    case WriteTested =>
      && Fits(cp, Tested) && HasMerge(w, cp, straight) && cp.test.Some?
      && w.main == cp.merge.value && w.origin == cp.pre.value && OnDisk(w, Merged)
    case RollBack => Fits(cp, Tested) && w.disk == Some(cp) && !Passed(cp)
    case PushMain => Fits(cp, Tested) && w.disk == Some(cp) && Passed(cp)
    case WritePushed => Fits(cp, Pushed) && Published(w, cp, straight) && OnDisk(w, Tested)
    case Close => Fits(cp, Pushed) && w.disk == Some(cp)
    case WriteClosed => Fits(cp, Closed) && Published(w, cp, straight) && OnDisk(w, Pushed)
    case Unlink => Fits(cp, Closed) && w.disk == Some(cp)
  }

  /** An advance of origin/main is a merge over the old origin, and the checkpoint on disk records that merge
      with no failed test. */
  predicate Justified(commits: seq<Commit>, a: Advance, straight: bool) {
    && Over(commits, a.to, a.from, straight)
    && a.recorded.Some? && a.recorded.value.state == Tested && Passed(a.recorded.value)
    && a.recorded.value.merge == Some(a.to) && a.recorded.value.pre == Some(a.from)
  }

  predicate AllJustified(commits: seq<Commit>, advances: seq<Advance>, straight: bool) {
    forall k :: 0 <= k < |advances| ==> Justified(commits, advances[k], straight)
  }

  /** Where the advances, end to end, take origin/main from `base`. */
  function Tip(base: Sha, advances: seq<Advance>): Sha { if advances == [] then base else advances[|advances| - 1].to }

  predicate StartsWhereLastEnded(base: Sha, advances: seq<Advance>, k: nat)
    requires k < |advances|
  {
    advances[k].from == Tip(base, advances[..k])
  }

  predicate Chained(base: Sha, advances: seq<Advance>) {
    forall k :: 0 <= k < |advances| ==> StartsWhereLastEnded(base, advances, k)
  }

  /** What holds of the world between any two commands. */
  predicate Steady(w: World, base: Sha, straight: bool) {
    && w.main < |w.commits| && w.origin < |w.commits|
    && (w.disk.Some? ==> Linked(w, w.disk.value, straight))
    && AllJustified(w.commits, w.advances, straight) && Chained(base, w.advances) && w.origin == Tip(base, w.advances)
  }

  predicate ReadyIfRunning(n: Now, straight: bool) {
    n.local.Running? ==> Ready(n.world, n.local.ctx, n.local.pc, n.local.cp, straight)
  }

  predicate Inv(n: Now, base: Sha, straight: bool) { Steady(n.world, base, straight) && ReadyIfRunning(n, straight) }

  // ------------------------------------------------------------------ every event keeps the invariant

  /** Commands up to the checkpoint of the reset. */
  predicate Early(pc: Pc) { pc in {FetchOrigin, WriteFetched, Checkout, ResetToOrigin, ReadPre, WriteReset} }

  predicate Dry(pc: Pc) { pc in {DryMerge, DryAbort, ConflictAbort} }

  predicate Middle(pc: Pc) { pc in {ReadMerge, WriteMerged, Test} }

  predicate Verdict(pc: Pc) { pc in {WriteTested, RollBack} }

  predicate Late(pc: Pc) { pc in {WritePushed, Close} }

  predicate Last(pc: Pc) { pc in {WriteClosed, Unlink} }

  lemma EarlyKeepsInv(n: Now, f: Fate, run: TestRun, base: Sha, straight: bool)
    requires Inv(n, base, straight) && n.local.Running? && Early(n.local.pc)
    ensures Inv(Happen(n, Command(f, run)), base, straight)
  {
  }

  lemma DryKeepsWorld(n: Now, f: Fate, run: TestRun, base: Sha, straight: bool)
    requires Inv(n, base, straight) && n.local.Running? && Dry(n.local.pc)
    ensures Steady(Happen(n, Command(f, run)).world, base, straight)
  {
    var w := Happen(n, Command(f, run)).world;
    assert w == n.world.(merging := w.merging, unmerged := w.unmerged);
  }

  lemma DryKeepsReady(w: World, ctx: Context, pc: Pc, cp: Checkpoint, f: Fate, run: TestRun, straight: bool)
    requires Ready(w, ctx, pc, cp, straight) && Dry(pc)
    ensures ReadyIfRunning(Exec(w, ctx, pc, cp, f, run), straight)
  {
    match pc
    case DryMerge =>
    case DryAbort =>
    case ConflictAbort =>
  }

  lemma DryKeepsInv(n: Now, f: Fate, run: TestRun, base: Sha, straight: bool)
    requires Inv(n, base, straight) && n.local.Running? && Dry(n.local.pc)
    ensures Inv(Happen(n, Command(f, run)), base, straight)
  {
    DryKeepsWorld(n, f, run, base, straight);
    DryKeepsReady(n.world, n.local.ctx, n.local.pc, n.local.cp, f, run, straight);
  }

  lemma MiddleKeepsWorld(n: Now, f: Fate, run: TestRun, base: Sha, straight: bool)
    requires Inv(n, base, straight) && n.local.Running? && Middle(n.local.pc)
    ensures Steady(Happen(n, Command(f, run)).world, base, straight)
  {
  }

  lemma MiddleKeepsReady(n: Now, f: Fate, run: TestRun, base: Sha, straight: bool)
    requires Inv(n, base, straight) && n.local.Running? && Middle(n.local.pc)
    ensures ReadyIfRunning(Happen(n, Command(f, run)), straight)
  {
  }

  lemma MiddleKeepsInv(n: Now, f: Fate, run: TestRun, base: Sha, straight: bool)
    requires Inv(n, base, straight) && n.local.Running? && Middle(n.local.pc)
    ensures Inv(Happen(n, Command(f, run)), base, straight)
  {
    MiddleKeepsWorld(n, f, run, base, straight);
    MiddleKeepsReady(n, f, run, base, straight);
  }

  lemma VerdictKeepsWorld(n: Now, f: Fate, run: TestRun, base: Sha, straight: bool)
    requires Inv(n, base, straight) && n.local.Running? && Verdict(n.local.pc)
    ensures Steady(Happen(n, Command(f, run)).world, base, straight)
  {
  }

  lemma VerdictKeepsReady(n: Now, f: Fate, run: TestRun, base: Sha, straight: bool)
    requires Inv(n, base, straight) && n.local.Running? && Verdict(n.local.pc)
    ensures ReadyIfRunning(Happen(n, Command(f, run)), straight)
  {
  }

  lemma VerdictKeepsInv(n: Now, f: Fate, run: TestRun, base: Sha, straight: bool)
    requires Inv(n, base, straight) && n.local.Running? && Verdict(n.local.pc)
    ensures Inv(Happen(n, Command(f, run)), base, straight)
  {
    VerdictKeepsWorld(n, f, run, base, straight);
    VerdictKeepsReady(n, f, run, base, straight);
  }

  lemma OverGrows(commits: seq<Commit>, c: Commit, m: Sha, p: Sha, straight: bool)
    requires Over(commits, m, p, straight)
    ensures Over(commits + [c], m, p, straight)
  {
    ReachesGrows(commits, c, p, m);
    ReachesGrows(commits, c, commits[m].parents[1], p);
  }

  lemma GrowKeepsFacts(w: World, c: Commit, ctx: Context, straight: bool)
    requires w.main < |w.commits|
    ensures
      var more := w.commits + [c];
      && (forall m, p :: Over(w.commits, m, p, straight) ==> Over(more, m, p, straight))
      && (Reaches(more, ctx.tip, w.main) <==> Reaches(w.commits, ctx.tip, w.main))
  {
    ReachesGrows(w.commits, c, ctx.tip, w.main);
    forall m: Sha, p: Sha | Over(w.commits, m, p, straight) ensures Over(w.commits + [c], m, p, straight) {
      OverGrows(w.commits, c, m, p, straight);
    }
  }

  /** Making the merge adds one commit, over the recorded sha, and moves main to it. */
  lemma MergeKeepsInv(n: Now, f: Fate, run: TestRun, base: Sha, straight: bool)
    requires Inv(n, base, straight) && n.local.Running? && n.local.pc == DoMerge
    ensures Inv(Happen(n, Command(f, run)), base, straight)
  {
    var w, ctx, cp := n.world, n.local.ctx, n.local.cp;
    if f == Succeeds {
      var c := Commit([w.main, ctx.tip]);
      MergesOver(w.commits, cp.pre.value, w.main, ctx.tip);
      JustifiedGrows(w, c, straight);
    } else {
      var after := Happen(n, Command(f, run)).world;
      assert after == w.(merging := after.merging, unmerged := after.unmerged);
    }
  }

  /** A push that moves origin/main records a justified advance, next in the chain. */
  lemma PushKeepsHistory(w: World, cp: Checkpoint, base: Sha, straight: bool)
    requires Steady(w, base, straight) && w.disk == Some(cp) && Fits(cp, Tested) && Passed(cp) && w.origin != w.main
    ensures
      var a := Advance(w.origin, w.main, w.disk);
      && AllJustified(w.commits, w.advances + [a], straight) && Chained(base, w.advances + [a])
      && Reaches(w.commits, w.origin, w.main)
  {
    ChainGrows(base, w.advances, Advance(w.origin, w.main, w.disk));
  }

  lemma PushKeepsInv(n: Now, f: Fate, run: TestRun, base: Sha, straight: bool)
    requires Inv(n, base, straight) && n.local.Running? && n.local.pc == PushMain
    ensures Inv(Happen(n, Command(f, run)), base, straight)
  {
    if f == Succeeds && n.world.origin != n.world.main {
      PushMovesOrigin(n.world, n.local.ctx, n.local.cp, run, base, straight);
    }
  }

  lemma PushMovesOrigin(w: World, ctx: Context, cp: Checkpoint, run: TestRun, base: Sha, straight: bool)
    requires Steady(w, base, straight) && Ready(w, ctx, PushMain, cp, straight) && w.origin != w.main
    ensures Inv(Exec(w, ctx, PushMain, cp, Succeeds, run), base, straight)
  {
    PushKeepsHistory(w, cp, base, straight);
  }

  lemma ChainGrows(base: Sha, advances: seq<Advance>, a: Advance)
    requires Chained(base, advances) && a.from == Tip(base, advances)
    ensures Chained(base, advances + [a])
  {
    forall k | 0 <= k <= |advances| ensures StartsWhereLastEnded(base, advances + [a], k) {
      assert (advances + [a])[..k] == advances[..k];
      if k < |advances| { assert StartsWhereLastEnded(base, advances, k); } else { assert advances[..k] == advances; }
    }
  }

  lemma LateKeepsWorld(n: Now, f: Fate, run: TestRun, base: Sha, straight: bool)
    requires Inv(n, base, straight) && n.local.Running? && Late(n.local.pc)
    ensures Steady(Happen(n, Command(f, run)).world, base, straight)
  {
  }

  lemma LateKeepsReady(n: Now, f: Fate, run: TestRun, base: Sha, straight: bool)
    requires Inv(n, base, straight) && n.local.Running? && Late(n.local.pc)
    ensures ReadyIfRunning(Happen(n, Command(f, run)), straight)
  {
    var w, ctx, cp := n.world, n.local.ctx, n.local.cp;
    if n.local.pc == WritePushed {
      WritePushedKeepsReady(w, ctx, cp, f, run, straight);
    } else {
      CloseKeepsReady(w, ctx, cp, f, run, straight);
    }
  }

  lemma WritePushedKeepsReady(w: World, ctx: Context, cp: Checkpoint, f: Fate, run: TestRun, straight: bool)
    requires Ready(w, ctx, WritePushed, cp, straight)
    ensures ReadyIfRunning(Exec(w, ctx, WritePushed, cp, f, run), straight)
  {
  }

  lemma CloseKeepsReady(w: World, ctx: Context, cp: Checkpoint, f: Fate, run: TestRun, straight: bool)
    requires Ready(w, ctx, Close, cp, straight) && Linked(w, cp, straight)
    ensures ReadyIfRunning(Exec(w, ctx, Close, cp, f, run), straight)
  {
    assert Published(w, cp.(step := 7, state := Closed), straight);
  }

  lemma LateKeepsInv(n: Now, f: Fate, run: TestRun, base: Sha, straight: bool)
    requires Inv(n, base, straight) && n.local.Running? && Late(n.local.pc)
    ensures Inv(Happen(n, Command(f, run)), base, straight)
  {
    LateKeepsWorld(n, f, run, base, straight);
    LateKeepsReady(n, f, run, base, straight);
  }

  lemma LastKeepsWorld(n: Now, f: Fate, run: TestRun, base: Sha, straight: bool)
    requires Inv(n, base, straight) && n.local.Running? && Last(n.local.pc)
    ensures Steady(Happen(n, Command(f, run)).world, base, straight)
  {
  }

  lemma LastKeepsReady(n: Now, f: Fate, run: TestRun, base: Sha, straight: bool)
    requires Inv(n, base, straight) && n.local.Running? && Last(n.local.pc)
    ensures ReadyIfRunning(Happen(n, Command(f, run)), straight)
  {
  }

  lemma LastKeepsInv(n: Now, f: Fate, run: TestRun, base: Sha, straight: bool)
    requires Inv(n, base, straight) && n.local.Running? && Last(n.local.pc)
    ensures Inv(Happen(n, Command(f, run)), base, straight)
  {
    LastKeepsWorld(n, f, run, base, straight);
    LastKeepsReady(n, f, run, base, straight);
  }

  function Grown(w: World, c: Commit): World { w.(commits := w.commits + [c]) }

  lemma LinkedGrows(w: World, c: Commit, cp: Checkpoint, straight: bool)
    requires w.main < |w.commits| && Linked(w, cp, straight)
    ensures Linked(Grown(w, c), cp, straight)
  {
    GrowKeepsFacts(w, c, Context(0, 0), straight);
  }

  lemma ReadyGrows(w: World, c: Commit, ctx: Context, pc: Pc, cp: Checkpoint, straight: bool)
    requires w.main < |w.commits| && Ready(w, ctx, pc, cp, straight)
    ensures Ready(Grown(w, c), ctx, pc, cp, straight)
  {
    GrowKeepsFacts(w, c, ctx, straight);
  }

  lemma JustifiedGrows(w: World, c: Commit, straight: bool)
    requires w.main < |w.commits| && AllJustified(w.commits, w.advances, straight)
    ensures AllJustified(w.commits + [c], w.advances, straight)
  {
    forall k | 0 <= k < |w.advances| ensures Justified(w.commits + [c], w.advances[k], straight) {
      OverGrows(w.commits, c, w.advances[k].to, w.advances[k].from, straight);
    }
  }

  lemma BuilderKeepsInv(n: Now, parents: seq<Sha>, base: Sha, straight: bool)
    requires Inv(n, base, straight)
    ensures Inv(Happen(n, Builder(parents)), base, straight)
  {
    var c := Commit(parents);
    if n.world.disk.Some? { LinkedGrows(n.world, c, n.world.disk.value, straight); }
    if n.local.Running? { ReadyGrows(n.world, c, n.local.ctx, n.local.pc, n.local.cp, straight); }
    JustifiedGrows(n.world, c, straight);
  }

  /** A branch that main lacks is still lacking once it has moved forward. */
  lemma ReadyExtends(w: World, ctx: Context, tip: Sha, pc: Pc, cp: Checkpoint, straight: bool)
    requires Ready(w, ctx, pc, cp, straight) && tip < |w.commits| && Reaches(w.commits, ctx.tip, tip)
    ensures Ready(w, ctx.(tip := tip), pc, cp, straight)
  {
    if Reaches(w.commits, tip, w.main) { ReachesOn(w.commits, ctx.tip, tip, w.main); }
  }

  lemma ExtendKeepsInv(n: Now, tip: Sha, base: Sha, straight: bool)
    requires Inv(n, base, straight)
    ensures Inv(Happen(n, Extend(tip)), base, straight)
  {
    if n.local.Running? && tip < |n.world.commits| && Reaches(n.world.commits, n.local.ctx.tip, tip) {
      ReadyExtends(n.world, n.local.ctx, tip, n.local.pc, n.local.cp, straight);
    }
  }

  /** Restarting where recovery advises finds what the commands from there rely on. */
  lemma RestartKeepsInv(n: Now, tip: Sha, base: Sha)
    requires Inv(n, base, false)
    ensures Inv(Happen(n, Restart(tip)), base, false)
  {
  }

  lemma EventKeepsInv(n: Now, e: Event, base: Sha, straight: bool)
    requires Inv(n, base, straight) && (straight ==> !e.Restart?)
    ensures Inv(Happen(n, e), base, straight)
  {
    match e
    case Start(_) =>
    case Recovery =>
    case Restart(tip) => RestartKeepsInv(n, tip, base);
    case Builder(parents) => BuilderKeepsInv(n, parents, base, straight);
    case Extend(tip) => ExtendKeepsInv(n, tip, base, straight);
    case Command(f, run) => if n.local.Running? { CommandKeepsInv(n, f, run, base, straight); }
  }

  lemma CommandKeepsInv(n: Now, f: Fate, run: TestRun, base: Sha, straight: bool)
    requires Inv(n, base, straight) && n.local.Running?
    ensures Inv(Happen(n, Command(f, run)), base, straight)
  {
    var pc := n.local.pc;
    if Early(pc) { EarlyKeepsInv(n, f, run, base, straight); }
    else if Dry(pc) { DryKeepsInv(n, f, run, base, straight); }
    else if Middle(pc) { MiddleKeepsInv(n, f, run, base, straight); }
    else if Verdict(pc) { VerdictKeepsInv(n, f, run, base, straight); }
    else if pc == DoMerge { MergeKeepsInv(n, f, run, base, straight); }
    else if pc == PushMain { PushKeepsInv(n, f, run, base, straight); }
    else if Late(pc) { LateKeepsInv(n, f, run, base, straight); }
    else { LastKeepsInv(n, f, run, base, straight); }
  }

  predicate NoRestart(events: seq<Event>) { forall k :: 0 <= k < |events| ==> !events[k].Restart? }

  /** The invariant holds over every run; over a run without restarts, with every merge directly on top of the
      origin it was made for. */
  lemma {:induction false} InvOverRuns(commits: seq<Commit>, head: Sha, events: seq<Event>, straight: bool)
    requires head < |commits| && (straight ==> NoRestart(events))
    ensures Inv(Run(Initial(commits, head), events), head, straight)
  {
    if events != [] {
      var n := |events| - 1;
      InvOverRuns(commits, head, events[..n], straight);
      EventKeepsInv(Run(Initial(commits, head), events[..n]), events[n], head, straight);
    }
  }
}
