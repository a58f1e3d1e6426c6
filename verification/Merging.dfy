/** The merge checkpoint protocol: git reduced to commits and refs, the checkpoint file, and what a
    restarted orchestrator makes of whatever an attempt left behind. */
module Merging {
  import opened Text

  // ------------------------------------------------------------------ the repository and the disk

  type Sha = nat

  /** A commit names its parents; its own sha is its place in the order of creation. */
  datatype Commit = Commit(parents: seq<Sha>)

  datatype TestResult = TestResult(total: nat, passed: nat, failed: nat)

  datatype Phase = Fetched | Reset | Merged | Tested | Pushed | Closed

  datatype Checkpoint = Checkpoint(issue: nat, step: nat, state: Phase,
                                   pre: Option<Sha>, merge: Option<Sha>, test: Option<TestResult>)

  /** One advance of origin/main, with the checkpoint on disk at that moment. */
  datatype Advance = Advance(from: Sha, to: Sha, recorded: Option<Checkpoint>)

  /** `merging` is a merge begun and neither committed nor aborted (MERGE_HEAD), `unmerged` an index that a
      conflict left with unmerged entries. */
  datatype World = World(commits: seq<Commit>, main: Sha, origin: Sha, merging: bool, unmerged: bool,
                         disk: Option<Checkpoint>, advances: seq<Advance>)

  /** `git merge-base --is-ancestor a b`. */
  predicate Reaches(commits: seq<Commit>, a: Sha, b: Sha)
    decreases b
  {
    a == b || (b < |commits| && exists k :: 0 <= k < |commits[b].parents| && commits[b].parents[k] < b
                                  && Reaches(commits, a, commits[b].parents[k]))
  }

  // ------------------------------------------------------------------ commands

  /** What becomes of one command: it may also conflict, when it is a merge, and the process may be
      killed before it. */
  datatype Fate = Succeeds | Fails | Conflicts | Killed

  datatype Went = Did | Threw | Died

  datatype Ran = Ran(world: World, went: Went)

  /** A command with no effect on refs or checkpoint. */
  function Plain(w: World, f: Fate): Ran {
    Ran(w, match f case Succeeds => Did case Killed => Died case _ => Threw)
  }

  /** `git checkout main`, which an unmerged index refuses. */
  function CheckOut(w: World, f: Fate): Ran { if f == Succeeds && w.unmerged then Ran(w, Threw) else Plain(w, f) }

  function HardReset(w: World, to: Sha, f: Fate): Ran {
    if f == Succeeds then Ran(w.(main := to, merging := false, unmerged := false), Did) else Plain(w, f)
  }

  /** `git merge --no-commit --no-ff tip`; an up-to-date main is a success that begins no merge. */
  function TryMerge(w: World, tip: Sha, f: Fate): Ran {
    if f == Killed then Ran(w, Died)
    else if w.merging || f == Fails then Ran(w, Threw)
    else if Reaches(w.commits, tip, w.main) then Ran(w, Did)
    else Ran(w.(merging := true, unmerged := f == Conflicts), if f == Conflicts then Threw else Did)
  }

  /** `git merge --abort` fails when there is nothing to abort. */
  function AbortMerge(w: World, f: Fate): Ran {
    if f != Succeeds then Plain(w, f)
    else if !w.merging then Ran(w, Threw)
    else Ran(w.(merging := false, unmerged := false), Did)
  }

  /** `git merge --no-ff tip`. */
  function CommitMerge(w: World, tip: Sha, f: Fate): Ran {
    if f == Killed then Ran(w, Died)
    else if w.merging || f == Fails then Ran(w, Threw)
    else if Reaches(w.commits, tip, w.main) then Ran(w, Did)
    else if f == Conflicts then Ran(w.(merging := true, unmerged := true), Threw)
    else Ran(w.(commits := w.commits + [Commit([w.main, tip])], main := |w.commits|), Did)
  }

  /** `git push origin main`: nothing to do when up to date, refused unless it is a fast-forward. */
  function Push(w: World, f: Fate): Ran {
    if f != Succeeds then Plain(w, f)
    else if w.origin == w.main then Ran(w, Did)
    else if !Reaches(w.commits, w.origin, w.main) then Ran(w, Threw)
    else Ran(w.(origin := w.main, advances := w.advances + [Advance(w.origin, w.main, w.disk)]), Did)
  }

  function WriteFile(w: World, disk: Option<Checkpoint>, f: Fate): Ran {
    if f == Succeeds then Ran(w.(disk := disk), Did) else Plain(w, f)
  }

  /** The test command ended well, or with an exit status and perhaps "<p> passed ... <f> failed" in its output. */
  datatype TestRun = Clean | Broken(parsed: Option<(nat, nat)>)

  function RunTests(run: TestRun): TestResult {
    match run
    case Clean => TestResult(0, 0, 0)
    case Broken(Some(counts)) => TestResult(counts.0 + counts.1, counts.0, counts.1)
    case Broken(None) => TestResult(0, 0, 1)
  }

  /** What lets a merge through: the command ended well, or printed that nothing failed. */
  predicate Passes(run: TestRun) { run.Clean? || (run.parsed.Some? && run.parsed.value.1 == 0) }

  /** The counts on record are those printed and their sum; a failure that prints none counts as one. */
  predicate Tallies(t: TestResult, run: TestRun) {
    if run.Clean? then t.total == 0 && t.passed == 0 && t.failed == 0
    else if run.parsed.Some? then
      t.passed == run.parsed.value.0 && t.failed == run.parsed.value.1 && t.total == t.passed + t.failed
    else t.total == 0 && t.passed == 0 && t.failed == 1
  }

  /** The counts are recorded as printed, and none of them failed exactly when the run passes. */
  lemma RunTestsTallies(run: TestRun)
    ensures Tallies(RunTests(run), run)
    ensures RunTests(run).failed == 0 <==> Passes(run)
  {
  }

  // ------------------------------------------------------------------ an attempt, command by command

  datatype Context = Context(issue: nat, tip: Sha)

  /** The commands of `executeMerge`, in the order of the source. */
  datatype Pc =
    | FetchOrigin | WriteFetched | Checkout | ResetToOrigin | ReadPre | WriteReset
    | DryMerge | DryAbort | ConflictAbort | DoMerge | ReadMerge | WriteMerged
    | Test | WriteTested | RollBack | PushMain | WritePushed | Close | WriteClosed | Unlink

  datatype Label = Conflict | TestFailed | At(phase: Phase)

  datatype Result = Result(success: bool, step: nat, state: Label, merge: Option<Sha>)

  datatype Local = Running(ctx: Context, pc: Pc, cp: Checkpoint) | Returned(result: Result) | Dead

  function Begin(ctx: Context): Local { Running(ctx, FetchOrigin, Checkpoint(ctx.issue, 1, Fetched, None, None, None)) }

  /** The outer catch. */
  function Caught(cp: Checkpoint): Local { Returned(Result(false, cp.step, At(cp.state), cp.merge)) }

  datatype Now = Now(world: World, local: Local)

  function After(r: Ran, next: Local, thrown: Local): Now {
    Now(r.world, match r.went case Did => next case Threw => thrown case Died => Dead)
  }

  /** One command of a running attempt. */
  function Exec(w: World, ctx: Context, pc: Pc, cp: Checkpoint, f: Fate, run: TestRun): Now {
    var caught := Caught(cp);
    match pc
    case FetchOrigin => After(Plain(w, f), Running(ctx, WriteFetched, cp), caught)
    case WriteFetched => After(WriteFile(w, Some(cp), f), Running(ctx, Checkout, cp), caught)
    case Checkout => After(CheckOut(w, f), Running(ctx, ResetToOrigin, cp), caught)
    case ResetToOrigin => After(HardReset(w, w.origin, f), Running(ctx, ReadPre, cp), caught)
    case ReadPre =>
      After(Plain(w, f), Running(ctx, WriteReset, cp.(pre := Some(w.main), step := 2, state := Reset)), caught)
    case WriteReset => After(WriteFile(w, Some(cp), f), Running(ctx, DryMerge, cp), caught)
    case DryMerge => After(TryMerge(w, ctx.tip, f), Running(ctx, DryAbort, cp), Running(ctx, ConflictAbort, cp))
    case DryAbort => After(AbortMerge(w, f), Running(ctx, DoMerge, cp), Running(ctx, ConflictAbort, cp))
    case ConflictAbort => After(AbortMerge(w, f), Returned(Result(false, 3, Conflict, None)), caught)
    case DoMerge => After(CommitMerge(w, ctx.tip, f), Running(ctx, ReadMerge, cp), caught)
    case ReadMerge =>
      After(Plain(w, f), Running(ctx, WriteMerged, cp.(merge := Some(w.main), step := 4, state := Merged)), caught)
    case WriteMerged => After(WriteFile(w, Some(cp), f), Running(ctx, Test, cp), caught)
    case Test =>
      Now(w, if f == Killed then Dead
             else Running(ctx, WriteTested, cp.(test := Some(RunTests(run)), step := 5, state := Tested)))
    case WriteTested =>
      After(WriteFile(w, Some(cp), f),
            Running(ctx, if cp.test.Some? && cp.test.value.failed > 0 then RollBack else PushMain, cp), caught)
    case RollBack =>
      After(HardReset(w, if cp.pre.Some? then cp.pre.value else w.main, f),
            Returned(Result(false, 5, TestFailed, cp.merge)), caught)
    case PushMain => After(Push(w, f), Running(ctx, WritePushed, cp.(step := 6, state := Pushed)), caught)
    case WritePushed => After(WriteFile(w, Some(cp), f), Running(ctx, Close, cp), caught)
    case Close => After(Plain(w, f), Running(ctx, WriteClosed, cp.(step := 7, state := Closed)), caught)
    case WriteClosed => After(WriteFile(w, Some(cp), f), Running(ctx, Unlink, cp), caught)
    case Unlink => After(WriteFile(w, None, f), Returned(Result(true, 7, At(Closed), cp.merge)), caught)
  }

  // ------------------------------------------------------------------ recovery

  datatype Advice = Resume(step: nat) | RollBackAdvice | Abort | Complete

  /** `recoverMerge`. */
  function Recover(w: World, cp: Checkpoint): Advice {
    match cp.state
    case Fetched => Resume(2)
    case Reset => Resume(3)
    case Merged => if cp.merge.Some? && Reaches(w.commits, cp.merge.value, w.main) then Resume(5) else Abort
    case Tested => if cp.test.Some? && cp.test.value.failed == 0 then Resume(6) else RollBackAdvice
    case Pushed => if cp.merge == Some(w.origin) then Resume(7) else Abort
    case Closed => Complete
  }

  /** Recovery's one write: a closed checkpoint is removed. */
  function RecoveredDisk(disk: Option<Checkpoint>): Option<Checkpoint> {
    if disk.Some? && disk.value.state == Closed then None else disk
  }

  // ------------------------------------------------------------------ runs

  /** The command the advice restarts from. */
  function PcOf(advice: Advice): Option<Pc> {
    match advice
    case Resume(step) =>
      if step == 2 then Some(Checkout) else if step == 3 then Some(DryMerge) else if step == 5 then Some(Test)
      else if step == 6 then Some(PushMain) else if step == 7 then Some(Close) else None
    case RollBackAdvice => Some(RollBack)
    case _ => None
  }

  /** The attempt the checkpoint on disk is restarted as, the issue's branch now being at `tip`. */
  function Restarted(w: World, tip: Sha): Option<Local> {
    if w.disk.None? then None
    else
      var cp := w.disk.value;
      var pc := PcOf(Recover(w, cp));
      if pc.None? then None else Some(Running(Context(cp.issue, tip), pc.value, cp))
  }

  /** Attempts start, or are restarted as recovery advises, when none runs, and take one command at a time;
      builders add commits whenever they like, and move the branch being merged forward even between the dry run
      and the merge. Nobody else writes main, origin or the checkpoint. */
  datatype Event =
    | Start(ctx: Context) | Restart(tip: Sha) | Command(fate: Fate, run: TestRun)
    | Recovery | Builder(parents: seq<Sha>) | Extend(tip: Sha)

  /** The commands name the branch, so they see wherever it has moved to. */
  function Extended(n: Now, tip: Sha): Now {
    if n.local.Running? && tip < |n.world.commits| && Reaches(n.world.commits, n.local.ctx.tip, tip)
    then n.(local := n.local.(ctx := n.local.ctx.(tip := tip))) else n
  }

  function Happen(n: Now, e: Event): Now {
    match e
    case Start(ctx) => if n.local.Running? || ctx.tip >= |n.world.commits| then n else Now(n.world, Begin(ctx))
    case Restart(tip) =>
      var local := Restarted(n.world, tip);
      if n.local.Running? || tip >= |n.world.commits| || local.None? then n else Now(n.world, local.value)
    case Command(f, run) => if n.local.Running? then Exec(n.world, n.local.ctx, n.local.pc, n.local.cp, f, run) else n
    case Recovery => if n.local.Running? then n else Now(n.world.(disk := RecoveredDisk(n.world.disk)), n.local)
    case Builder(parents) =>
      if forall k :: 0 <= k < |parents| ==> parents[k] < |n.world.commits|
      then n.(world := n.world.(commits := n.world.commits + [Commit(parents)])) else n
    case Extend(tip) => Extended(n, tip)
  }

  function Run(n: Now, events: seq<Event>): Now {
    if events == [] then n else Happen(Run(n, events[..|events| - 1]), events[|events| - 1])
  }

  /** A clone in step with its remote, no checkpoint on disk. */
  function Initial(commits: seq<Commit>, head: Sha): Now {
    Now(World(commits, head, head, false, false, None, []), Dead)
  }
}
