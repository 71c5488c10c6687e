/** atomic-deploy.php: the single-file deployer and its command-line entry point. */
module ScriptDeploy {
  import opened Php
  import opened Paths
  import opened Fs
  import opened Output
  import opened ErrorHandling
  import opened Diagnostics
  import opened Options
  import opened Deployment

  /** The layout under the deploy directory (`$directories`). */
  const RevisionsName: string := "revisions"
  const SharedName: string := "shared"
  const ConfigName: string := "shared/config"

  /** A handler registered with `set_error_handler` is called with the error number
      first; this handler takes that number for the message. The warnings raised while
      it is active are `E_WARNING`, number 2. */
  const WarningNumber: string := "2"

  // the progress lines `run` prints before each step
  const CreatingDirectories: string := "Creating atomic deployment directories...\n"
  const CreatingRevision: string := "Creating new revision directory...\n"
  const CopyingCache: string := "Copying deploy-cache to new revision directory...\n"
  const CreatingLinks: string := "Creating symlinks within new revision directory...\n"
  const Switching: string := "Switching over to latest revision...\n"
  const Pruning: string := "Pruning old revisions...\n"

  // the messages of the `RuntimeException`s the steps throw
  const NoRevisionsDir: string := "Could not create revisions directory."
  const NoSharedDir: string := "Could not create shared directory."
  const NoConfigDir: string := "Could not create config directory."
  /** Concatenating the array `$output` yields "Array". */
  const CopyFailed: string := "Could not copy deploy cache to revision directory: Array"
  const PruneFailed: string := "Could not prune old revisionsArray"

  function DeployDirNotWritable(d: string): string {
    "The deploy directory \"" + d + "\" is not writable"
  }

  function RevisionDirNotMade(p: string): string {
    "Could not create revision directory: " + p
  }

  function RevisionDirNotWritable(p: string): string {
    "The revision directory \"" + p + "\" is not writable"
  }

  /** What `linkCurrentRevision` prints before linking. */
  function CurrentLinkLine(target: string, current: string): string {
    "Creating link from " + target + " -> " + current + "\n"
  }

  /** The path `realpath` gave, or "" where it gave `false`. */
  function OrEmpty(p: Option<Path>): string {
    match p
    case Some(q) => q
    case None => ""
  }

  /** How `run` ends, given the outcomes of the steps it reached. */
  function Verdict(os: seq<Outcome>): RunResult
    requires os != []
  {
    match os[|os| - 1]
    case Done => Returned(true)
    case Threw(Runtime(_)) => Returned(false)
    case Threw(Fatal(m)) => Escaped(m)
  }

  // ---------------------------------------------------------------------------
  // the run as a function of the state it starts from

  /** What the deployer works with between steps: the system's answers, the filesystem,
      and the paths it has set. */
  datatype Ctx = Ctx(env: Oracles, fs: State, deployPath: string, revisionDir: string, sharedDir: string, configDir: string,
                     revisionPath: string)

  /** `deployPath($segments)`: a path under the deploy path. */
  function DeployPathOf(deployPath: string, segments: seq<string>): Path {
    BuildPath([deployPath] + segments)
  }

  /** The paths `initDirectories` sets, from the deploy path `dp`, before it checks anything. */
  function WithLayout(c: Ctx, dp: string): Ctx {
    c.(deployPath := dp,
       revisionDir := DeployPathOf(dp, [RevisionsName]),
       sharedDir := DeployPathOf(dp, [SharedName]),
       configDir := DeployPathOf(dp, [ConfigName]))
  }

  /** The three layout directories with the message a failure to make each throws. */
  function Layout(c: Ctx): seq<(string, string)> {
    [(c.revisionDir, NoRevisionsDir), (c.sharedDir, NoSharedDir), (c.configDir, NoConfigDir)]
  }

  /** `initDirectories($deployDir)`: sets the layout paths, refuses an unwritable deploy
      directory before making anything, then makes whichever of `revisions`, `shared`
      and `shared/config` is missing; a failed `mkdir` is forgiven when the directory is
      there afterwards. */
  function InitDirectoriesEffect(deployDir: string, c: Ctx): Stepped<Ctx> {
    var c1 := WithLayout(c, if c.fs.IsDir(deployDir) then RTrim(deployDir, Sep) else "");
    if !c.fs.IsWritable(c.env, deployDir) then Stepped(Threw(Runtime(DeployDirNotWritable(deployDir))), c1, "")
    else
      var (o, s) := MakeAll(c.fs, c.env, Layout(c1), true);
      Stepped(o, c1.(fs := s), "")
  }

  /** The revision path `createRevisionDir` picks: `revisions/<revision>`, with `-<now>`
      appended when that already resolves to a directory. */
  function RevisionPathFor(c: Ctx, revision: string, now: nat): string {
    var p := BuildPath([c.revisionDir, revision]);
    if c.fs.Realpath(p).Some? then p + "-" + NatToDecimal(now) else p
  }

  /** The checks that end `createRevisionDir` once the revision path exists or not. */
  function RevisionDirOutcome(s: State, env: Oracles, p: Path): Outcome {
    if !s.IsDir(p) then Threw(Runtime(RevisionDirNotMade(p)))
    else if !s.IsWritable(env, p) then Threw(Runtime(RevisionDirNotWritable(p)))
    else Done
  }

  /** `createRevisionDir($revision)`: the revision path is made (with its parents) when
      missing, and must end up a writable directory. */
  function CreateRevisionDirEffect(revision: string, now: nat, c: Ctx): Stepped<Ctx> {
    var rp := RevisionPathFor(c, revision, now);
    var s := if c.fs.IsDir(rp) then c.fs else c.fs.Mkdir(c.env, rp, true).1;
    Stepped(RevisionDirOutcome(s, c.env, rp), c.(fs := s, revisionPath := rp), "")
  }

  /** `copyCacheToRevision($src)`: `cp -a` of the cache into the revision. */
  function CopyCacheEffect(src: string, c: Ctx): Stepped<Ctx> {
    var (ok, s) := c.fs.CopyInto(c.env, src, c.revisionPath);
    Stepped(if ok then Done else Threw(Runtime(CopyFailed)), c.(fs := s), "")
  }

  /** `createSymLinks($symLinks)`: for each entry in order, announce and make the link
      `revisionPath/<link>` to `deployPath/<target>`, stopping at the first failure,
      which raises a `TypeError`. Something other than an object or array is not
      iterated. */
  function SymLinksEffect(symLinks: Json, c: Ctx): Stepped<Ctx> {
    if !symLinks.Entries? then Stepped(Done, c, "")
    else
      var pairs := LinkPaths(c.deployPath, c.revisionPath, symLinks.pairs);
      var (n, s) := LinkAll(c.fs, c.env, pairs, true);
      Stepped(if n == |pairs| then Done else Threw(Fatal(ArrayArgument)), c.(fs := s),
              Announced(pairs[..if n == |pairs| then n else n + 1]))
  }

  /** The target `linkCurrentRevision` links to: the resolved revision path. */
  function CurrentTarget(c: Ctx): string {
    OrEmpty(c.fs.Realpath(c.revisionPath))
  }

  /** The link `linkCurrentRevision` replaces: `current` under the deploy path. */
  function CurrentLink(c: Ctx): Path {
    DeployPathOf(c.deployPath, ["current"])
  }

  /** `linkCurrentRevision()`: `current` is pointed at the resolved revision path, under
      the rule of `createSymLink`. */
  function LinkCurrentEffect(c: Ctx): Stepped<Ctx> {
    var (ok, s) := LinkOne(c.fs, c.env, CurrentTarget(c), CurrentLink(c), true);
    Stepped(if ok then Done else Threw(Fatal(ArrayArgument)), c.(fs := s), CurrentLinkLine(CurrentTarget(c), CurrentLink(c)))
  }

  /** `pruneOldRevisions($revisionsToKeep)` on the revisions directory. */
  function PruneEffect(keep: ArgValue, c: Ctx): Stepped<Ctx> {
    var (o, s) := PruneRevisions(c.fs, c.env, c.revisionDir, keep, ChangeTime, PruneFailed);
    Stepped(o, c.(fs := s), "")
  }

  // The six steps of `run`, each announced as `run` announces it, as functions of the
  // values `run` is called with and the state the step starts from.

  function InitStep(a: RunArgs, c: Ctx): Stepped<Ctx> {
    Announcing(CreatingDirectories, InitDirectoriesEffect(a.deployDir, c))
  }

  function RevisionStep(a: RunArgs, c: Ctx): Stepped<Ctx> {
    Announcing(CreatingRevision, CreateRevisionDirEffect(a.revision, a.now, c))
  }

  function CopyStep(a: RunArgs, c: Ctx): Stepped<Ctx> {
    Announcing(CopyingCache, CopyCacheEffect(DeployPathOf(c.deployPath, [a.cacheDir]), c))
  }

  function LinksStep(a: RunArgs, c: Ctx): Stepped<Ctx> {
    Announcing(CreatingLinks, SymLinksEffect(a.symLinks, c))
  }

  function CurrentStep(a: RunArgs, c: Ctx): Stepped<Ctx> {
    Announcing(Switching, LinkCurrentEffect(c))
  }

  function PruneStep(a: RunArgs, c: Ctx): Stepped<Ctx> {
    Announcing(Pruning, PruneEffect(a.keep, c))
  }

  /** A step of `run` with the values `run` was called with. */
  datatype Call = Call(step: (RunArgs, Ctx) -> Stepped<Ctx>, a: RunArgs)

  /** What a step does from the state `c`. */
  function Take(call: Call, c: Ctx): Stepped<Ctx> {
    call.step(call.a, c)
  }

  /** The first three steps of `run`: the layout, the revision directory, its contents. */
  function PrepareSteps(a: RunArgs): seq<Call> {
    [Call(InitStep, a), Call(RevisionStep, a), Call(CopyStep, a)]
  }

  /** The last three steps of `run`: the links, the switch to the revision, the pruning. */
  function SwitchSteps(a: RunArgs): seq<Call> {
    [Call(LinksStep, a), Call(CurrentStep, a), Call(PruneStep, a)]
  }

  /** The first three steps run one after another, each only when the one before it
      finished. */
  lemma PrepareRun(a: RunArgs, c: Ctx)
    ensures var run := RunSteps(Take, PrepareSteps(a), c);
      var s1 := InitStep(a, c);
      if s1.outcome.Threw? then run == Run([s1.outcome], s1.after, s1.text)
      else
        var s2 := RevisionStep(a, s1.after);
        if s2.outcome.Threw? then run == Run([s1.outcome, s2.outcome], s2.after, s1.text + s2.text)
        else
          var s3 := CopyStep(a, s2.after);
          run == Run([s1.outcome, s2.outcome, s3.outcome], s3.after, s1.text + s2.text + s3.text)
  {
    RunThree(Take, Call(InitStep, a), Call(RevisionStep, a), Call(CopyStep, a), c);
  }

  /** The last three steps run one after another, each only when the one before it
      finished. */
  lemma SwitchRun(a: RunArgs, c: Ctx)
    ensures var run := RunSteps(Take, SwitchSteps(a), c);
      var s1 := LinksStep(a, c);
      if s1.outcome.Threw? then run == Run([s1.outcome], s1.after, s1.text)
      else
        var s2 := CurrentStep(a, s1.after);
        if s2.outcome.Threw? then run == Run([s1.outcome, s2.outcome], s2.after, s1.text + s2.text)
        else
          var s3 := PruneStep(a, s2.after);
          run == Run([s1.outcome, s2.outcome, s3.outcome], s3.after, s1.text + s2.text + s3.text)
  {
    RunThree(Take, Call(LinksStep, a), Call(CurrentStep, a), Call(PruneStep, a), c);
  }

  /** The six steps of `run`'s `try`. */
  function ScriptSteps(a: RunArgs): seq<Call> {
    PrepareSteps(a) + SwitchSteps(a)
  }

  /** What the console shows once `run` is over: the text of the steps; after a
      `RuntimeException`, the buffered output reported (quiet mode), then the message. */
  function AfterRun(quiet: bool, v: Screen, run: Run<Ctx>): Screen
    requires run.outcomes != []
  {
    var v1 := Written(v, run.text);
    match Last(run)
    case Threw(Runtime(m)) => Written(if quiet then ErrorsShown(v1, Identical) else v1, m + "\n")
    case _ => v1
  }

  /** `cleanUp($result)` after the run: after a `RuntimeException`, `uninstall` attempts to
      unlink the revision path when it is set and a directory; otherwise nothing changes
      (an `Error` escapes before `cleanUp`). */
  predicate CleanedUp(run: Run<Ctx>, s: State)
    requires run.outcomes != []
  {
    var rp := run.after.revisionPath;
    if Last(run).Threw? && Last(run).failure.Runtime? && Truthy(rp) && run.after.fs.IsDir(rp) then
      Unlinked(run.after.fs, s, rp)
    else s == run.after.fs
  }

  /** `run` returns true exactly when all six steps finished. */
  lemma RunSucceedsOnlyWhenAllStepsFinish(a: RunArgs, c: Ctx)
    ensures var os := RunSteps(Take, ScriptSteps(a), c).outcomes;
      Verdict(os) == Returned(true) <==> AllDone(os, 6)
  {
    var steps := ScriptSteps(a);
    RunStepsSucceeds(Take, steps, c);
    VerdictTrueWhenLastDone(RunSteps(Take, steps, c).outcomes, |steps|);
  }

  lemma VerdictTrueWhenLastDone(os: seq<Outcome>, n: nat)
    requires os != [] && (os[|os| - 1] == Done <==> AllDone(os, n))
    ensures Verdict(os) == Returned(true) <==> AllDone(os, n)
  {
  }

  // ---------------------------------------------------------------------------
  // what a run that returns true leaves behind

  /** Where the run keeps the deploy path and the revisions directory. */
  predicate SamePaths(c: Ctx, d: Ctx) {
    d.deployPath == c.deployPath && d.revisionDir == c.revisionDir
  }

  /** A finished `initDirectories` leaves the three layout directories in place, under a
      deploy path without a trailing separator. */
  lemma InitLeavesLayout(a: RunArgs, c: Ctx)
    requires InitStep(a, c).outcome == Done
    ensures var c1 := InitStep(a, c).after;
      c1.fs.IsDir(c1.revisionDir) && c1.fs.IsDir(c1.sharedDir) && c1.fs.IsDir(c1.configDir)
      && (c1.deployPath == [] || c1.deployPath[|c1.deployPath| - 1] != Sep)
      && c1.revisionDir == DeployPathOf(c1.deployPath, [RevisionsName])
  {
    var c1 := WithLayout(c, if c.fs.IsDir(a.deployDir) then RTrim(a.deployDir, Sep) else "");
    var ds := Layout(c1);
    var (o, s) := MakeAll(c.fs, c.env, ds, true);
    assert InitDirectoriesEffect(a.deployDir, c) == Stepped(o, c1.(fs := s), "");
    MakeAllTolerant(c.fs, c.env, ds);
    assert s.IsDir(ds[0].0) && s.IsDir(ds[1].0) && s.IsDir(ds[2].0);
  }

  /** Every step after the first leaves the deploy path and the revisions directory. */
  lemma LaterStepsKeepPaths(a: RunArgs, c: Ctx)
    ensures SamePaths(c, RevisionStep(a, c).after) && SamePaths(c, CopyStep(a, c).after)
      && SamePaths(c, LinksStep(a, c).after) && SamePaths(c, CurrentStep(a, c).after)
  {
  }

  /** `dir/current` is shorter than `dir/revisions`, so pruning the revisions never
      reaches the current link. */
  lemma CurrentAboveRevisions(dp: string)
    requires dp == [] || dp[|dp| - 1] != Sep
    ensures |Canon(DeployPathOf(dp, ["current"]))| < |Canon(DeployPathOf(dp, [RevisionsName]))|
  {
    var current, revisions := "current", RevisionsName;
    assert forall k :: 0 <= k < |current| ==> current[k] != Sep;
    assert forall k :: 0 <= k < |revisions| ==> revisions[k] != Sep;
    JoinedShorter(dp, current, revisions);
  }

  /** A finished switch leaves `current` a link to the resolved revision path when it was
      a directory, and changes nothing otherwise, as `createSymLink` does. */
  lemma SwitchLinksCurrent(a: RunArgs, c: Ctx)
    requires CurrentStep(a, c).outcome == Done
    ensures var after := CurrentStep(a, c).after.fs;
      (c.fs.IsDir(CurrentLink(c)) ==>
        Canon(CurrentLink(c)) in after.links && after.links[Canon(CurrentLink(c))] == CurrentTarget(c))
      && (!c.fs.IsDir(CurrentLink(c)) ==> after == c.fs)
  {
    RelinkPointsAt(c.fs, c.env, CurrentTarget(c), CurrentLink(c));
  }

  /** Pruning spares every link no longer than the revisions directory. */
  lemma PruneSparesLinksAbove(a: RunArgs, c: Ctx, x: Path)
    requires |x| <= |Canon(c.revisionDir)| && x in c.fs.links
    ensures var end := PruneStep(a, c).after.fs; x in end.links && end.links[x] == c.fs.links[x]
  {
    PruneRevisionsSparesShallow(c.fs, c.env, c.revisionDir, a.keep, ChangeTime, PruneFailed, x);
  }

  /** The state after the first `k` steps of `run`. */
  function After(a: RunArgs, c: Ctx, k: nat): Ctx
    requires k <= 6
  {
    RunSteps(Take, ScriptSteps(a)[..k], c).after
  }

  /** In a run where every step finished, the first leaves the layout in place. */
  lemma LayoutAfterInit(a: RunArgs, c: Ctx)
    requires AllDone(RunSteps(Take, ScriptSteps(a), c).outcomes, 6)
    ensures var c1 := After(a, c, 1);
      c1.fs.IsDir(c1.revisionDir) && c1.fs.IsDir(c1.sharedDir) && c1.fs.IsDir(c1.configDir)
      && (c1.deployPath == [] || c1.deployPath[|c1.deployPath| - 1] != Sep)
      && c1.revisionDir == DeployPathOf(c1.deployPath, [RevisionsName])
  {
    var steps := ScriptSteps(a);
    assert steps[..0] == [];
    RunStepsPrefixDone(Take, steps, c, 0);
    InitLeavesLayout(a, c);
  }

  /** In a run where every step finished, the second, third and fourth steps keep the
      deploy path and the revisions directory. */
  lemma PathsKeptInTurn(a: RunArgs, c: Ctx, k: nat)
    requires 1 <= k <= 3 && AllDone(RunSteps(Take, ScriptSteps(a), c).outcomes, 6)
    ensures SamePaths(After(a, c, k), After(a, c, k + 1))
  {
    var steps := ScriptSteps(a);
    RunStepsPrefixDone(Take, steps, c, k);
    LaterStepsKeepPaths(a, After(a, c, k));
  }

  /** In a run where every step finished, the switch keeps the paths. */
  lemma SwitchKeepsPaths(a: RunArgs, c: Ctx)
    requires AllDone(RunSteps(Take, ScriptSteps(a), c).outcomes, 6)
    ensures SamePaths(After(a, c, 4), After(a, c, 5))
  {
    var steps := ScriptSteps(a);
    RunStepsPrefixDone(Take, steps, c, 4);
    LaterStepsKeepPaths(a, After(a, c, 4));
  }

  /** In a run where every step finished, the fifth step links `current` as
      `SwitchLinksCurrent` says. */
  lemma SwitchAfterLinks(a: RunArgs, c: Ctx)
    requires AllDone(RunSteps(Take, ScriptSteps(a), c).outcomes, 6)
    ensures var c4, c5 := After(a, c, 4), After(a, c, 5);
      (c4.fs.IsDir(CurrentLink(c4)) ==>
        Canon(CurrentLink(c4)) in c5.fs.links && c5.fs.links[Canon(CurrentLink(c4))] == CurrentTarget(c4))
      && (!c4.fs.IsDir(CurrentLink(c4)) ==> c5.fs == c4.fs)
  {
    var steps := ScriptSteps(a);
    RunStepsPrefixDone(Take, steps, c, 4);
    SwitchLinksCurrent(a, After(a, c, 4));
  }

  /** In a run where every step finished, the last step spares every link no longer
      than the revisions directory. */
  lemma PruneAfterSwitch(a: RunArgs, c: Ctx, x: Path)
    requires AllDone(RunSteps(Take, ScriptSteps(a), c).outcomes, 6)
    requires |x| <= |Canon(After(a, c, 5).revisionDir)| && x in After(a, c, 5).fs.links
    ensures var end := RunSteps(Take, ScriptSteps(a), c).after.fs;
      x in end.links && end.links[x] == After(a, c, 5).fs.links[x]
  {
    var steps := ScriptSteps(a);
    RunStepsPrefixDone(Take, steps, c, 5);
    assert steps[..6] == steps;
    PruneSparesLinksAbove(a, After(a, c, 5), x);
  }

  /** In a run where every step finished, the steps between the first and the switch
      keep the layout's paths, so `current` sits above the revisions directory. */
  lemma CurrentAboveAtPrune(a: RunArgs, c: Ctx)
    requires AllDone(RunSteps(Take, ScriptSteps(a), c).outcomes, 6)
    ensures SamePaths(After(a, c, 4), After(a, c, 5))
    ensures |Canon(CurrentLink(After(a, c, 4)))| < |Canon(After(a, c, 5).revisionDir)|
  {
    LayoutAfterInit(a, c);
    PathsKeptToSwitch(a, c);
    SwitchKeepsPaths(a, c);
    CurrentAboveThroughout(After(a, c, 1), After(a, c, 4), After(a, c, 5));
  }

  /** In a run where every step finished, the paths are those the first step set until
      the switch. */
  lemma PathsKeptToSwitch(a: RunArgs, c: Ctx)
    requires AllDone(RunSteps(Take, ScriptSteps(a), c).outcomes, 6)
    ensures SamePaths(After(a, c, 1), After(a, c, 4))
  {
    PathsKeptInTurn(a, c, 1);
    PathsKeptInTurn(a, c, 2);
    PathsKeptInTurn(a, c, 3);
  }

  /** The layout's paths, kept from `c1` to `c5`, put `current` above the revisions. */
  lemma CurrentAboveThroughout(c1: Ctx, c4: Ctx, c5: Ctx)
    requires c1.deployPath == [] || c1.deployPath[|c1.deployPath| - 1] != Sep
    requires c1.revisionDir == DeployPathOf(c1.deployPath, [RevisionsName])
    requires SamePaths(c1, c4) && SamePaths(c4, c5)
    ensures |Canon(CurrentLink(c4))| < |Canon(c5.revisionDir)|
  {
    CurrentAboveRevisions(c1.deployPath);
  }

  /** In a run where every step finished, `current` ends up where the switch put it. */
  lemma CurrentSurvivesPrune(a: RunArgs, c: Ctx)
    requires AllDone(RunSteps(Take, ScriptSteps(a), c).outcomes, 6)
    ensures var c4, c5 := After(a, c, 4), After(a, c, 5);
      var end := RunSteps(Take, ScriptSteps(a), c).after.fs;
      (c4.fs.IsDir(CurrentLink(c4)) ==>
        Canon(CurrentLink(c4)) in end.links && end.links[Canon(CurrentLink(c4))] == CurrentTarget(c4))
      && (!c4.fs.IsDir(CurrentLink(c4)) ==> c5.fs == c4.fs)
  {
    SwitchAfterLinks(a, c);
    CurrentAboveAtPrune(a, c);
    var c4 := After(a, c, 4);
    if c4.fs.IsDir(CurrentLink(c4)) {
      PruneAfterSwitch(a, c, Canon(CurrentLink(c4)));
    }
  }

  /** When `run` returns true, the layout was there once `initDirectories` finished, and
      at the end `current` points where `linkCurrentRevision` linked it: to the resolved
      revision path, when `current` was a directory at the switch; pruning leaves it. */
  lemma ScriptSucceeded(a: RunArgs, c: Ctx)
    requires Verdict(RunSteps(Take, ScriptSteps(a), c).outcomes) == Returned(true)
    ensures var c1 := After(a, c, 1);
      c1.fs.IsDir(c1.revisionDir) && c1.fs.IsDir(c1.sharedDir) && c1.fs.IsDir(c1.configDir)
    ensures var c4, c5 := After(a, c, 4), After(a, c, 5);
      var end := RunSteps(Take, ScriptSteps(a), c).after.fs;
      (c4.fs.IsDir(CurrentLink(c4)) ==>
        Canon(CurrentLink(c4)) in end.links && end.links[Canon(CurrentLink(c4))] == CurrentTarget(c4))
      && (!c4.fs.IsDir(CurrentLink(c4)) ==> c5.fs == c4.fs)
  {
    RunSucceedsOnlyWhenAllStepsFinish(a, c);
    LayoutAfterInit(a, c);
    CurrentSurvivesPrune(a, c);
  }

  class Deployer {
    const quiet: bool
    const fs: FileSystem
    const console: Console
    const errHandler: ErrorHandler
    var deployPath: string
    var revisionDir: string
    var revisionPath: string
    var sharedDir: string
    var configDir: string

    /** `new Deployer($quiet)`: in quiet mode output is buffered from now on. */
    constructor (quiet: bool, fs: FileSystem, console: Console)
      modifies console
      ensures this.quiet == quiet && this.fs == fs && this.console == console
      ensures fresh(errHandler) && !errHandler.active && errHandler.message == ""
      ensures Here() == Ctx(fs.env, fs.Snapshot(), "", "", "", "", "")
      ensures console.View() == Opened(quiet, old(console.View()))
    {
      this.quiet := quiet;
      this.fs := fs;
      this.console := console;
      errHandler := new ErrorHandler();
      deployPath, revisionDir, revisionPath, sharedDir, configDir := "", "", "", "", "";
      new;
      if quiet {
        console.StartBuffering();
      }
    }

    /** The state the run functions speak of. */
    function Here(): Ctx
      reads this, fs
    {
      Ctx(fs.env, fs.Snapshot(), deployPath, revisionDir, sharedDir, configDir, revisionPath)
    }

    /** `deployPath($segments)`. */
    function DeployPath(segments: seq<string>): Path
      reads this
    {
      DeployPathOf(deployPath, segments)
    }

    /** `run(...)`: the six steps in order, each only when the one before finished. A
        `RuntimeException` makes it clean up, print the message and return false; an
        `Error` escapes without cleaning up. */
    method Run(a: RunArgs) returns (r: RunResult)
      modifies this, fs, console, errHandler
      ensures var run := RunSteps(Take, ScriptSteps(a), old(Here()).(deployPath := a.deployDir));
        r == Verdict(run.outcomes)
        && Here() == run.after.(fs := fs.Snapshot())
        && CleanedUp(run, fs.Snapshot())
        && console.View() == AfterRun(quiet, old(console.View()), run)
    {
      deployPath := a.deployDir;
      ghost var run := RunSteps(Take, ScriptSteps(a), Here());
      var o := Steps(a);
      r := Conclude(run, old(console.View()), o);
    }

    /** The end of `run`, once the steps of `run` stopped with `o`: `cleanUp`, and after a
        `RuntimeException` its message, then the result; an `Error` escapes untouched. */
    method Conclude(ghost run: Run<Ctx>, ghost v: Screen, o: Outcome) returns (r: RunResult)
      requires run.outcomes != [] && o == Last(run) && Here() == run.after
      requires console.View() == Written(v, run.text)
      modifies fs, console
      ensures r == Verdict(run.outcomes)
        && Here() == run.after.(fs := fs.Snapshot())
        && CleanedUp(run, fs.Snapshot())
        && console.View() == AfterRun(quiet, v, run)
    {
      match o {
        case Done =>
          CleanUp(true);
          r := Returned(true);
        case Threw(Runtime(m)) =>
          CleanUp(false);
          console.Write(m + "\n");
          r := Returned(false);
        case Threw(Fatal(m)) =>
          r := Escaped(m);
      }
    }

    /** The body of `run`'s `try`: the six steps, each announced, until one throws. */
    method Steps(a: RunArgs) returns (o: Outcome)
      modifies this, fs, console, errHandler
      ensures var run := RunSteps(Take, ScriptSteps(a), old(Here()));
        o == Last(run) && Here() == run.after && console.View() == Written(old(console.View()), run.text)
    {
      ghost var c0, v0 := Here(), console.View();
      ghost var p, q := PrepareSteps(a), SwitchSteps(a);
      ghost var r1 := RunSteps(Take, p, c0);
      o := Prepare(a);
      if o.Threw? {
        RunStepsAppendStopped(Take, p, q, c0);
        return;
      }
      RunStepsSucceeds(Take, p, c0);
      o := Switch(a);
      RunStepsAppend(Take, p, q, c0);
      WrittenTwice(v0, r1.text, RunSteps(Take, q, r1.after).text);
    }

    /** The first three steps: the layout, the revision directory and its contents. */
    method Prepare(a: RunArgs) returns (o: Outcome)
      modifies this, fs, console, errHandler
      ensures var run := RunSteps(Take, PrepareSteps(a), old(Here()));
        o == Last(run) && Here() == run.after && console.View() == Written(old(console.View()), run.text)
    {
      ghost var c0, v0 := Here(), console.View();
      PrepareRun(a, c0);
      ghost var s1 := InitStep(a, c0);
      o := TakeInit(a);
      if o.Threw? {
        return;
      }
      ghost var s2 := RevisionStep(a, s1.after);
      o := TakeRevision(a);
      WrittenTwice(v0, s1.text, s2.text);
      if o.Threw? {
        return;
      }
      ghost var s3 := CopyStep(a, s2.after);
      o := TakeCopy(a);
      WrittenTwice(v0, s1.text + s2.text, s3.text);
    }

    /** The last three steps: the links, the switch to the revision and the pruning. */
    method Switch(a: RunArgs) returns (o: Outcome)
      modifies fs, console, errHandler
      ensures var run := RunSteps(Take, SwitchSteps(a), old(Here()));
        o == Last(run) && Here() == run.after && console.View() == Written(old(console.View()), run.text)
    {
      ghost var c0, v0 := Here(), console.View();
      SwitchRun(a, c0);
      ghost var s1 := LinksStep(a, c0);
      o := TakeLinks(a);
      if o.Threw? {
        return;
      }
      ghost var s2 := CurrentStep(a, s1.after);
      o := TakeCurrent(a);
      WrittenTwice(v0, s1.text, s2.text);
      if o.Threw? {
        return;
      }
      ghost var s3 := PruneStep(a, s2.after);
      o := TakePrune(a);
      WrittenTwice(v0, s1.text + s2.text, s3.text);
    }

    // Each step as `run` takes it: `out(...)` announces it, then the step's method runs.

    method TakeInit(a: RunArgs) returns (o: Outcome)
      modifies this, fs, console
      ensures var st := InitStep(a, old(Here()));
        o == st.outcome && Here() == st.after && console.View() == Written(old(console.View()), st.text)
    {
      console.Write(CreatingDirectories);
      o := InitDirectories(a.deployDir);
      WrittenThenNothing(old(console.View()), CreatingDirectories);
    }

    method TakeRevision(a: RunArgs) returns (o: Outcome)
      modifies this, fs, console
      ensures var st := RevisionStep(a, old(Here()));
        o == st.outcome && Here() == st.after && console.View() == Written(old(console.View()), st.text)
    {
      console.Write(CreatingRevision);
      o := CreateRevisionDir(a.revision, a.now);
      WrittenThenNothing(old(console.View()), CreatingRevision);
    }

    method TakeCopy(a: RunArgs) returns (o: Outcome)
      modifies fs, console, errHandler
      ensures var st := CopyStep(a, old(Here()));
        o == st.outcome && Here() == st.after && console.View() == Written(old(console.View()), st.text)
    {
      var src := DeployPath([a.cacheDir]);
      console.Write(CopyingCache);
      ghost var c1 := Here();
      o := CopyCacheToRevision(src);
      assert Here() == CopyCacheEffect(src, c1).after;
      WrittenThenNothing(old(console.View()), CopyingCache);
    }

    method TakeLinks(a: RunArgs) returns (o: Outcome)
      modifies fs, console, errHandler
      ensures var st := LinksStep(a, old(Here()));
        o == st.outcome && Here() == st.after && console.View() == Written(old(console.View()), st.text)
    {
      ghost var v0 := console.View();
      console.Write(CreatingLinks);
      ghost var c1 := Here();
      o := CreateSymLinks(a.symLinks);
      WrittenTwice(v0, CreatingLinks, SymLinksEffect(a.symLinks, c1).text);
    }

    method TakeCurrent(a: RunArgs) returns (o: Outcome)
      modifies fs, console, errHandler
      ensures var st := CurrentStep(a, old(Here()));
        o == st.outcome && Here() == st.after && console.View() == Written(old(console.View()), st.text)
    {
      ghost var v0 := console.View();
      console.Write(Switching);
      ghost var c1 := Here();
      o := LinkCurrentRevision();
      WrittenTwice(v0, Switching, LinkCurrentEffect(c1).text);
    }

    method TakePrune(a: RunArgs) returns (o: Outcome)
      modifies fs, console
      ensures var st := PruneStep(a, old(Here()));
        o == st.outcome && Here() == st.after && console.View() == Written(old(console.View()), st.text)
    {
      console.Write(Pruning);
      o := PruneOldRevisions(a.keep);
      WrittenThenNothing(old(console.View()), Pruning);
    }

    /** `initDirectories($deployDir)`. */
    method InitDirectories(deployDir: string) returns (o: Outcome)
      modifies this, fs
      ensures var st := InitDirectoriesEffect(deployDir, old(Here()));
        o == st.outcome && Here() == st.after
    {
      deployPath := if fs.IsDir(deployDir) then RTrim(deployDir, Sep) else "";
      revisionDir := DeployPath([RevisionsName]);
      sharedDir := DeployPath([SharedName]);
      configDir := DeployPath([ConfigName]);
      if !fs.IsWritable(deployDir) {
        o := Threw(Runtime(DeployDirNotWritable(deployDir)));
        return;
      }
      o := MakeLayout();
    }

    /** The three `mkdir` guards of `initDirectories`, in order. */
    method MakeLayout() returns (o: Outcome)
      modifies fs
      ensures (o, fs.Snapshot()) == MakeAll(old(fs.Snapshot()), fs.env, Layout(Here()), true)
    {
      ghost var s0 := fs.Snapshot();
      ghost var ds := Layout(Here());
      ghost var d0, d1, d2 := ds[0], ds[1], ds[2];
      assert ds == [d0] + ([d1] + ([d2] + []));
      MakeAllStep(s0, fs.env, d0, [d1] + ([d2] + []), true);
      o := MakeMissingDirectory(fs, revisionDir, true, NoRevisionsDir);
      if o.Threw? {
        return;
      }
      ghost var s1 := fs.Snapshot();
      MakeAllStep(s1, fs.env, d1, [d2] + [], true);
      o := MakeMissingDirectory(fs, sharedDir, true, NoSharedDir);
      if o.Threw? {
        return;
      }
      ghost var s2 := fs.Snapshot();
      MakeAllStep(s2, fs.env, d2, [], true);
      o := MakeMissingDirectory(fs, configDir, true, NoConfigDir);
    }

    /** `createRevisionDir($revision)`. */
    method CreateRevisionDir(revision: string, now: nat) returns (o: Outcome)
      modifies this, fs
      ensures var st := CreateRevisionDirEffect(revision, now, old(Here()));
        o == st.outcome && Here() == st.after
    {
      revisionPath := BuildPath([revisionDir, revision]);
      if fs.Realpath(revisionPath).Some? {
        revisionPath := revisionPath + "-" + NatToDecimal(now);
      }
      o := MakeRevisionPath();
    }

    /** The second half of `createRevisionDir`: make the revision path when missing,
        then require a writable directory there. */
    method MakeRevisionPath() returns (o: Outcome)
      modifies fs
      ensures fs.Snapshot() == if old(fs.IsDir(revisionPath)) then old(fs.Snapshot())
                               else old(fs.Snapshot()).Mkdir(fs.env, revisionPath, true).1
      ensures o == RevisionDirOutcome(fs.Snapshot(), fs.env, revisionPath)
    {
      o := Done;
      if !fs.IsDir(revisionPath) {
        var made := fs.Mkdir(revisionPath, true);
        if !made && !fs.IsDir(revisionPath) {
          o := Threw(Runtime(RevisionDirNotMade(revisionPath)));
          return;
        }
      }
      if !fs.IsWritable(revisionPath) {
        o := Threw(Runtime(RevisionDirNotWritable(revisionPath)));
      }
    }

    /** `copyCacheToRevision($src)`, with the error handler active. On failure the message
        is built from the array `$output`, which PHP turns into "Array" with a warning
        that the handler collects; the handler stays active. */
    method CopyCacheToRevision(src: string) returns (o: Outcome)
      modifies fs, errHandler
      ensures var st := CopyCacheEffect(src, old(Here()));
        o == st.outcome && Here() == st.after
      ensures errHandler.active <==> o.Threw?
      ensures errHandler.message == (if o.Done? then "" else WarningNumber)
    {
      errHandler.Start();
      var ok := fs.CopyInto(src, revisionPath);
      if !ok {
        StripCallPrefixKeepsOthers(WarningNumber);
        errHandler.HandleError(WarningNumber);
        o := Threw(Runtime(CopyFailed));
        return;
      }
      errHandler.Stop();
      o := Done;
    }

    /** `createSymLinks($symLinks)`, with the error handler active. A failing link raises
        a `TypeError`, which the `catch (Exception $e)` around it does not catch; the
        warning `foreach` raises for something it cannot iterate goes to the handler. */
    method CreateSymLinks(symLinks: Json) returns (o: Outcome)
      modifies fs, console, errHandler
      ensures var st := SymLinksEffect(symLinks, old(Here()));
        o == st.outcome && Here() == st.after && console.View() == Written(old(console.View()), st.text)
      ensures errHandler.message == (if symLinks.Entries? then "" else WarningNumber)
      ensures errHandler.active <==> o.Threw?
    {
      errHandler.Start();
      if !symLinks.Entries? {
        StripCallPrefixKeepsOthers(WarningNumber);
        errHandler.HandleError(WarningNumber);
        errHandler.Stop();
        assert console.buffer + "" == console.buffer && console.shown + "" == console.shown;
        return Done;
      }
      var pairs := LinkPaths(deployPath, revisionPath, symLinks.pairs);
      o := LinkEach(pairs);
      if o.Done? {
        errHandler.Stop();
      }
    }

    /** The loop of `createSymLinks`: each pair is announced and linked, and the first
        failure ends it. */
    method LinkEach(pairs: seq<(string, string)>) returns (o: Outcome)
      modifies fs, console
      ensures var (n, s) := LinkAll(old(fs.Snapshot()), fs.env, pairs, true);
        fs.Snapshot() == s
        && o == (if n == |pairs| then Done else Threw(Fatal(ArrayArgument)))
        && console.Extends(old(console.buffer), old(console.shown), Announced(pairs[..if n == |pairs| then n else n + 1]))
      ensures console.buffering == old(console.buffering)
    {
      ghost var s0 := fs.Snapshot();
      ghost var b0, sh0 := console.buffer, console.shown;
      var i := 0;
      while i < |pairs|
        invariant 0 <= i <= |pairs|
        invariant LinkAll(s0, fs.env, pairs[..i], true) == (i, fs.Snapshot())
        invariant console.buffering == old(console.buffering)
        invariant console.Extends(b0, sh0, Announced(pairs[..i]))
      {
        o := LinkNext(s0, b0, sh0, pairs, i);
        if o.Threw? {
          return;
        }
        i := i + 1;
      }
      assert pairs[..i] == pairs;
      o := Done;
    }

    /** One pass of `LinkEach`, from the state after the first `i` pairs. */
    method LinkNext(ghost s0: State, ghost b0: string, ghost sh0: string, pairs: seq<(string, string)>, i: nat)
      returns (o: Outcome)
      requires i < |pairs|
      requires LinkAll(s0, fs.env, pairs[..i], true) == (i, fs.Snapshot())
      requires console.Extends(b0, sh0, Announced(pairs[..i]))
      modifies fs, console
      ensures console.buffering == old(console.buffering)
      ensures console.Extends(b0, sh0, Announced(pairs[..i + 1]))
      ensures o.Done? ==> LinkAll(s0, fs.env, pairs[..i + 1], true) == (i + 1, fs.Snapshot())
      ensures o.Threw? ==> o == Threw(Fatal(ArrayArgument)) && LinkAll(s0, fs.env, pairs, true) == (i, fs.Snapshot())
    {
      ghost var b1, sh1 := console.buffer, console.shown;
      ChainNext(s0, pairs, i, fs.Snapshot(), LinkStep(fs.env, true));
      o := LinkPair(pairs[i]);
      AppendedTwice(console.buffering, b0, sh0, b1, sh1, console.buffer, console.shown, Announced(pairs[..i]), LinkLine(pairs[i]));
      AnnouncedStep(pairs, i);
    }

    /** One pass of the loop of `createSymLinks`: announce the pair, then link it. */
    method LinkPair(pair: (string, string)) returns (o: Outcome)
      modifies fs, console
      ensures var (ok, s) := LinkOne(old(fs.Snapshot()), fs.env, pair.0, pair.1, true);
        fs.Snapshot() == s && o == (if ok then Done else Threw(Fatal(ArrayArgument)))
      ensures console.buffering == old(console.buffering)
      ensures console.Extends(old(console.buffer), old(console.shown), LinkLine(pair))
    {
      console.Write(LinkLine(pair));
      o := CreateSymLink(pair.0, pair.1);
    }

    /** `createSymLink($target, $linkName)`: acts only when the link path is a
        directory; `rm -rf` and `ln -sfn` then replace it by a link. A failure builds a
        `RuntimeException` from an array, which raises a `TypeError` instead. */
    method CreateSymLink(target: string, linkName: string) returns (o: Outcome)
      modifies fs
      ensures var (ok, s) := LinkOne(old(fs.Snapshot()), fs.env, target, linkName, true);
        fs.Snapshot() == s && o == (if ok then Done else Threw(Fatal(ArrayArgument)))
    {
      o := Done;
      if fs.IsDir(linkName) {
        var ok := fs.Relink(target, linkName);
        if !ok {
          o := Threw(Fatal(ArrayArgument));
        }
      }
    }

    /** `linkCurrentRevision()`, with the error handler active. */
    method LinkCurrentRevision() returns (o: Outcome)
      modifies fs, console, errHandler
      ensures var st := LinkCurrentEffect(old(Here()));
        o == st.outcome && Here() == st.after && console.View() == Written(old(console.View()), st.text)
      ensures errHandler.active <==> o.Threw?
      ensures errHandler.message == ""
    {
      errHandler.Start();
      var target := OrEmpty(fs.Realpath(revisionPath));
      var current := DeployPath(["current"]);
      console.Write(CurrentLinkLine(target, current));
      o := CreateSymLink(target, current);
      if o.Done? {
        errHandler.Stop();
      }
    }

    /** `pruneOldRevisions($revisionsToKeep)`. */
    method PruneOldRevisions(keep: ArgValue) returns (o: Outcome)
      modifies fs
      ensures var st := PruneEffect(keep, old(Here()));
        o == st.outcome && Here() == st.after
    {
      o := Done;
      if SignAgainstZero(keep) > 0 {
        match PlusInt(keep, 2) {
          case None =>
            o := Threw(Fatal(NonNumericOperand));
          case Some(sum) =>
            match WholeValue(sum) {
              case None =>
              case Some(from) =>
                var ok := fs.Prune(revisionDir, from, ChangeTime);
                if !ok {
                  o := Threw(Runtime(PruneFailed));
                }
            }
        }
      }
    }

    /** `cleanUp($result)`: after a failure, the buffered output is reported (quiet mode)
        and the revision uninstalled. */
    method CleanUp(result: bool)
      modifies fs, console
      ensures result ==> fs.Snapshot() == old(fs.Snapshot()) && console.View() == old(console.View())
      ensures !result ==>
        console.View() == (if quiet then ErrorsShown(old(console.View()), Identical) else old(console.View()))
      ensures !result ==> var rp := revisionPath;
        if Truthy(rp) && old(fs.IsDir(rp)) then Unlinked(old(fs.Snapshot()), fs.Snapshot(), rp)
        else fs.Snapshot() == old(fs.Snapshot())
    {
      if !result {
        if quiet {
          OutputErrors(console, Identical);
        }
        Uninstall();
      }
    }

    /** `uninstall()`: `unlink` of the revision path when it is set and a directory. */
    method Uninstall()
      modifies fs
      ensures var rp := revisionPath;
        if Truthy(rp) && old(fs.IsDir(rp)) then Unlinked(old(fs.Snapshot()), fs.Snapshot(), rp)
        else fs.Snapshot() == old(fs.Snapshot())
    {
      if Truthy(revisionPath) && fs.IsDir(revisionPath) {
        fs.Unlink(revisionPath);
      }
    }
  }

  // ---------------------------------------------------------------------------
  // process

  /** The five values `process` reads: each option's value, or its default. */
  function ScriptParams(argv: seq<string>, host: Host): Params {
    Params(
      GetOptValue("--deploy-dir", argv, Text(host.cwd)),
      GetOptValue("--deploy-cache-dir", argv, Text("deploy-cache")),
      GetOptValue("--revision", argv, Text(host.randomHex)),
      GetOptValue("--revisions-to-keep", argv, Number(10)),
      GetOptValue("--symlinks", argv, Text("{}")))
  }

  /** Without any of the five options on the command line, the deploy directory is the
      working directory, the cache is `deploy-cache`, the revision is the random hex
      string, 10 revisions are kept and there are no symlinks. */
  lemma ScriptDefaults(argv: seq<string>, host: Host)
    requires NoMatchBetween("--deploy-dir", argv, 0, |argv|) && NoMatchBetween("--deploy-cache-dir", argv, 0, |argv|)
    requires NoMatchBetween("--revision", argv, 0, |argv|) && NoMatchBetween("--symlinks", argv, 0, |argv|)
    ensures ScriptParams(argv, host) == Params(Text(host.cwd), Text("deploy-cache"), Text(host.randomHex), Number(10), Text("{}"))
  {
    assert NoMatchBetween("--revisions-to-keep", argv, 0, |argv|) by {
      forall k | 0 <= k < |argv| ensures !StartsWith(argv[k], "--revisions-to-keep") {
        assert !StartsWith(argv[k], "--revision");
        var long: string := "--revisions-to-keep";
        assert long[..10] == "--revision";
        if |long| <= |argv[k]| {
          assert argv[k][..10] == argv[k][..|long|][..10];
        }
      }
    }
  }

  /** The message `checkParams` prints for a failed check. */
  function ScriptMessage(p: Params, c: Complaint): string {
    match c
    case DeployDirMissing => DeployDirMissingMessage(p)
    case CacheDirMissing =>
      "The deploy cache directory (" + AsText(p.cacheDir) + ") does not exist. Please create it to continue."
    case NoRevision => NoRevisionMessage
    case BadRevisionsToKeep => BadRevisionsToKeepMessage
    case BadSymlinks => BadSymlinksMessage
  }

  function ScriptWording(p: Params): Complaint -> string {
    c => ScriptMessage(p, c)
  }

  /** The run `process` starts on the filesystem `s0` once the options are accepted: a
      fresh deployer whose deploy path is the deploy directory. */
  function Deployed(s0: State, env: Oracles, p: Params, host: Host): Run<Ctx> {
    var a := ArgsOf(p, host);
    RunSteps(Take, ScriptSteps(a), Ctx(env, s0, a.deployDir, "", "", "", ""))
  }

  /** `process($argv)`: `--help` ends the script at once with status 0; otherwise the
      options are read with their defaults and checked, a failed check ends it with
      status 1, and the deployment decides the rest. `useAnsi` is what `USE_ANSI` is
      defined to. */
  method Process(argv: seq<string>, host: Host, fs: FileSystem, console: Console) returns (useAnsi: bool, x: Exit)
    modifies fs, console
    ensures useAnsi == UseAnsi(argv, host.terminal)
    ensures "--help" in argv ==>
      x == Exit(0) && fs.Snapshot() == old(fs.Snapshot()) && console.View() == old(console.View())
    ensures "--help" !in argv ==>
      var p := ScriptParams(argv, host);
      var isDir, decodes := IsDirIn(old(fs.Snapshot())), Decodes(host.decode);
      (Complaints(isDir, decodes, p) != [] ==>
        x == Exit(1) && fs.Snapshot() == old(fs.Snapshot())
        && console.View() == Written(old(console.View()), Told(isDir, decodes, p, ScriptWording(p))))
      && (Complaints(isDir, decodes, p) == [] ==>
        var quiet := "--quiet" in argv;
        var run := Deployed(old(fs.Snapshot()), fs.env, p, host);
        x == ExitAfter(Verdict(run.outcomes)) && CleanedUp(run, fs.Snapshot())
        && console.View() == AfterRun(quiet, Opened(quiet, old(console.View())), run))
    ensures x == Exit(0) && "--help" !in argv ==>
      AllDone(Deployed(old(fs.Snapshot()), fs.env, ScriptParams(argv, host), host).outcomes, 6)
  {
    useAnsi := UseAnsi(argv, host.terminal);
    if "--help" in argv {
      x := Exit(0);
      return;
    }
    var quiet := "--quiet" in argv;
    var p := ScriptParams(argv, host);
    ghost var v0 := console.View();
    var ok := CheckParams(console, IsDirIn(fs.Snapshot()), Decodes(host.decode), p, ScriptWording(p));
    if !ok {
      x := Exit(1);
      return;
    }
    SilentExactlyWhenAccepted(IsDirIn(fs.Snapshot()), Decodes(host.decode), p, ScriptWording(p));
    assert v0.buffer + "" == v0.buffer && v0.shown + "" == v0.shown;
    x := Deploy(quiet, p, host, fs, console);
  }

  /** The end of `process`: a deployer is made and run on the values read, and the
      script exits as `run` decides. */
  method Deploy(quiet: bool, p: Params, host: Host, fs: FileSystem, console: Console) returns (x: Exit)
    modifies fs, console
    ensures var run := Deployed(old(fs.Snapshot()), fs.env, p, host);
      x == ExitAfter(Verdict(run.outcomes)) && CleanedUp(run, fs.Snapshot())
      && console.View() == AfterRun(quiet, Opened(quiet, old(console.View())), run)
    ensures x == Exit(0) ==> AllDone(Deployed(old(fs.Snapshot()), fs.env, p, host).outcomes, 6)
  {
    var deployer := new Deployer(quiet, fs, console);
    var a := ArgsOf(p, host);
    var result := deployer.Run(a);
    x := ExitAfter(result);
    RunSucceedsOnlyWhenAllStepsFinish(a, Ctx(fs.env, old(fs.Snapshot()), a.deployDir, "", "", "", ""));
  }
}
