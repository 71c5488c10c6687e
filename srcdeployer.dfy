/** src/Deployer.php: the deployer class of the packaged version. It differs from the
    single-file script in where the layout lives (under a base directory given to the
    constructor, not under the deploy directory), in the `mkdir` guards (a failed `mkdir`
    always throws), in replacing links unconditionally, and in `run`, which never
    assigns its result on success. */
module SrcDeployer {
  import opened Php
  import opened Paths
  import opened Fs
  import opened Output
  import opened ErrorHandling
  import opened Diagnostics
  import opened Deployment

  /** `$directories` as declared, before the constructor rewrites it: an ordered array
      of (key, directory) entries. */
  const DirectoryNames: seq<(string, string)> :=
    [("revisions", "revisions"), ("shared", "shared"), ("config", "shared/config")]

  // the positions of the keys `revisions`, `shared` and `config` in `$directories`
  const Revisions: nat := 0
  const Shared: nat := 1
  const Config: nat := 2

  /** `rtrim($directoryBase, '/') . '/' . $directory`. */
  function Prefixed(base: string, d: string): string {
    RTrim(base, Sep) + [Sep] + d
  }

  /** `$directories` once the constructor placed every entry under `base`. */
  function Directories(base: string): (m: seq<(string, string)>)
    ensures |m| == |DirectoryNames|
  {
    seq(|DirectoryNames|, j requires 0 <= j < |DirectoryNames| => (DirectoryNames[j].0, Prefixed(base, DirectoryNames[j].1)))
  }

  /** The configuration directory stays inside the shared one, whatever the base. */
  lemma ConfigInsideShared(base: string)
    ensures Directories(base)[Config].1 == Directories(base)[Shared].1 + "/config"
  {
    assert DirectoryNames[Config].1 == DirectoryNames[Shared].1 + "/config";
  }

  /** Trailing separators of the base make no difference. */
  lemma BaseTrailingSeparatorIgnored(base: string)
    ensures Directories(base + [Sep]) == Directories(base)
  {
    RTrimAppendSep(base);
  }

  /** With the default base `''` the layout is at the root of the filesystem, whatever
      the deploy directory is. */
  lemma DefaultBaseIsRoot()
    ensures Directories("") == [("revisions", "/revisions"), ("shared", "/shared"), ("config", "/shared/config")]
  {
    var d := Directories("");
    assert RTrim("", Sep) == "";
    assert Prefixed("", "revisions") == "" + [Sep] + "revisions" == "/revisions";
    assert Prefixed("", "shared") == "" + [Sep] + "shared" == "/shared";
    assert Prefixed("", "shared/config") == "" + [Sep] + "shared/config" == "/shared/config";
    assert d[Revisions] == ("revisions", "/revisions");
    assert d[Shared] == ("shared", "/shared");
    assert d[Config] == ("config", "/shared/config");
  }

  /** The loop of the constructor: each entry of `$directories`, in turn, is placed
      under `base`. */
  method PlaceUnder(base: string) returns (dirs: seq<(string, string)>)
    ensures dirs == Directories(base)
  {
    dirs := DirectoryNames;
    var i := 0;
    while i < |dirs|
      invariant 0 <= i <= |dirs| == |DirectoryNames|
      invariant forall j :: 0 <= j < |dirs| ==>
                  dirs[j] == if j < i then Directories(base)[j] else DirectoryNames[j]
    {
      dirs := dirs[i := (dirs[i].0, Prefixed(base, dirs[i].1))];
      i := i + 1;
    }
  }

  // the progress lines `run` prints before each step
  const CreatingDirectories: string := "Creating atomic deployment directories ...\n"
  const CreatingRevision: string := "Creating new revision directory ...\n"
  const CopyingCache: string := "Copying deploy-cache to new revision directory ...\n"
  const CreatingLinks: string := "Creating symlinks within new revision directory ...\n"
  const Switching: string := "Switching over to latest revision...\n"
  const Pruning: string := "Pruning old revisions...\n"

  // the messages of the `RuntimeException`s the steps throw
  const NoRevisionsDir: string := "Could not create the revisions directory."
  const NoSharedDir: string := "Could not create the shared directory."
  const NoConfigDir: string := "Could not create config directory."
  /** Concatenating the array `$output` yields "Array". */
  const CopyFailed: string := "Could not copy deploy cache to revision directory \"Array\"."
  const PruneFailed: string := "Could not prune old revisionsArray"

  /** The warning PHP raises when it turns the array `$output` into a string; the
      handler registered here receives it as its second argument, the message. */
  const ArrayToString: string := "Array to string conversion"

  function DeployDirNotWriteable(d: string): string {
    "The deploy directory \"" + d + "\" is not writeable."
  }

  function RevisionDirNotMade(p: string): string {
    "Could not create the revision directory \"" + p + "\"."
  }

  function RevisionDirNotWritable(p: string): string {
    "The revision directory \"" + p + "\" is not writable."
  }

  /** `createRevisionDir` once the revision path is fixed: make it when missing (a single
      level, and any failed `mkdir` throws), then require a writable directory. */
  function MakeRevisionDirectory(s: State, env: Oracles, p: string): (Outcome, State) {
    var (made, s1) := if s.IsDir(p) then (true, s) else s.Mkdir(env, p, false);
    if !made then (Threw(Runtime(RevisionDirNotMade(p))), s1)
    else if !s1.IsWritable(env, p) then (Threw(Runtime(RevisionDirNotWritable(p))), s1)
    else (Done, s1)
  }

  /** Making the revision directory adds at most that directory, and it finishes only
      with a writable directory at the revision path. A `mkdir` that loses a race
      throws although the directory is there. */
  lemma MakeRevisionDirectoryEffect(s: State, env: Oracles, p: string)
    ensures var (o, s1) := MakeRevisionDirectory(s, env, p);
      s1.links == s.links && s.dirs <= s1.dirs <= s.dirs + {Canon(p)}
      && (o.Done? <==> s1.IsWritable(env, p) && (s.IsDir(p) || env.fate(Canon(p)) == Made))
  {
  }

  // ---------------------------------------------------------------------------
  // the run as a function of the state it starts from

  /** What the deployer works with between steps: the system's answers, the filesystem,
      the three directories of `$directories`, and the paths it has set. */
  datatype Ctx = Ctx(env: Oracles, fs: State, revisionsDir: string, sharedDir: string, configDir: string,
                     deployPath: string, revisionPath: string)

  /** The state a deployer whose `$directories` are `dirs` starts from: neither path is
      set, and an unset path is falsy like "". */
  function Fresh(env: Oracles, s: State, dirs: seq<(string, string)>): Ctx
    requires |dirs| == |DirectoryNames|
  {
    Ctx(env, s, dirs[Revisions].1, dirs[Shared].1, dirs[Config].1, "", "")
  }

  /** The three directories with the message a failure to make each throws. */
  function Layout(c: Ctx): seq<(string, string)> {
    [(c.revisionsDir, NoRevisionsDir), (c.sharedDir, NoSharedDir), (c.configDir, NoConfigDir)]
  }

  /** `initDirectories($deployDir)`: sets the deploy path, refuses an unwritable deploy
      directory before making anything, then makes whichever of the three directories
      is missing; any failed `mkdir` throws. */
  function InitDirectoriesEffect(deployDir: string, c: Ctx): Stepped<Ctx> {
    var c1 := c.(deployPath := if c.fs.IsDir(deployDir) then RTrim(deployDir, Sep) else "");
    if !c.fs.IsWritable(c.env, deployDir) then Stepped(Threw(Runtime(DeployDirNotWriteable(deployDir))), c1, "")
    else
      var (o, s) := MakeAll(c.fs, c.env, Layout(c), false);
      Stepped(o, c1.(fs := s), "")
  }

  /** The revision path `createRevisionDir` picks: `<revisions>/<revision>` without
      trailing separators, with `-<now>` appended when that resolves to a directory. */
  function RevisionPathFor(c: Ctx, revision: string, now: nat): string {
    var p := RTrim(c.revisionsDir + [Sep] + revision, Sep);
    if c.fs.Realpath(p).Some? then p + "-" + NatToDecimal(now) else p
  }

  /** `createRevisionDir($revision)`. */
  function CreateRevisionDirEffect(revision: string, now: nat, c: Ctx): Stepped<Ctx> {
    var rp := RevisionPathFor(c, revision, now);
    var (o, s) := MakeRevisionDirectory(c.fs, c.env, rp);
    Stepped(o, c.(fs := s, revisionPath := rp), "")
  }

  /** `copyCacheToRevision($deployCacheDir)`: `cp -a` of the cache directory, as given,
      into the revision. */
  function CopyCacheEffect(cacheDir: string, c: Ctx): Stepped<Ctx> {
    var (ok, s) := c.fs.CopyInto(c.env, cacheDir, c.revisionPath);
    Stepped(if ok then Done else Threw(Runtime(CopyFailed)), c.(fs := s), "")
  }

  /** `createSymLinks($symLinks)`: for each entry in order, the link
      `revisionPath/<link>` is made to point at `deployPath/<target>`, replacing what was
      there, until one fails, which raises a `TypeError`. Something other than an
      object or array is not iterated. */
  function SymLinksEffect(symLinks: Json, c: Ctx): Stepped<Ctx> {
    if !symLinks.Entries? then Stepped(Done, c, "")
    else
      var pairs := LinkPaths(c.deployPath, c.revisionPath, symLinks.pairs);
      var (n, s) := LinkAll(c.fs, c.env, pairs, false);
      Stepped(if n == |pairs| then Done else Threw(Fatal(ArrayArgument)), c.(fs := s), "")
  }

  /** The link `linkCurrentRevision` replaces: `current` in the deploy path. */
  function CurrentLink(c: Ctx): string {
    c.deployPath + [Sep] + "current"
  }

  /** `linkCurrentRevision()`: `current` is pointed at the revision path as it was set,
      not resolved. */
  function LinkCurrentEffect(c: Ctx): Stepped<Ctx> {
    var (ok, s) := LinkOne(c.fs, c.env, c.revisionPath, CurrentLink(c), false);
    Stepped(if ok then Done else Threw(Fatal(ArrayArgument)), c.(fs := s), "")
  }

  /** The directory `pruneOldRevisions` lists: the revisions directory of
      `$directories`, after the deploy path and a separator. */
  function PruneDir(c: Ctx): string {
    c.deployPath + [Sep] + c.revisionsDir
  }

  /** `pruneOldRevisions($revisionsToKeep)`. */
  function PruneEffect(keep: ArgValue, c: Ctx): Stepped<Ctx> {
    var (o, s) := PruneRevisions(c.fs, c.env, PruneDir(c), keep, ModificationTime, PruneFailed);
    Stepped(o, c.(fs := s), "")
  }

  // The six steps of `run`, each announced as `run` announces it, as functions of the
  // values `run` is called with and the state the step starts from.

  function InitStep(a: RunArgs, c: Ctx): Stepped<Ctx> {
    Announcing(CreatingDirectories, InitDirectoriesEffect(a.deployDir, c))
  }

  function RevisionStep(a: RunArgs, c: Ctx): Stepped<Ctx> {
    Announcing(CreatingRevision, CreateRevisionDirEffect(a.revision, a.now, c))
  }

  function CopyStep(a: RunArgs, c: Ctx): Stepped<Ctx> {
    Announcing(CopyingCache, CopyCacheEffect(a.cacheDir, c))
  }

  function LinksStep(a: RunArgs, c: Ctx): Stepped<Ctx> {
    Announcing(CreatingLinks, SymLinksEffect(a.symLinks, c))
  }

  function CurrentStep(a: RunArgs, c: Ctx): Stepped<Ctx> {
    Announcing(Switching, LinkCurrentEffect(c))
  }

  function PruneStep(a: RunArgs, c: Ctx): Stepped<Ctx> {
    Announcing(Pruning, PruneEffect(a.keep, c))
  }

  /** A step of `run` with the values `run` was called with. */
  datatype Call = Call(step: (RunArgs, Ctx) -> Stepped<Ctx>, a: RunArgs)

  /** What a step does from the state `c`. */
  function Take(call: Call, c: Ctx): Stepped<Ctx> {
    call.step(call.a, c)
  }

  /** The first three steps of `run`: the layout, the revision directory, its contents. */
  function PrepareSteps(a: RunArgs): seq<Call> {
    [Call(InitStep, a), Call(RevisionStep, a), Call(CopyStep, a)]
  }

  /** The last three steps of `run`: the links, the switch to the revision, the pruning. */
  function SwitchSteps(a: RunArgs): seq<Call> {
    [Call(LinksStep, a), Call(CurrentStep, a), Call(PruneStep, a)]
  }

  /** The first three steps run one after another, each only when the one before it
      finished. */
  lemma PrepareRun(a: RunArgs, c: Ctx)
    ensures var run := RunSteps(Take, PrepareSteps(a), c);
      var s1 := InitStep(a, c);
      if s1.outcome.Threw? then run == Run([s1.outcome], s1.after, s1.text)
      else
        var s2 := RevisionStep(a, s1.after);
        if s2.outcome.Threw? then run == Run([s1.outcome, s2.outcome], s2.after, s1.text + s2.text)
        else
          var s3 := CopyStep(a, s2.after);
          run == Run([s1.outcome, s2.outcome, s3.outcome], s3.after, s1.text + s2.text + s3.text)
  {
    RunThree(Take, Call(InitStep, a), Call(RevisionStep, a), Call(CopyStep, a), c);
  }

  /** The last three steps run one after another, each only when the one before it
      finished. */
  lemma SwitchRun(a: RunArgs, c: Ctx)
    ensures var run := RunSteps(Take, SwitchSteps(a), c);
      var s1 := LinksStep(a, c);
      if s1.outcome.Threw? then run == Run([s1.outcome], s1.after, s1.text)
      else
        var s2 := CurrentStep(a, s1.after);
        if s2.outcome.Threw? then run == Run([s1.outcome, s2.outcome], s2.after, s1.text + s2.text)
        else
          var s3 := PruneStep(a, s2.after);
          run == Run([s1.outcome, s2.outcome, s3.outcome], s3.after, s1.text + s2.text + s3.text)
  {
    RunThree(Take, Call(LinksStep, a), Call(CurrentStep, a), Call(PruneStep, a), c);
  }

  /** The six steps of `run`'s `try`. */
  function SrcSteps(a: RunArgs): seq<Call> {
    PrepareSteps(a) + SwitchSteps(a)
  }

  /** How `run` ends, given the outcomes of the steps it reached: when every step
      finished, `$result` was never assigned. */
  function Verdict(os: seq<Outcome>): RunResult
    requires os != []
  {
    match os[|os| - 1]
    case Done => Unassigned
    case Threw(Runtime(_)) => Returned(false)
    case Threw(Fatal(m)) => Escaped(m)
  }

  /** Whether `cleanUp` runs: it does unless an `Error` escaped the `try`, and since an
      unassigned `$result` is null, it then always reports and uninstalls. */
  predicate CleansUp(run: Run<Ctx>)
    requires run.outcomes != []
  {
    !(Last(run).Threw? && Last(run).failure.Fatal?)
  }

  /** What the console shows once `run` is over: the text of the steps; unless an
      `Error` escaped, the buffered output reported (quiet mode), under loose comparison;
      after a `RuntimeException`, its message last. */
  function AfterRun(quiet: bool, v: Screen, run: Run<Ctx>): Screen
    requires run.outcomes != []
  {
    var v1 := Written(v, run.text);
    var v2 := if quiet && CleansUp(run) then ErrorsShown(v1, LooseEquals) else v1;
    match Last(run)
    case Threw(Runtime(m)) => Written(v2, m + "\n")
    case _ => v2
  }

  /** `cleanUp($result)` after the run: unless an `Error` escaped, `uninstall` attempts
      to unlink the revision path when it is set and a directory, after a finished run
      too; otherwise nothing changes. */
  predicate CleanedUp(run: Run<Ctx>, s: State)
    requires run.outcomes != []
  {
    var rp := run.after.revisionPath;
    if CleansUp(run) && Truthy(rp) && run.after.fs.IsDir(rp) then Unlinked(run.after.fs, s, rp)
    else s == run.after.fs
  }

  /** `run` never returns true: a finished deployment leaves `$result` unassigned, and
      that happens exactly when all six steps finished. */
  lemma RunNeverReturnsTrue(a: RunArgs, c: Ctx)
    ensures var os := RunSteps(Take, SrcSteps(a), c).outcomes;
      Verdict(os) != Returned(true) && (Verdict(os) == Unassigned <==> AllDone(os, 6))
  {
    var steps := SrcSteps(a);
    RunStepsSucceeds(Take, steps, c);
    UnassignedWhenLastDone(RunSteps(Take, steps, c).outcomes, |steps|);
  }

  lemma UnassignedWhenLastDone(os: seq<Outcome>, n: nat)
    requires os != [] && (os[|os| - 1] == Done <==> AllDone(os, n))
    ensures Verdict(os) != Returned(true) && (Verdict(os) == Unassigned <==> AllDone(os, n))
  {
  }

  // ---------------------------------------------------------------------------
  // what a finished run leaves behind

  /** Where the run keeps the deploy path and the revisions directory. */
  predicate SamePaths(c: Ctx, d: Ctx) {
    d.deployPath == c.deployPath && d.revisionsDir == c.revisionsDir
  }

  /** A finished `initDirectories` leaves the three directories in place, under a deploy
      path without a trailing separator. */
  lemma InitLeavesLayout(a: RunArgs, c: Ctx)
    requires InitStep(a, c).outcome == Done
    ensures var c1 := InitStep(a, c).after;
      c1.fs.IsDir(c1.revisionsDir) && c1.fs.IsDir(c1.sharedDir) && c1.fs.IsDir(c1.configDir)
      && (c1.deployPath == [] || c1.deployPath[|c1.deployPath| - 1] != Sep)
      && SamePaths(c.(deployPath := c1.deployPath), c1)
  {
    var ds := Layout(c);
    MakeAllEffect(c.fs, c.env, ds, false);
    assert ds[0].0 == c.revisionsDir && ds[1].0 == c.sharedDir && ds[2].0 == c.configDir;
  }

  /** Every step after the first leaves the deploy path and the revisions directory. */
  lemma LaterStepsKeepPaths(a: RunArgs, c: Ctx)
    ensures SamePaths(c, RevisionStep(a, c).after) && SamePaths(c, CopyStep(a, c).after)
      && SamePaths(c, LinksStep(a, c).after) && SamePaths(c, CurrentStep(a, c).after)
  {
  }

  /** `dir/current` is shorter than the directory pruning lists, `dir/<base>/revisions`,
      whatever the base, so pruning the revisions never reaches the current link. */
  lemma CurrentAboveRevisions(dp: string, revisionsDir: string)
    requires dp == [] || dp[|dp| - 1] != Sep
    requires |revisionsDir| >= 10 && revisionsDir[|revisionsDir| - 10..] == "/revisions"
    ensures |Canon(dp + [Sep] + "current")| < |Canon(dp + [Sep] + revisionsDir)|
  {
    var current, revisions := "current", "revisions";
    assert forall k :: 0 <= k < |current| ==> current[k] != Sep;
    assert forall k :: 0 <= k < |revisions| ==> revisions[k] != Sep;
    assert revisionsDir[|revisionsDir| - 10..] == [Sep] + revisions;
    CanonJoinLength(dp, current);
    CanonEndingLength(dp, revisionsDir, revisions);
  }

  /** The revisions directory of `$directories` ends in `/revisions`. */
  lemma RevisionsDirEnds(base: string)
    ensures var r := Directories(base)[Revisions].1; |r| >= 10 && r[|r| - 10..] == "/revisions"
  {
    var r := Directories(base)[Revisions].1;
    assert r == RTrim(base, Sep) + [Sep] + "revisions";
  }

  /** A finished switch leaves `current` a link to the revision path as set. */
  lemma SwitchLinksCurrent(a: RunArgs, c: Ctx)
    requires CurrentStep(a, c).outcome == Done
    ensures var after := CurrentStep(a, c).after.fs;
      Canon(CurrentLink(c)) in after.links && after.links[Canon(CurrentLink(c))] == c.revisionPath
  {
    RelinkPointsAt(c.fs, c.env, c.revisionPath, CurrentLink(c));
  }

  /** Pruning spares every link no longer than the directory it lists. */
  lemma PruneSparesLinksAbove(a: RunArgs, c: Ctx, x: Path)
    requires |x| <= |Canon(PruneDir(c))| && x in c.fs.links
    ensures var end := PruneStep(a, c).after.fs; x in end.links && end.links[x] == c.fs.links[x]
  {
    PruneRevisionsSparesShallow(c.fs, c.env, PruneDir(c), a.keep, ModificationTime, PruneFailed, x);
  }

  /** The state after the first `k` steps of `run`. */
  function After(a: RunArgs, c: Ctx, k: nat): Ctx
    requires k <= 6
  {
    RunSteps(Take, SrcSteps(a)[..k], c).after
  }

  /** In a run where every step finished, the first leaves the directories in place. */
  lemma LayoutAfterInit(a: RunArgs, c: Ctx)
    requires AllDone(RunSteps(Take, SrcSteps(a), c).outcomes, 6)
    ensures var c1 := After(a, c, 1);
      c1.fs.IsDir(c1.revisionsDir) && c1.fs.IsDir(c1.sharedDir) && c1.fs.IsDir(c1.configDir)
      && (c1.deployPath == [] || c1.deployPath[|c1.deployPath| - 1] != Sep)
      && c1.revisionsDir == c.revisionsDir
  {
    var steps := SrcSteps(a);
    assert steps[..0] == [];
    RunStepsPrefixDone(Take, steps, c, 0);
    InitLeavesLayout(a, c);
  }

  /** In a run where every step finished, the second, third and fourth steps keep the
      deploy path and the revisions directory. */
  lemma PathsKeptInTurn(a: RunArgs, c: Ctx, k: nat)
    requires 1 <= k <= 3 && AllDone(RunSteps(Take, SrcSteps(a), c).outcomes, 6)
    ensures SamePaths(After(a, c, k), After(a, c, k + 1))
  {
    var steps := SrcSteps(a);
    RunStepsPrefixDone(Take, steps, c, k);
    LaterStepsKeepPaths(a, After(a, c, k));
  }

  /** In a run where every step finished, the paths are those the first step set until
      the switch. */
  lemma PathsKeptToSwitch(a: RunArgs, c: Ctx)
    requires AllDone(RunSteps(Take, SrcSteps(a), c).outcomes, 6)
    ensures SamePaths(After(a, c, 1), After(a, c, 4))
  {
    PathsKeptInTurn(a, c, 1);
    PathsKeptInTurn(a, c, 2);
    PathsKeptInTurn(a, c, 3);
  }

  /** In a run where every step finished, the switch keeps the paths. */
  lemma SwitchKeepsPaths(a: RunArgs, c: Ctx)
    requires AllDone(RunSteps(Take, SrcSteps(a), c).outcomes, 6)
    ensures SamePaths(After(a, c, 4), After(a, c, 5))
  {
    var steps := SrcSteps(a);
    RunStepsPrefixDone(Take, steps, c, 4);
    LaterStepsKeepPaths(a, After(a, c, 4));
  }

  /** In a run where every step finished, the fifth step links `current` to the
      revision path. */
  lemma SwitchAfterLinks(a: RunArgs, c: Ctx)
    requires AllDone(RunSteps(Take, SrcSteps(a), c).outcomes, 6)
    ensures var c4, c5 := After(a, c, 4), After(a, c, 5);
      Canon(CurrentLink(c4)) in c5.fs.links && c5.fs.links[Canon(CurrentLink(c4))] == c4.revisionPath
  {
    var steps := SrcSteps(a);
    RunStepsPrefixDone(Take, steps, c, 4);
    SwitchLinksCurrent(a, After(a, c, 4));
  }

  /** In a run where every step finished, the last step spares every link no longer
      than the directory it lists. */
  lemma PruneAfterSwitch(a: RunArgs, c: Ctx, x: Path)
    requires AllDone(RunSteps(Take, SrcSteps(a), c).outcomes, 6)
    requires |x| <= |Canon(PruneDir(After(a, c, 5)))| && x in After(a, c, 5).fs.links
    ensures var end := RunSteps(Take, SrcSteps(a), c).after.fs;
      x in end.links && end.links[x] == After(a, c, 5).fs.links[x]
  {
    var steps := SrcSteps(a);
    RunStepsPrefixDone(Take, steps, c, 5);
    assert steps[..6] == steps;
    PruneSparesLinksAbove(a, After(a, c, 5), x);
  }

  /** In a run where every step finished from a state whose revisions directory ends in
      `/revisions`, `current` at the switch is shorter than the directory pruning lists. */
  lemma CurrentAboveAtPrune(a: RunArgs, c: Ctx)
    requires AllDone(RunSteps(Take, SrcSteps(a), c).outcomes, 6)
    requires |c.revisionsDir| >= 10 && c.revisionsDir[|c.revisionsDir| - 10..] == "/revisions"
    ensures |Canon(CurrentLink(After(a, c, 4)))| < |Canon(PruneDir(After(a, c, 5)))|
  {
    LayoutAfterInit(a, c);
    PathsKeptToSwitch(a, c);
    SwitchKeepsPaths(a, c);
    CurrentAboveThroughout(c.revisionsDir, After(a, c, 1), After(a, c, 4), After(a, c, 5));
  }

  /** The paths, kept from `c1` to `c5`, put `current` above the pruned directory. */
  lemma CurrentAboveThroughout(revisionsDir: string, c1: Ctx, c4: Ctx, c5: Ctx)
    requires c1.deployPath == [] || c1.deployPath[|c1.deployPath| - 1] != Sep
    requires |revisionsDir| >= 10 && revisionsDir[|revisionsDir| - 10..] == "/revisions"
    requires c1.revisionsDir == revisionsDir && SamePaths(c1, c4) && SamePaths(c4, c5)
    ensures |Canon(CurrentLink(c4))| < |Canon(PruneDir(c5))|
  {
    CurrentAboveRevisions(c1.deployPath, revisionsDir);
  }

  /** When `run` leaves its result unassigned, every step finished: the directories of
      `$directories` were there once `initDirectories` finished, and at the end of the
      steps `current` points at the revision path, as `linkCurrentRevision` set it;
      pruning leaves it. */
  lemma SrcRunFinished(a: RunArgs, env: Oracles, s: State, base: string)
    requires Verdict(RunSteps(Take, SrcSteps(a), Fresh(env, s, Directories(base))).outcomes) == Unassigned
    ensures var c := Fresh(env, s, Directories(base)); var c1 := After(a, c, 1);
      c1.fs.IsDir(c1.revisionsDir) && c1.fs.IsDir(c1.sharedDir) && c1.fs.IsDir(c1.configDir)
    ensures var c := Fresh(env, s, Directories(base)); var c4 := After(a, c, 4);
      var end := RunSteps(Take, SrcSteps(a), c).after.fs;
      Canon(CurrentLink(c4)) in end.links && end.links[Canon(CurrentLink(c4))] == c4.revisionPath
  {
    var c := Fresh(env, s, Directories(base));
    RunNeverReturnsTrue(a, c);
    LayoutAfterInit(a, c);
    RevisionsDirEnds(base);
    CurrentSurvivesPrune(a, c);
  }

  /** In a run where every step finished, `current` ends up where the switch put it. */
  lemma CurrentSurvivesPrune(a: RunArgs, c: Ctx)
    requires AllDone(RunSteps(Take, SrcSteps(a), c).outcomes, 6)
    requires |c.revisionsDir| >= 10 && c.revisionsDir[|c.revisionsDir| - 10..] == "/revisions"
    ensures var c4 := After(a, c, 4); var end := RunSteps(Take, SrcSteps(a), c).after.fs;
      Canon(CurrentLink(c4)) in end.links && end.links[Canon(CurrentLink(c4))] == c4.revisionPath
  {
    SwitchAfterLinks(a, c);
    CurrentAboveAtPrune(a, c);
    PruneAfterSwitch(a, c, Canon(CurrentLink(After(a, c, 4))));
  }

  class Deployer {
    const quiet: bool
    const useAnsi: bool
    const fs: FileSystem
    const console: Console
    const errHandler: ErrorHandler
    /** `$directories` after the constructor; nothing changes it later. */
    const directories: seq<(string, string)>
    var deployPath: string
    var revisionPath: string

    /** Every key of `$directories` is there. */
    ghost predicate Valid() {
      |directories| == |DirectoryNames|
    }

    /** `new Deployer($quiet, $useAnsi, $directoryBase)`: in quiet mode output is buffered
        from now on; every entry of `$directories` is placed under the base, in turn. */
    constructor (quiet: bool, useAnsi: bool, directoryBase: string, fs: FileSystem, console: Console)
      modifies console
      ensures Valid() && directories == Directories(directoryBase)
      ensures this.quiet == quiet && this.useAnsi == useAnsi && this.fs == fs && this.console == console
      ensures fresh(errHandler) && !errHandler.active && errHandler.message == ""
      ensures Here() == Fresh(fs.env, fs.Snapshot(), Directories(directoryBase))
      ensures console.View() == Opened(quiet, old(console.View()))
    {
      this.quiet := quiet;
      var dirs := PlaceUnder(directoryBase);
      directories := dirs;
      this.useAnsi := useAnsi;
      errHandler := new ErrorHandler();
      this.fs := fs;
      this.console := console;
      deployPath, revisionPath := "", "";
      new;
      if quiet {
        console.StartBuffering();
      }
    }

    /** The state the run functions speak of. */
    function Here(): Ctx
      requires Valid()
      reads this, fs
    {
      Ctx(fs.env, fs.Snapshot(), directories[Revisions].1, directories[Shared].1, directories[Config].1,
          deployPath, revisionPath)
    }

    /** `run(...)`: the six steps in order, each only when the one before finished. A
        `RuntimeException` sets the result to false; then `cleanUp` runs on the result,
        which, never assigned on success, is null and so counts as a failure too; the
        message of a caught exception is printed last. An `Error` escapes at once. */
    method Run(a: RunArgs) returns (r: RunResult)
      requires Valid()
      modifies this, fs, console, errHandler
      ensures var run := RunSteps(Take, SrcSteps(a), old(Here()));
        r == Verdict(run.outcomes)
        && Here() == run.after.(fs := fs.Snapshot())
        && CleanedUp(run, fs.Snapshot())
        && console.View() == AfterRun(quiet, old(console.View()), run)
    {
      ghost var run := RunSteps(Take, SrcSteps(a), Here());
      var o := Steps(a);
      r := Conclude(run, old(console.View()), o);
    }

    /** The end of `run`, once the steps stopped with `o`: `cleanUp` unless an `Error`
        escaped, and after a `RuntimeException` its message, then the result. */
    method Conclude(ghost run: Run<Ctx>, ghost v: Screen, o: Outcome) returns (r: RunResult)
      requires Valid()
      requires run.outcomes != [] && o == Last(run) && Here() == run.after
      requires console.View() == Written(v, run.text)
      modifies fs, console
      ensures r == Verdict(run.outcomes)
        && Here() == run.after.(fs := fs.Snapshot())
        && CleanedUp(run, fs.Snapshot())
        && console.View() == AfterRun(quiet, v, run)
    {
      match o {
        case Done =>
          CleanUp(false);
          r := Unassigned;
        case Threw(Runtime(m)) =>
          CleanUp(false);
          console.Write(m + "\n");
          r := Returned(false);
        case Threw(Fatal(m)) =>
          r := Escaped(m);
      }
    }

    /** The body of `run`'s `try`: the six steps, each announced, until one throws. */
    method Steps(a: RunArgs) returns (o: Outcome)
      requires Valid()
      modifies this, fs, console, errHandler
      ensures var run := RunSteps(Take, SrcSteps(a), old(Here()));
        o == Last(run) && Here() == run.after && console.View() == Written(old(console.View()), run.text)
    {
      ghost var c0, v0 := Here(), console.View();
      ghost var p, q := PrepareSteps(a), SwitchSteps(a);
      ghost var r1 := RunSteps(Take, p, c0);
      o := Prepare(a);
      if o.Threw? {
        RunStepsAppendStopped(Take, p, q, c0);
        return;
      }
      RunStepsSucceeds(Take, p, c0);
      o := Switch(a);
      RunStepsAppend(Take, p, q, c0);
      WrittenTwice(v0, r1.text, RunSteps(Take, q, r1.after).text);
    }

    /** The first three steps: the layout, the revision directory and its contents. */
    method Prepare(a: RunArgs) returns (o: Outcome)
      requires Valid()
      modifies this, fs, console, errHandler
      ensures var run := RunSteps(Take, PrepareSteps(a), old(Here()));
        o == Last(run) && Here() == run.after && console.View() == Written(old(console.View()), run.text)
    {
      ghost var c0, v0 := Here(), console.View();
      PrepareRun(a, c0);
      ghost var s1 := InitStep(a, c0);
      o := TakeInit(a);
      if o.Threw? {
        return;
      }
      ghost var s2 := RevisionStep(a, s1.after);
      o := TakeRevision(a);
      WrittenTwice(v0, s1.text, s2.text);
      if o.Threw? {
        return;
      }
      ghost var s3 := CopyStep(a, s2.after);
      o := TakeCopy(a);
      WrittenTwice(v0, s1.text + s2.text, s3.text);
    }

    /** The last three steps: the links, the switch to the revision and the pruning. */
    method Switch(a: RunArgs) returns (o: Outcome)
      requires Valid()
      modifies fs, console, errHandler
      ensures var run := RunSteps(Take, SwitchSteps(a), old(Here()));
        o == Last(run) && Here() == run.after && console.View() == Written(old(console.View()), run.text)
    {
      ghost var c0, v0 := Here(), console.View();
      SwitchRun(a, c0);
      ghost var s1 := LinksStep(a, c0);
      o := TakeLinks(a);
      if o.Threw? {
        return;
      }
      ghost var s2 := CurrentStep(a, s1.after);
      o := TakeCurrent(a);
      WrittenTwice(v0, s1.text, s2.text);
      if o.Threw? {
        return;
      }
      ghost var s3 := PruneStep(a, s2.after);
      o := TakePrune(a);
      WrittenTwice(v0, s1.text + s2.text, s3.text);
    }

    // Each step as `run` takes it: `out(...)` announces it, then the step's method runs.

    method TakeInit(a: RunArgs) returns (o: Outcome)
      requires Valid()
      modifies this, fs, console
      ensures var st := InitStep(a, old(Here()));
        o == st.outcome && Here() == st.after && console.View() == Written(old(console.View()), st.text)
    {
      console.Write(CreatingDirectories);
      o := InitDirectories(a.deployDir);
      WrittenThenNothing(old(console.View()), CreatingDirectories);
    }

    method TakeRevision(a: RunArgs) returns (o: Outcome)
      requires Valid()
      modifies this, fs, console
      ensures var st := RevisionStep(a, old(Here()));
        o == st.outcome && Here() == st.after && console.View() == Written(old(console.View()), st.text)
    {
      console.Write(CreatingRevision);
      o := CreateRevisionDir(a.revision, a.now);
      WrittenThenNothing(old(console.View()), CreatingRevision);
    }

    method TakeCopy(a: RunArgs) returns (o: Outcome)
      requires Valid()
      modifies fs, console, errHandler
      ensures var st := CopyStep(a, old(Here()));
        o == st.outcome && Here() == st.after && console.View() == Written(old(console.View()), st.text)
    {
      console.Write(CopyingCache);
      o := CopyCacheToRevision(a.cacheDir);
      WrittenThenNothing(old(console.View()), CopyingCache);
    }

    method TakeLinks(a: RunArgs) returns (o: Outcome)
      requires Valid()
      modifies fs, console, errHandler
      ensures var st := LinksStep(a, old(Here()));
        o == st.outcome && Here() == st.after && console.View() == Written(old(console.View()), st.text)
    {
      console.Write(CreatingLinks);
      o := CreateSymLinks(a.symLinks);
      WrittenThenNothing(old(console.View()), CreatingLinks);
    }

    method TakeCurrent(a: RunArgs) returns (o: Outcome)
      requires Valid()
      modifies fs, console, errHandler
      ensures var st := CurrentStep(a, old(Here()));
        o == st.outcome && Here() == st.after && console.View() == Written(old(console.View()), st.text)
    {
      console.Write(Switching);
      o := LinkCurrentRevision();
      WrittenThenNothing(old(console.View()), Switching);
    }

    method TakePrune(a: RunArgs) returns (o: Outcome)
      requires Valid()
      modifies fs, console
      ensures var st := PruneStep(a, old(Here()));
        o == st.outcome && Here() == st.after && console.View() == Written(old(console.View()), st.text)
    {
      console.Write(Pruning);
      o := PruneOldRevisions(a.keep);
      WrittenThenNothing(old(console.View()), Pruning);
    }

    /** `initDirectories($deployDir)`. */
    method InitDirectories(deployDir: string) returns (o: Outcome)
      requires Valid()
      modifies this, fs
      ensures var st := InitDirectoriesEffect(deployDir, old(Here()));
        o == st.outcome && Here() == st.after
    {
      deployPath := if fs.IsDir(deployDir) then RTrim(deployDir, Sep) else "";
      if !fs.IsWritable(deployDir) {
        o := Threw(Runtime(DeployDirNotWriteable(deployDir)));
        return;
      }
      o := MakeLayout();
    }

    /** The three `mkdir` guards of `initDirectories`, in order. */
    method MakeLayout() returns (o: Outcome)
      requires Valid()
      modifies fs
      ensures (o, fs.Snapshot()) == MakeAll(old(fs.Snapshot()), fs.env, Layout(old(Here())), false)
    {
      ghost var s0 := fs.Snapshot();
      ghost var ds := Layout(Here());
      ghost var d0, d1, d2 := ds[0], ds[1], ds[2];
      assert ds == [d0] + ([d1] + ([d2] + []));
      MakeAllStep(s0, fs.env, d0, [d1] + ([d2] + []), false);
      o := MakeMissingDirectory(fs, directories[Revisions].1, false, NoRevisionsDir);
      if o.Threw? {
        return;
      }
      ghost var s1 := fs.Snapshot();
      MakeAllStep(s1, fs.env, d1, [d2] + [], false);
      o := MakeMissingDirectory(fs, directories[Shared].1, false, NoSharedDir);
      if o.Threw? {
        return;
      }
      ghost var s2 := fs.Snapshot();
      MakeAllStep(s2, fs.env, d2, [], false);
      o := MakeMissingDirectory(fs, directories[Config].1, false, NoConfigDir);
    }

    /** `createRevisionDir($revision)`. */
    method CreateRevisionDir(revision: string, now: nat) returns (o: Outcome)
      requires Valid()
      modifies this, fs
      ensures var st := CreateRevisionDirEffect(revision, now, old(Here()));
        o == st.outcome && Here() == st.after
    {
      revisionPath := directories[Revisions].1 + [Sep] + revision;
      revisionPath := RTrim(revisionPath, Sep);
      if fs.Realpath(revisionPath).Some? {
        revisionPath := revisionPath + "-" + NatToDecimal(now);
      }
      o := MakeRevisionPath();
    }

    /** The second half of `createRevisionDir`, on the revision path as set. */
    method MakeRevisionPath() returns (o: Outcome)
      modifies fs
      ensures (o, fs.Snapshot()) == MakeRevisionDirectory(old(fs.Snapshot()), fs.env, revisionPath)
    {
      if !fs.IsDir(revisionPath) {
        var made := fs.Mkdir(revisionPath, false);
        if !made {
          return Threw(Runtime(RevisionDirNotMade(revisionPath)));
        }
      }
      if !fs.IsWritable(revisionPath) {
        return Threw(Runtime(RevisionDirNotWritable(revisionPath)));
      }
      o := Done;
    }

    /** `copyCacheToRevision($deployCacheDir)`, with the error handler active. On failure
        the message is built from the array `$output`, which PHP turns into "Array" with
        a warning that the handler collects; the handler stays active. */
    method CopyCacheToRevision(cacheDir: string) returns (o: Outcome)
      requires Valid()
      modifies fs, errHandler
      ensures var st := CopyCacheEffect(cacheDir, old(Here()));
        o == st.outcome && Here() == st.after
      ensures errHandler.active <==> o.Threw?
      ensures errHandler.message == (if o.Done? then "" else ArrayToString)
    {
      errHandler.Start();
      var ok := fs.CopyInto(cacheDir, revisionPath);
      if !ok {
        assert ArrayToString[0] != CallPrefix[0];
        StripCallPrefixKeepsOthers(ArrayToString);
        errHandler.HandleError(ArrayToString);
        return Threw(Runtime(CopyFailed));
      }
      errHandler.Stop();
      o := Done;
    }

    /** `createSymLinks($symLinks)`, with the error handler active. A failing link raises
        a `TypeError`, which the `catch (Exception $e)` around it does not catch; the
        warning `foreach` raises for something it cannot iterate goes to the handler. */
    method CreateSymLinks(symLinks: Json) returns (o: Outcome)
      requires Valid()
      modifies fs, errHandler
      ensures var st := SymLinksEffect(symLinks, old(Here()));
        o == st.outcome && Here() == st.after
      ensures errHandler.message == (if symLinks.Entries? then "" else ForeachWarning(symLinks))
      ensures errHandler.active <==> o.Threw?
    {
      errHandler.Start();
      if !symLinks.Entries? {
        assert ForeachWarning(symLinks)[1] == "foreach()"[1] != CallPrefix[1];
        StripCallPrefixKeepsOthers(ForeachWarning(symLinks));
        errHandler.HandleError(ForeachWarning(symLinks));
        errHandler.Stop();
        return Done;
      }
      var pairs := LinkPaths(deployPath, revisionPath, symLinks.pairs);
      o := LinkEach(pairs);
      if o.Done? {
        errHandler.Stop();
      }
    }

    /** The loop of `createSymLinks`: each pair is linked, and the first failure ends it. */
    method LinkEach(pairs: seq<(string, string)>) returns (o: Outcome)
      modifies fs
      ensures var (n, s) := LinkAll(old(fs.Snapshot()), fs.env, pairs, false);
        fs.Snapshot() == s && o == (if n == |pairs| then Done else Threw(Fatal(ArrayArgument)))
    {
      ghost var s0 := fs.Snapshot();
      var i := 0;
      while i < |pairs|
        invariant 0 <= i <= |pairs|
        invariant LinkAll(s0, fs.env, pairs[..i], false) == (i, fs.Snapshot())
      {
        ChainNext(s0, pairs, i, fs.Snapshot(), LinkStep(fs.env, false));
        o := CreateSymLink(pairs[i].0, pairs[i].1);
        if o.Threw? {
          return;
        }
        i := i + 1;
      }
      assert pairs[..i] == pairs;
      o := Done;
    }

    /** `createSymLink($target, $linkName)`: `rm -rf` and `ln -sfn` replace whatever is at
        the link path by a link. A failure builds a `RuntimeException` from an array,
        which raises a `TypeError` instead. */
    method CreateSymLink(target: string, linkName: string) returns (o: Outcome)
      modifies fs
      ensures var (ok, s) := LinkOne(old(fs.Snapshot()), fs.env, target, linkName, false);
        fs.Snapshot() == s && o == (if ok then Done else Threw(Fatal(ArrayArgument)))
    {
      var ok := fs.Relink(target, linkName);
      o := if ok then Done else Threw(Fatal(ArrayArgument));
    }

    /** `linkCurrentRevision()`: when the link was made the handler is stopped, although
        this step never started it. */
    method LinkCurrentRevision() returns (o: Outcome)
      requires Valid()
      modifies fs, errHandler
      ensures var st := LinkCurrentEffect(old(Here()));
        o == st.outcome && Here() == st.after
      ensures o.Done? ==> !errHandler.active
      ensures o.Threw? ==> errHandler.active == old(errHandler.active)
      ensures errHandler.message == old(errHandler.message)
    {
      var current := deployPath + [Sep] + "current";
      o := CreateSymLink(revisionPath, current);
      if o.Done? {
        errHandler.Stop();
      }
    }

    /** `pruneOldRevisions($revisionsToKeep)`, on `<deploy path>/<revisions directory>`. */
    method PruneOldRevisions(keep: ArgValue) returns (o: Outcome)
      requires Valid()
      modifies fs
      ensures var st := PruneEffect(keep, old(Here()));
        o == st.outcome && Here() == st.after
    {
      o := Done;
      if SignAgainstZero(keep) > 0 {
        var revisionsDir := deployPath + [Sep] + directories[Revisions].1;
        match PlusInt(keep, 2) {
          case None =>
            o := Threw(Fatal(NonNumericOperand));
          case Some(sum) =>
            match WholeValue(sum) {
              case None =>
              case Some(from) =>
                var ok := fs.Prune(revisionsDir, from, ModificationTime);
                if !ok {
                  o := Threw(Runtime(PruneFailed));
                }
            }
        }
      }
    }

    /** `cleanUp($result)`: unless the result is truthy, the buffered output is reported
        (quiet mode), under loose comparison, and the revision uninstalled. */
    method CleanUp(result: bool)
      modifies fs, console
      ensures result ==> fs.Snapshot() == old(fs.Snapshot()) && console.View() == old(console.View())
      ensures !result ==>
        console.View() == (if quiet then ErrorsShown(old(console.View()), LooseEquals) else old(console.View()))
      ensures !result ==> var rp := revisionPath;
        if Truthy(rp) && old(fs.IsDir(rp)) then Unlinked(old(fs.Snapshot()), fs.Snapshot(), rp)
        else fs.Snapshot() == old(fs.Snapshot())
    {
      if !result {
        if quiet {
          OutputErrors(console, LooseEquals);
        }
        Uninstall();
      }
    }

    /** `uninstall()`: `unlink` of the revision path when it is set and a directory. */
    method Uninstall()
      modifies fs
      ensures var rp := revisionPath;
        if Truthy(rp) && old(fs.IsDir(rp)) then Unlinked(old(fs.Snapshot()), fs.Snapshot(), rp)
        else fs.Snapshot() == old(fs.Snapshot())
    {
      if Truthy(revisionPath) && fs.IsDir(revisionPath) {
        fs.Unlink(revisionPath);
      }
    }
  }
}
