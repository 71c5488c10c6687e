/** src/AtomicDeploy.php: the entry point of the packaged version. It reads the options
    as the single-file script does, with its own defaults, but takes the cache directory
    from `--deploy-dir` and treats the answer of `checkParams` the other way round: a
    configuration that passes every check ends the script with status 1, and one that
    fails a check goes on to deploy. */
module SrcAtomicDeploy {
  import opened Php
  import opened Fs
  import opened Output
  import opened Options
  import opened Deployment
  import SrcDeployer

  /** The five values `process` reads: each option's value, or its default. The cache
      directory is read from `--deploy-dir`. */
  function SrcParams(argv: seq<string>, host: Host): Params {
    Params(
      GetOptValue("--deploy-dir", argv, Text(host.cwd)),
      GetOptValue("--deploy-dir", argv, Text("deploy-cache")),
      GetOptValue("--revision", argv, False),
      GetOptValue("--revisions-to-keep", argv, Number(5)),
      GetOptValue("--symlinks", argv, Text("{}")))
  }

  /** So a deploy directory given on the command line is also the cache directory;
      without one the cache directory is `deploy-cache`. */
  lemma CacheDirFollowsDeployDir(argv: seq<string>, host: Host)
    ensures (exists k :: 0 <= k < |argv| && StartsWith(argv[k], "--deploy-dir")) ==>
              SrcParams(argv, host).cacheDir == SrcParams(argv, host).deployDir
    ensures (forall k :: 0 <= k < |argv| ==> !StartsWith(argv[k], "--deploy-dir")) ==>
              SrcParams(argv, host).cacheDir == Text("deploy-cache")
  {
    DefaultOnlyWhenAbsent("--deploy-dir", argv, Text(host.cwd), Text("deploy-cache"));
  }

  /** Without any of the options on the command line, the revision is `false`, so the
      revision check fails and `process` goes on to deploy; 5 revisions are kept. */
  lemma SrcDefaults(argv: seq<string>, host: Host, isDir: string -> bool, decodes: string -> bool)
    requires NoMatchBetween("--deploy-dir", argv, 0, |argv|) && NoMatchBetween("--revision", argv, 0, |argv|)
    requires NoMatchBetween("--symlinks", argv, 0, |argv|)
    ensures SrcParams(argv, host) == Params(Text(host.cwd), Text("deploy-cache"), False, Number(5), Text("{}"))
    ensures NoRevision in Complaints(isDir, decodes, SrcParams(argv, host))
  {
    assert NoMatchBetween("--revisions-to-keep", argv, 0, |argv|) by {
      forall k | 0 <= k < |argv| ensures !StartsWith(argv[k], "--revisions-to-keep") {
        assert !StartsWith(argv[k], "--revision");
        var long: string := "--revisions-to-keep";
        assert long[..10] == "--revision";
        if |long| <= |argv[k]| {
          assert argv[k][..10] == argv[k][..|long|][..10];
        }
      }
    }
    ComplaintsMeaning(isDir, decodes, SrcParams(argv, host), NoRevision);
  }

  /** The message `checkParams` prints for a failed check. */
  function SrcMessage(p: Params, c: Complaint): string {
    match c
    case DeployDirMissing => DeployDirMissingMessage(p)
    case CacheDirMissing => "The defined deploy cache dir (" + AsText(p.cacheDir) + ") does not exist."
    case NoRevision => NoRevisionMessage
    case BadRevisionsToKeep => BadRevisionsToKeepMessage
    case BadSymlinks => BadSymlinksMessage
  }

  function SrcWording(p: Params): Complaint -> string {
    c => SrcMessage(p, c)
  }

  /** `in_array($flag, $argv)` compares loosely; for a flag that is not a numeric string
      that is plain equality. */
  lemma FlagLookupIsStrict(arg: string, flag: string)
    requires NumericString(flag).None?
    ensures LooseEquals(arg, flag) <==> arg == flag
  {
  }

  /** The run `process` starts on the filesystem `s0` once it decides to deploy: a
      fresh `Deployer` with the base `''`, so with its directories at the root. */
  function SrcDeployed(s0: State, env: Oracles, p: Params, host: Host): Run<SrcDeployer.Ctx> {
    RunSteps(SrcDeployer.Take, SrcDeployer.SrcSteps(ArgsOf(p, host)), SrcDeployer.Fresh(env, s0, SrcDeployer.Directories("")))
  }

  /** `process($argv)`: `--help` ends the script at once with status 0. Otherwise the
      options are read with their defaults and checked; when every check passes the
      script ends with status 1 having printed nothing, and when one fails, after its
      message, the deployment runs with the values as read and decides the status,
      which is never 0. `useAnsi` is what `USE_ANSI` is defined to. */
  method Process(argv: seq<string>, host: Host, fs: FileSystem, console: Console) returns (useAnsi: bool, x: Exit)
    modifies fs, console
    ensures useAnsi == UseAnsi(argv, host.terminal)
    ensures x == Exit(0) <==> "--help" in argv
    ensures "--help" in argv ==> fs.Snapshot() == old(fs.Snapshot()) && console.View() == old(console.View())
    ensures "--help" !in argv ==>
      var p := SrcParams(argv, host);
      var isDir, decodes := IsDirIn(old(fs.Snapshot())), Decodes(host.decode);
      (Complaints(isDir, decodes, p) == [] ==>
        x == Exit(1) && fs.Snapshot() == old(fs.Snapshot()) && console.View() == old(console.View()))
      && (Complaints(isDir, decodes, p) != [] ==>
        var quiet := "--quiet" in argv;
        var told := Written(old(console.View()), Told(isDir, decodes, p, SrcWording(p)));
        var run := SrcDeployed(old(fs.Snapshot()), fs.env, p, host);
        x == ExitAfter(SrcDeployer.Verdict(run.outcomes)) && SrcDeployer.CleanedUp(run, fs.Snapshot())
        && console.View() == SrcDeployer.AfterRun(quiet, Opened(quiet, told), run))
  {
    useAnsi := UseAnsi(argv, host.terminal);
    if "--help" in argv {
      x := Exit(0);
      return;
    }
    var quiet := "--quiet" in argv;
    var p := SrcParams(argv, host);
    ghost var v0 := console.View();
    var ok := CheckParams(console, IsDirIn(fs.Snapshot()), Decodes(host.decode), p, SrcWording(p));
    if ok {
      SilentExactlyWhenAccepted(IsDirIn(fs.Snapshot()), Decodes(host.decode), p, SrcWording(p));
      assert v0.buffer + "" == v0.buffer && v0.shown + "" == v0.shown;
      x := Exit(1);
      return;
    }
    x := Deploy(quiet, p, host, fs, console);
  }

  /** The end of `process`: `new Deployer($quiet)`, with ANSI colours and the base `''`,
      is run on the values read, and the script exits as `run` decides, never with
      status 0, since `run` never returns true. */
  method Deploy(quiet: bool, p: Params, host: Host, fs: FileSystem, console: Console) returns (x: Exit)
    modifies fs, console
    ensures var run := SrcDeployed(old(fs.Snapshot()), fs.env, p, host);
      x == ExitAfter(SrcDeployer.Verdict(run.outcomes)) && SrcDeployer.CleanedUp(run, fs.Snapshot())
      && console.View() == SrcDeployer.AfterRun(quiet, Opened(quiet, old(console.View())), run)
    ensures x != Exit(0)
  {
    var deployer := new SrcDeployer.Deployer(quiet, true, "", fs, console);
    var a := ArgsOf(p, host);
    var result := deployer.Run(a);
    x := ExitAfter(result);
    SrcDeployer.RunNeverReturnsTrue(a, SrcDeployer.Fresh(fs.env, old(fs.Snapshot()), SrcDeployer.Directories("")));
  }
}
