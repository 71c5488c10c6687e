/** What both versions of the deployer share: how a step ends, what `json_decode` of the
    symlink map gives, and the effect of the step sequences on the filesystem, as
    functions from one filesystem state to the next. */
module Deployment {
  import opened Php
  import opened Paths
  import opened Fs
  import opened Options

  /** A thrown exception: a `RuntimeException`, which `run` catches, or an `Error` such
      as PHP 8's `TypeError`, which no `catch (Exception $e)` stops. */
  datatype Failure = Runtime(message: string) | Fatal(message: string)

  datatype Outcome = Done | Threw(failure: Failure)

  /** What `run` hands back: a boolean, nothing at all (an unassigned `$result`), or an
      exception that escapes it. */
  datatype RunResult = Returned(ok: bool) | Unassigned | Escaped(message: string)

  /** `json_decode` of the symlink parameter: null (invalid JSON or `null`), another
      scalar (by its PHP type name), or an object or array as its entries in order. */
  datatype Json = Null | Scalar(typeName: string) | Entries(pairs: seq<(string, string)>)

  /** How the script ends: `exit` with a status, or an error nothing caught. */
  datatype Exit = Exit(code: int) | Uncaught(message: string)

  /** `if ($deployer->run(...)) exit(0); exit(1);`: an unassigned result is null, which
      is falsy; an error escaping `run` ends the script instead. */
  function ExitAfter(r: RunResult): Exit {
    match r
    case Returned(ok) => if ok then Exit(0) else Exit(1)
    case Unassigned => Exit(1)
    case Escaped(m) => Uncaught(m)
  }

  /** What the entry point takes from outside the script: the working directory
      (`getcwd()`), the hex form of eight random bytes, the terminal, `json_decode` and
      the clock (`time()`). */
  datatype Host = Host(cwd: string, randomHex: string, terminal: Terminal, decode: string -> Json, now: nat)

  /** "`json_decode($s)` is not null". */
  function Decodes(decode: string -> Json): string -> bool {
    s => decode(s) != Null
  }

  /** `is_dir` in the filesystem state `st`. */
  function IsDirIn(st: State): string -> bool {
    p => st.IsDir(p)
  }

  /** The message of the `TypeError` that `new RuntimeException($output)` raises:
      `exec` leaves an array in `$output`. */
  const ArrayArgument: string := "RuntimeException::__construct(): Argument #1 ($message) must be of type string, array given"

  /** The message of the `TypeError` PHP 8 raises for a non-numeric string in `+`. */
  const NonNumericOperand: string := "Unsupported operand types: string + int"

  /** The warning `foreach` raises for something it cannot iterate. */
  function ForeachWarning(j: Json): string
    requires !j.Entries?
  {
    "foreach()" + " argument must be of type array|object, " + (if j.Null? then "null" else j.typeName) + " given"
  }

  /** The values `run` is called with: the deploy directory, the cache directory, the
      revision name, the number of revisions to keep, the decoded symlink map, and the
      clock. */
  datatype RunArgs = RunArgs(deployDir: string, cacheDir: string, revision: string, keep: ArgValue, symLinks: Json, now: nat)

  /** The values `process` hands to `run`: the options as read, the symlink option
      decoded, and the clock. */
  function ArgsOf(p: Params, host: Host): RunArgs {
    RunArgs(AsText(p.deployDir), AsText(p.cacheDir), AsText(p.revision), p.keep, host.decode(AsText(p.symLinks)), host.now)
  }

  // ---------------------------------------------------------------------------
  // a run as a sequence of steps

  /** What one step of a run did: how it ended, the deployer state `C` it left, and the
      text it printed. */
  datatype Stepped<C> = Stepped(outcome: Outcome, after: C, text: string)

  /** What a run did: the outcomes of the steps it reached, in order, the state it left,
      and the text printed on the way. */
  datatype Run<C> = Run(outcomes: seq<Outcome>, after: C, text: string)

  /** A step as `run` takes it: `out($line)` first, then the step itself. */
  function Announcing<C>(line: string, st: Stepped<C>): Stepped<C> {
    st.(text := line + st.text)
  }

  /** The last outcome of a run. */
  function Last<C>(run: Run<C>): Outcome
    requires run.outcomes != []
  {
    run.outcomes[|run.outcomes| - 1]
  }

  /** Every one of `n` steps finished. */
  predicate AllDone(os: seq<Outcome>, n: nat) {
    |os| == n && forall i :: 0 <= i < n ==> os[i] == Done
  }

  /** The body of `run`'s `try`: the steps taken in order from `c`, `take` saying what
      each does; the first one that throws ends the run, and no step after it is taken. */
  function RunSteps<S, C>(take: (S, C) -> Stepped<C>, steps: seq<S>, c: C): (r: Run<C>)
    ensures |r.outcomes| <= |steps| && (steps != [] ==> r.outcomes != [])
    decreases |steps|
  {
    if steps == [] then Run([], c, "")
    else
      var s := take(steps[0], c);
      if s.outcome.Threw? then Run([s.outcome], s.after, s.text)
      else
        var r := RunSteps(take, steps[1..], s.after);
        Run([s.outcome] + r.outcomes, r.after, s.text + r.text)
  }

  /** Every step a run reached but the last finished, and a run that stopped short of
      the last step ended with a throw. */
  lemma {:induction false} RunStepsStops<S, C>(take: (S, C) -> Stepped<C>, steps: seq<S>, c: C)
    ensures var os := RunSteps(take, steps, c).outcomes;
      (forall i :: 0 <= i < |os| - 1 ==> os[i] == Done)
      && (0 < |os| < |steps| ==> os[|os| - 1].Threw?)
    decreases |steps|
  {
    if steps != [] {
      var s := take(steps[0], c);
      if s.outcome.Done? {
        RunStepsStops(take, steps[1..], s.after);
        var os1 := RunSteps(take, steps[1..], s.after).outcomes;
        var os := RunSteps(take, steps, c).outcomes;
        assert os == [s.outcome] + os1;
        forall i | 0 < i < |os| - 1 ensures os[i] == Done {
          assert os[i] == os1[i - 1];
        }
        if 0 < |os| < |steps| {
          assert os[|os| - 1] == os1[|os1| - 1];
        }
      }
    }
  }

  /** A run ends in success exactly when every step finished. */
  lemma RunStepsSucceeds<S, C>(take: (S, C) -> Stepped<C>, steps: seq<S>, c: C)
    requires steps != []
    ensures var os := RunSteps(take, steps, c).outcomes;
      os[|os| - 1] == Done <==> AllDone(os, |steps|)
  {
    RunStepsStops(take, steps, c);
  }

  /** Running `p + q` is running `p` alone when some step of `p` threw. */
  lemma {:induction false} RunStepsAppendStopped<S, C>(take: (S, C) -> Stepped<C>, p: seq<S>, q: seq<S>, c: C)
    requires !AllDone(RunSteps(take, p, c).outcomes, |p|)
    ensures RunSteps(take, p + q, c) == RunSteps(take, p, c)
    decreases |p|
  {
    assert p != [];
    assert (p + q)[0] == p[0];
    assert (p + q)[1..] == p[1..] + q;
    var s := take(p[0], c);
    if s.outcome.Done? {
      var r1 := RunSteps(take, p[1..], s.after);
      assert RunSteps(take, p, c).outcomes == [s.outcome] + r1.outcomes;
      AllDoneCons(s.outcome, r1.outcomes, |p[1..]|);
      RunStepsAppendStopped(take, p[1..], q, s.after);
    }
  }

  /** Running `p + q` is running `p` and then, when every step of `p` finished, `q` from
      where `p` left off. */
  lemma {:induction false} RunStepsAppend<S, C>(take: (S, C) -> Stepped<C>, p: seq<S>, q: seq<S>, c: C)
    requires AllDone(RunSteps(take, p, c).outcomes, |p|)
    ensures var r := RunSteps(take, p, c); var r2 := RunSteps(take, q, r.after);
      RunSteps(take, p + q, c) == Run(r.outcomes + r2.outcomes, r2.after, r.text + r2.text)
    decreases |p|
  {
    if p == [] {
      assert p + q == q;
    } else {
      assert (p + q)[0] == p[0];
      assert (p + q)[1..] == p[1..] + q;
      var s := take(p[0], c);
      var r1 := RunSteps(take, p[1..], s.after);
      assert RunSteps(take, p, c) == Run([s.outcome] + r1.outcomes, r1.after, s.text + r1.text);
      AllDoneCons(s.outcome, r1.outcomes, |p[1..]|);
      RunStepsAppend(take, p[1..], q, s.after);
      var r2 := RunSteps(take, q, r1.after);
      var rr := RunSteps(take, p[1..] + q, s.after);
      assert rr == Run(r1.outcomes + r2.outcomes, r2.after, r1.text + r2.text);
      assert RunSteps(take, p + q, c) == Run([s.outcome] + rr.outcomes, rr.after, s.text + rr.text);
      SeqAssoc([s.outcome], r1.outcomes, r2.outcomes);
      TextAssoc(s.text, r1.text, r2.text);
    }
  }

  lemma SeqAssoc(a: seq<Outcome>, b: seq<Outcome>, c: seq<Outcome>)
    ensures a + (b + c) == (a + b) + c
  {
  }

  lemma TextAssoc(a: string, b: string, c: string)
    ensures a + (b + c) == (a + b) + c
  {
  }

  lemma AllDoneCons(o: Outcome, os: seq<Outcome>, n: nat)
    ensures AllDone([o] + os, n + 1) <==> o == Done && AllDone(os, n)
  {
    assert ([o] + os)[0] == o && |[o] + os| == |os| + 1;
    if AllDone([o] + os, n + 1) {
      forall i | 0 <= i < n ensures os[i] == Done {
        assert os[i] == ([o] + os)[i + 1];
      }
    }
    if o == Done && AllDone(os, n) {
      forall i | 0 <= i < n + 1 ensures ([o] + os)[i] == Done {
        if i > 0 {
          assert ([o] + os)[i] == os[i - 1];
        }
      }
    }
  }

  /** A step that throws ends the run with the state the steps before it produced, as
      that step changed it: the outcomes are those of the steps before it, all finished,
      and its own. */
  lemma RunStepsAbort<S, C>(take: (S, C) -> Stepped<C>, steps: seq<S>, c: C, k: nat)
    requires k < |RunSteps(take, steps, c).outcomes| && RunSteps(take, steps, c).outcomes[k].Threw?
    ensures var before := RunSteps(take, steps[..k], c); var s := take(steps[k], before.after);
      AllDone(before.outcomes, k) && s.outcome.Threw?
      && RunSteps(take, steps, c) == Run(before.outcomes + [s.outcome], s.after, before.text + s.text)
  {
    var r := RunSteps(take, steps, c);
    var p, q := steps[..k], steps[k..];
    assert p + q == steps;
    var before := RunSteps(take, p, c);
    if !AllDone(before.outcomes, k) {
      RunStepsAppendStopped(take, p, q, c);
    } else {
      RunStepsAppend(take, p, q, c);
      assert q[0] == steps[k];
      var s := take(steps[k], before.after);
      var r2 := RunSteps(take, q, before.after);
      assert r.outcomes[k] == r2.outcomes[0] == s.outcome;
      assert r2 == Run([s.outcome], s.after, s.text);
    }
  }

  /** A run of three steps, spelled out. */
  lemma RunThree<S, C>(take: (S, C) -> Stepped<C>, x: S, y: S, z: S, c: C)
    ensures RunSteps(take, [x, y, z], c)
            == (var s1 := take(x, c);
                if s1.outcome.Threw? then Run([s1.outcome], s1.after, s1.text)
                else
                  var s2 := take(y, s1.after);
                  if s2.outcome.Threw? then Run([s1.outcome, s2.outcome], s2.after, s1.text + s2.text)
                  else
                    var s3 := take(z, s2.after);
                    Run([s1.outcome, s2.outcome, s3.outcome], s3.after, s1.text + s2.text + s3.text))
  {
    assert [x, y, z][1..] == [y, z] && [y, z][1..] == [z] && [z][1..] == [];
    var s1 := take(x, c);
    var s2 := take(y, s1.after);
    var s3 := take(z, s2.after);
    assert RunSteps(take, [z], s2.after) == Run([s3.outcome], s3.after, s3.text) by {
      if s3.outcome.Done? {
        assert RunSteps(take, [z], s2.after) == Run([s3.outcome] + [], s3.after, s3.text + "");
        assert [s3.outcome] + [] == [s3.outcome] && s3.text + "" == s3.text;
      }
    }
    assert s1.text + (s2.text + s3.text) == s1.text + s2.text + s3.text;
  }

  /** Once the steps before it have all finished, one more step continues from their state. */
  lemma {:induction false} RunStepsSnoc<S, C>(take: (S, C) -> Stepped<C>, p: seq<S>, x: S, c: C)
    requires AllDone(RunSteps(take, p, c).outcomes, |p|)
    ensures var before := RunSteps(take, p, c); var s := take(x, before.after);
      RunSteps(take, p + [x], c) == Run(before.outcomes + [s.outcome], s.after, before.text + s.text)
  {
    var before := RunSteps(take, p, c);
    RunStepsAppend(take, p, [x], c);
    var s := take(x, before.after);
    assert [x][0] == x && [x][1..] == [];
    assert RunSteps(take, [x], before.after) == Run([s.outcome], s.after, s.text) by {
      if s.outcome.Done? {
        assert RunSteps(take, [x], before.after) == Run([s.outcome] + [], s.after, s.text + "");
        assert [s.outcome] + [] == [s.outcome] && s.text + "" == s.text;
      }
    }
  }

  /** In a run where every step finished, step `k` starts from the state the steps
      before it produced, finishes, and the steps up to it produce the state it leaves. */
  lemma {:induction false} RunStepsPrefixDone<S, C>(take: (S, C) -> Stepped<C>, steps: seq<S>, c: C, k: nat)
    requires k < |steps| && AllDone(RunSteps(take, steps, c).outcomes, |steps|)
    ensures var before := RunSteps(take, steps[..k], c); var s := take(steps[k], before.after);
      AllDone(before.outcomes, k) && s.outcome == Done && RunSteps(take, steps[..k + 1], c).after == s.after
  {
    var p := steps[..k];
    var before := RunSteps(take, p, c);
    var s := take(steps[k], before.after);
    var q := steps[k..];
    assert p + [steps[k]] == steps[..k + 1];
    assert p + q == steps && q[0] == steps[k];
    if !AllDone(before.outcomes, k) {
      RunStepsAppendStopped(take, p, q, c);
      assert false;
    }
    RunStepsSnoc(take, p, steps[k], c);
    RunStepsAppend(take, p, q, c);
    assert RunSteps(take, q, before.after).outcomes[0] == s.outcome;
    assert RunSteps(take, steps, c).outcomes[k] == s.outcome;
  }

  // ---------------------------------------------------------------------------
  // making the directory layout

  /** `if (!is_dir($p) && !mkdir($p) [&& !is_dir($p)]) throw ...`: a missing directory is
      made; a failed `mkdir` throws, unless `tolerant` and the directory exists anyway. */
  function MakeMissing(s: State, env: Oracles, p: string, tolerant: bool, message: string): (Outcome, State) {
    if s.IsDir(p) then (Done, s)
    else
      var (made, s1) := s.Mkdir(env, p, false);
      (if made || (tolerant && s1.IsDir(p)) then Done else Threw(Runtime(message)), s1)
  }

  /** The directories `ds` (with the message each failure throws) made in order,
      stopping at the first failure. */
  function MakeAll(s: State, env: Oracles, ds: seq<(string, string)>, tolerant: bool): (Outcome, State)
    decreases |ds|
  {
    if ds == [] then (Done, s)
    else
      var (o, s1) := MakeMissing(s, env, ds[0].0, tolerant, ds[0].1);
      if o.Threw? then (o, s1) else MakeAll(s1, env, ds[1..], tolerant)
  }

  /** One step of `MakeAll`. */
  lemma MakeAllStep(s: State, env: Oracles, d: (string, string), ds: seq<(string, string)>, tolerant: bool)
    ensures MakeAll(s, env, [d] + ds, tolerant)
            == (var (o, s1) := MakeMissing(s, env, d.0, tolerant, d.1);
                if o.Threw? then (o, s1) else MakeAll(s1, env, ds, tolerant))
  {
    assert ([d] + ds)[1..] == ds;
  }

  /** The canonical names of the directories `ds` asks for. */
  function Names(ds: seq<(string, string)>): set<Path> {
    set i | 0 <= i < |ds| :: Canon(ds[i].0)
  }

  /** Growing the set of directories, links left alone, keeps every directory one. */
  lemma DirsGrow(s: State, s2: State, p: string)
    requires s2.links == s.links && s.dirs <= s2.dirs && s.IsDir(p)
    ensures s2.IsDir(p)
  {
  }

  lemma MakeMissingEffect(s: State, env: Oracles, p: string, tolerant: bool, message: string)
    ensures var (o, s2) := MakeMissing(s, env, p, tolerant, message);
      s2.links == s.links && s.dirs <= s2.dirs <= s.dirs + {Canon(p)}
      && (o.Done? ==> s2.IsDir(p))
      && (tolerant ==> (o.Done? <==> s2.IsDir(p)))
      && (o.Threw? ==> o == Threw(Runtime(message)))
  {
  }

  /** Making the layout only adds the directories asked for and touches no link; when
      it finishes, every one of them is a directory. */
  lemma {:induction false} MakeAllEffect(s: State, env: Oracles, ds: seq<(string, string)>, tolerant: bool)
    ensures var (o, s2) := MakeAll(s, env, ds, tolerant);
      s2.links == s.links && s.dirs <= s2.dirs <= s.dirs + Names(ds)
      && (o.Done? ==> forall i :: 0 <= i < |ds| ==> s2.IsDir(ds[i].0))
      && (o.Threw? ==> exists i :: 0 <= i < |ds| && o == Threw(Runtime(ds[i].1)))
    decreases |ds|
  {
    if ds != [] {
      var (o1, s1) := MakeMissing(s, env, ds[0].0, tolerant, ds[0].1);
      MakeMissingEffect(s, env, ds[0].0, tolerant, ds[0].1);
      if o1.Done? {
        MakeAllEffect(s1, env, ds[1..], tolerant);
        var (o, s2) := MakeAll(s1, env, ds[1..], tolerant);
        assert Names(ds[1..]) <= Names(ds) by {
          forall x | x in Names(ds[1..]) ensures x in Names(ds) {
            var i :| 0 <= i < |ds[1..]| && x == Canon(ds[1..][i].0);
            assert x == Canon(ds[i + 1].0);
          }
        }
        assert Canon(ds[0].0) in Names(ds);
        if o.Done? {
          forall i | 0 <= i < |ds| ensures s2.IsDir(ds[i].0) {
            if i == 0 {
              DirsGrow(s1, s2, ds[0].0);
            } else {
              assert ds[i] == ds[1..][i - 1];
            }
          }
        } else {
          var i :| 0 <= i < |ds[1..]| && o == Threw(Runtime(ds[1..][i].1));
          assert ds[1..][i] == ds[i + 1];
        }
      } else {
        assert Canon(ds[0].0) in Names(ds);
      }
    }
  }

  /** Preparing a layout that is already there changes nothing and succeeds. */
  lemma {:induction false} MakeAllIdempotent(s: State, env: Oracles, ds: seq<(string, string)>, tolerant: bool)
    requires forall i :: 0 <= i < |ds| ==> s.IsDir(ds[i].0)
    ensures MakeAll(s, env, ds, tolerant) == (Done, s)
    decreases |ds|
  {
    if ds != [] {
      assert MakeMissing(s, env, ds[0].0, tolerant, ds[0].1) == (Done, s);
      forall i | 0 <= i < |ds[1..]| ensures s.IsDir(ds[1..][i].0) {
        assert ds[1..][i] == ds[i + 1];
      }
      MakeAllIdempotent(s, env, ds[1..], tolerant);
    }
  }

  /** When failed `mkdir`s are tolerated, preparing the layout succeeds exactly when every
      directory of it exists afterwards. */
  lemma {:induction false} MakeAllTolerant(s: State, env: Oracles, ds: seq<(string, string)>)
    ensures var (o, s2) := MakeAll(s, env, ds, true);
      o.Done? <==> forall i :: 0 <= i < |ds| ==> s2.IsDir(ds[i].0)
    decreases |ds|
  {
    MakeAllEffect(s, env, ds, true);
    if ds != [] {
      var (o1, s1) := MakeMissing(s, env, ds[0].0, true, ds[0].1);
      MakeMissingEffect(s, env, ds[0].0, true, ds[0].1);
      if o1.Done? {
        MakeAllTolerant(s1, env, ds[1..]);
        MakeAllEffect(s1, env, ds[1..], true);
        var (o, s2) := MakeAll(s1, env, ds[1..], true);
        if !o.Done? {
          var i :| 0 <= i < |ds[1..]| && !s2.IsDir(ds[1..][i].0);
          assert ds[1..][i] == ds[i + 1];
        }
      }
    }
  }

  // ---------------------------------------------------------------------------
  // wiring symbolic links

  /** `createSymLink($target, $linkName)`: replaces whatever is at the link path by a link;
      when `onlyOverDirectory`, nothing happens unless the link path is a directory. */
  function LinkOne(s: State, env: Oracles, target: string, linkName: string, onlyOverDirectory: bool): (bool, State) {
    if onlyOverDirectory && !s.IsDir(linkName) then (true, s) else s.Relink(env, target, linkName)
  }

  /** One link made from a state: whether it succeeded and the state after it. */
  type Linker = (State, (string, string)) -> (bool, State)

  /** The steps `pairs` taken in order from `s`, stopping at the first failure; the
      number is how many succeeded before it (all of them when none failed). */
  function Chain(s: State, pairs: seq<(string, string)>, step: Linker): (r: (nat, State))
    ensures r.0 <= |pairs|
    decreases |pairs|
  {
    if pairs == [] then (0, s)
    else
      var (ok, s1) := step(s, pairs[0]);
      if !ok then (0, s1)
      else
        var (n, s2) := Chain(s1, pairs[1..], step);
        (n + 1, s2)
  }

  /** Taking the steps `p + q` is taking `p` and, when all of them succeeded, `q` after. */
  lemma {:induction false} ChainAppend(s: State, p: seq<(string, string)>, q: seq<(string, string)>, step: Linker)
    ensures Chain(s, p, step).0 < |p| ==> Chain(s, p + q, step) == Chain(s, p, step)
    ensures Chain(s, p, step).0 == |p| ==>
              Chain(s, p + q, step) == (|p| + Chain(Chain(s, p, step).1, q, step).0, Chain(Chain(s, p, step).1, q, step).1)
    decreases |p|
  {
    if p == [] {
      assert p + q == q;
    } else {
      assert (p + q)[0] == p[0];
      assert (p + q)[1..] == p[1..] + q;
      ChainAppend(step(s, p[0]).1, p[1..], q, step);
    }
  }

  /** One pass of a loop over `pairs`: when the first `i` steps succeeded and led to
      `t`, step `i` either extends that to `i + 1` steps, or fails and so ends the whole
      chain over `pairs` there. */
  lemma ChainNext(s: State, pairs: seq<(string, string)>, i: nat, t: State, step: Linker)
    requires i < |pairs|
    requires Chain(s, pairs[..i], step) == (i, t)
    ensures step(t, pairs[i]).0 ==> Chain(s, pairs[..i + 1], step) == (i + 1, step(t, pairs[i]).1)
    ensures !step(t, pairs[i]).0 ==> Chain(s, pairs, step) == (i, step(t, pairs[i]).1)
  {
    assert [pairs[i]][1..] == [];
    ChainAppend(s, pairs[..i], [pairs[i]], step);
    assert pairs[..i] + [pairs[i]] == pairs[..i + 1];
    ChainAppend(s, pairs[..i + 1], pairs[i + 1..], step);
    assert pairs[..i + 1] + pairs[i + 1..] == pairs;
  }

  /** `createSymLink` as a step. */
  function LinkStep(env: Oracles, onlyOverDirectory: bool): Linker {
    (s: State, pair: (string, string)) => LinkOne(s, env, pair.0, pair.1, onlyOverDirectory)
  }

  /** The links `pairs` (target, link path) made in order, stopping at the first failure. */
  function LinkAll(s: State, env: Oracles, pairs: seq<(string, string)>, onlyOverDirectory: bool): (r: (nat, State))
    ensures r.0 <= |pairs|
  {
    Chain(s, pairs, LinkStep(env, onlyOverDirectory))
  }

  /** The announcements of `pairs[..i + 1]` are those of `pairs[..i]` and one more. */
  lemma AnnouncedStep(pairs: seq<(string, string)>, i: nat)
    requires i < |pairs|
    ensures Announced(pairs[..i + 1]) == Announced(pairs[..i]) + LinkLine(pairs[i])
  {
    assert pairs[..i + 1][..i] == pairs[..i];
  }

  /** The target and link path of each entry of the symlink map: the target under the
      deploy path, the link under the revision path. */
  function LinkPaths(deployPath: string, revisionPath: string, entries: seq<(string, string)>): (r: seq<(string, string)>)
    ensures |r| == |entries|
    ensures forall i :: 0 <= i < |r| ==>
              r[i] == (deployPath + [Sep] + entries[i].0, revisionPath + [Sep] + entries[i].1)
  {
    seq(|entries|, i requires 0 <= i < |entries| => (deployPath + [Sep] + entries[i].0, revisionPath + [Sep] + entries[i].1))
  }

  /** A successful relink points the link path at the target and makes it the newest
      entry. */
  lemma RelinkPointsAt(s: State, env: Oracles, target: string, l: string)
    ensures var (ok, s2) := s.Relink(env, target, l);
      ok ==> Canon(l) in s2.links && s2.links[Canon(l)] == target && s2.order[0] == Canon(l)
  {
  }

  /** A relink leaves every link outside the replaced tree as it was. */
  lemma RelinkKeepsOthers(s: State, env: Oracles, target: string, l: string, x: Path)
    requires x in s.links && !Within(x, Canon(l))
    ensures var s2 := s.Relink(env, target, l).1; x in s2.links && s2.links[x] == s.links[x]
  {
    var c := Canon(l);
    if env.removable(c) {
      assert [c][..0] == [];
      assert x in Survivors(s.links.Keys, [c]);
    }
  }

  /** No link path of `pairs` is another's or lies inside another's. */
  predicate Separate(pairs: seq<(string, string)>) {
    forall i, j :: 0 <= i < |pairs| && 0 <= j < |pairs| && i != j ==> !Within(Canon(pairs[i].1), Canon(pairs[j].1))
  }

  /** Unconditional linking that gets through the whole map leaves each link path pointing
      at its target, provided no link path is inside another. */
  lemma {:induction false} LinkAllLinksEach(s: State, env: Oracles, pairs: seq<(string, string)>)
    requires Separate(pairs)
    requires LinkAll(s, env, pairs, false).0 == |pairs|
    ensures var s2 := LinkAll(s, env, pairs, false).1;
      forall i :: 0 <= i < |pairs| ==> Canon(pairs[i].1) in s2.links && s2.links[Canon(pairs[i].1)] == pairs[i].0
    decreases |pairs|
  {
    if pairs != [] {
      var (ok, s1) := s.Relink(env, pairs[0].0, pairs[0].1);
      RelinkPointsAt(s, env, pairs[0].0, pairs[0].1);
      var rest := pairs[1..];
      assert Separate(rest) by {
        forall i, j | 0 <= i < |rest| && 0 <= j < |rest| && i != j
          ensures !Within(Canon(rest[i].1), Canon(rest[j].1))
        {
          assert rest[i] == pairs[i + 1] && rest[j] == pairs[j + 1];
        }
      }
      LinkAllLinksEach(s1, env, rest);
      LinkAllKeeps(s1, env, rest, Canon(pairs[0].1));
      var s2 := LinkAll(s, env, pairs, false).1;
      forall i | 0 <= i < |pairs|
        ensures Canon(pairs[i].1) in s2.links && s2.links[Canon(pairs[i].1)] == pairs[i].0
      {
        if i > 0 {
          assert pairs[i] == rest[i - 1];
        }
      }
    }
  }

  /** Unconditional linking leaves alone a link that lies inside none of the link paths. */
  lemma {:induction false} LinkAllKeeps(s: State, env: Oracles, pairs: seq<(string, string)>, x: Path)
    requires x in s.links
    requires forall j :: 0 <= j < |pairs| ==> !Within(x, Canon(pairs[j].1))
    ensures var s2 := LinkAll(s, env, pairs, false).1; x in s2.links && s2.links[x] == s.links[x]
    decreases |pairs|
  {
    if pairs != [] {
      var (ok, s1) := s.Relink(env, pairs[0].0, pairs[0].1);
      RelinkKeepsOthers(s, env, pairs[0].0, pairs[0].1, x);
      if ok {
        forall j | 0 <= j < |pairs[1..]| ensures !Within(x, Canon(pairs[1..][j].1)) {
          assert pairs[1..][j] == pairs[j + 1];
        }
        LinkAllKeeps(s1, env, pairs[1..], x);
      }
    }
  }

  /** The text `printf('Linking %s -> %s', $t, $l)` writes for each pair, without a
      newline. */
  function Announced(pairs: seq<(string, string)>): string
    decreases |pairs|
  {
    if pairs == [] then "" else Announced(pairs[..|pairs| - 1]) + LinkLine(pairs[|pairs| - 1])
  }

  function LinkLine(pair: (string, string)): string {
    "Linking " + pair.0 + " -> " + pair.1
  }

  // ---------------------------------------------------------------------------
  // pruning old revisions

  /** `pruneOldRevisions($revisionsToKeep)` on the revisions directory `dir`, listed by
      `sort`: nothing unless the count compares above 0; `+ 2` on a non-numeric string
      raises a `TypeError`; a sum that is not a whole number makes `tail` reject its
      argument, so `xargs` runs `rm -rf --` on nothing; otherwise the listing from line
      `count + 2` on is removed, and a failed removal throws `failure`. */
  function PruneRevisions(s: State, env: Oracles, dir: string, keep: ArgValue, sort: TimeOrder, failure: string): (Outcome, State) {
    if SignAgainstZero(keep) <= 0 then (Done, s)
    else
      match PlusInt(keep, 2)
      case None => (Threw(Fatal(NonNumericOperand)), s)
      case Some(sum) =>
        match WholeValue(sum)
        case None => (Done, s)
        case Some(from) =>
          var (ok, s2) := s.Prune(env, dir, from, sort);
          (if ok then Done else Threw(Runtime(failure)), s2)
  }

  /** With a count above 0 whose sum with 2 is the whole number `m`, the step is the
      pipeline from line `m`. */
  lemma PruneRevisionsUnfolds(s: State, env: Oracles, dir: string, keep: ArgValue, sort: TimeOrder, failure: string,
                              sum: Decimal, m: int)
    requires SignAgainstZero(keep) > 0 && PlusInt(keep, 2) == Some(sum) && WholeValue(sum) == Some(m)
    ensures var r := s.Prune(env, dir, m, sort);
      PruneRevisions(s, env, dir, keep, sort, failure) == (if r.0 then Done else Threw(Runtime(failure)), r.1)
  {
  }

  /** Any count above 0 whose sum with 2 is a whole number `m`: the first `m - 1` lines
      of the listing stay as they were, every later one that may be removed is gone, and
      the step throws `failure` exactly when one of the later ones may not be removed. */
  lemma PruneRevisionsRetention(s: State, env: Oracles, dir: string, keep: ArgValue, sort: TimeOrder, failure: string)
    requires s.Valid() && SignAgainstZero(keep) > 0
    requires PlusInt(keep, 2).Some? && WholeValue(PlusInt(keep, 2).value).Some?
    ensures var m := WholeValue(PlusInt(keep, 2).value).value;
      var l := s.Listed(env, dir, sort); var (o, s2) := PruneRevisions(s, env, dir, keep, sort, failure);
      && (forall i :: 0 <= i < m - 1 && i < |l| ==>
            (l[i] in s.dirs ==> l[i] in s2.dirs)
            && (l[i] in s.links ==> l[i] in s2.links && s2.links[l[i]] == s.links[l[i]]))
      && (forall i :: 0 <= i < |l| && m - 1 <= i && env.removable(l[i]) ==> l[i] !in s2.dirs && l[i] !in s2.links)
      && (o.Done? <==> forall i :: 0 <= i < |l| && m - 1 <= i ==> env.removable(l[i]))
      && (o.Threw? ==> o == Threw(Runtime(failure)))
  {
    var sum := PlusInt(keep, 2).value;
    var m := WholeValue(sum).value;
    PruneRevisionsUnfolds(s, env, dir, keep, sort, failure, sum, m);
    PruneKeepsNewest(s, env, dir, m, sort);
  }

  /** Keeping `n > 0` revisions: the newest `n + 1` lines of the listing stay as they
      were, every older one that may be removed is gone, and the step throws `failure`
      exactly when one of the older ones may not be removed. */
  lemma PruneRevisionsKeepsNewest(s: State, env: Oracles, dir: string, n: int, sort: TimeOrder, failure: string)
    requires s.Valid() && n > 0
    ensures var l := s.Listed(env, dir, sort); var (o, s2) := PruneRevisions(s, env, dir, Number(n), sort, failure);
      && (forall i :: 0 <= i < n + 1 && i < |l| ==>
            (l[i] in s.dirs ==> l[i] in s2.dirs)
            && (l[i] in s.links ==> l[i] in s2.links && s2.links[l[i]] == s.links[l[i]]))
      && (forall i :: n + 1 <= i < |l| && env.removable(l[i]) ==> l[i] !in s2.dirs && l[i] !in s2.links)
      && (o.Done? <==> forall i :: n + 1 <= i < |l| ==> env.removable(l[i]))
      && (o.Threw? ==> o == Threw(Runtime(failure)))
  {
    assert PlusInt(Number(n), 2) == Some(Decimal(n + 2, 0));
    assert Pow10(0) == 1;
    assert WholeValue(Decimal(n + 2, 0)) == Some(n + 2);
    PruneRevisionsRetention(s, env, dir, Number(n), sort, failure);
  }

  /** A count given on the command line as an integer string prunes exactly as the
      integer it spells. */
  lemma PruneRevisionsTextCount(s: State, env: Oracles, dir: string, t: string, sort: TimeOrder, failure: string)
    requires IsIntegerString(t)
    ensures PruneRevisions(s, env, dir, Text(t), sort, failure) == PruneRevisions(s, env, dir, Number(IntValue(t)), sort, failure)
  {
    var n := IntValue(t);
    IntegerStringValue(t);
    assert NumberPrefix(t).value.0 == Decimal(n, 0);
    assert Pow10(0) == 1;
    assert PlusInt(Text(t), 2) == Some(Decimal(n + 2, 0)) == PlusInt(Number(n), 2);
    assert SignAgainstZero(Text(t)) == Sign(n) == SignAgainstZero(Number(n));
    PruneRevisionsAlike(s, env, dir, Text(t), Number(n), sort, failure);
  }

  /** The step depends on the count only through its sign and its sum with 2. */
  lemma PruneRevisionsAlike(s: State, env: Oracles, dir: string, k1: ArgValue, k2: ArgValue, sort: TimeOrder, failure: string)
    requires SignAgainstZero(k1) == SignAgainstZero(k2) && PlusInt(k1, 2) == PlusInt(k2, 2)
    ensures PruneRevisions(s, env, dir, k1, sort, failure) == PruneRevisions(s, env, dir, k2, sort, failure)
  {
  }

  /** Pruning spares every entry no longer than the revisions directory itself, and the
      target of every such link. */
  lemma PruneRevisionsSparesShallow(s: State, env: Oracles, dir: string, keep: ArgValue, sort: TimeOrder, failure: string, x: Path)
    requires |x| <= |Canon(dir)|
    ensures var s2 := PruneRevisions(s, env, dir, keep, sort, failure).1;
      (x in s.dirs ==> x in s2.dirs) && (x in s.links ==> x in s2.links && s2.links[x] == s.links[x])
  {
    if SignAgainstZero(keep) > 0 && PlusInt(keep, 2).Some? && WholeValue(PlusInt(keep, 2).value).Some? {
      PruneSparesShallow(s, env, dir, WholeValue(PlusInt(keep, 2).value).value, sort, x);
    }
  }

  /** A count that does not compare above 0 (0, a negative number, `false`, "", "0",
      "-1") leaves everything as it was. */
  lemma PruneRevisionsNothingToDo(s: State, env: Oracles, dir: string, keep: ArgValue, sort: TimeOrder, failure: string)
    requires SignAgainstZero(keep) <= 0
    ensures PruneRevisions(s, env, dir, keep, sort, failure) == (Done, s)
  {
  }


  // ---------------------------------------------------------------------------
  // the methods both versions call

  /** The filesystem operation of `MakeMissing`. */
  method MakeMissingDirectory(fs: FileSystem, p: string, tolerant: bool, message: string) returns (o: Outcome)
    modifies fs
    ensures (o, fs.Snapshot()) == MakeMissing(old(fs.Snapshot()), fs.env, p, tolerant, message)
  {
    o := Done;
    if !fs.IsDir(p) {
      var made := fs.Mkdir(p, false);
      if !made && !(tolerant && fs.IsDir(p)) {
        o := Threw(Runtime(message));
      }
    }
  }
}
