# Atomic deployments, modelled in Dafny

The project is a PHP command-line tool for atomic deployments. Each deployment copies a
prepared deploy cache into a fresh revision directory under `revisions/`. It then creates
the symbolic links the configuration asks for inside that revision, points the `current`
link of the deploy directory at the revision, and prunes the oldest revisions. When a
step fails, the tool attempts to unlink the new revision again. In quiet mode it also replays the
buffered output as error lines, each line once.

The repository holds two versions of this tool. The model follows the code of each; the
sections below say where it abstracts (filesystem, PHP values, output):

- `atomic-deploy.php` is a single-file script: functions `process`, `getOptValue`,
  `checkParams` and `setUseAnsi`, and the classes `Deployer` and `ErrorHandler`.
- `src/` is a packaged version: the classes `AtomicDeploy`, `Deployer` and
  `ErrorHandler`.

The packaged version differs from the script in several ways, and the model keeps each
difference:

- It reads the cache directory from `--deploy-dir`, not `--deploy-cache-dir`.
- It ends with status 1 when `checkParams` *accepts* the options, and it deploys only
  when a check fails.
- It places `revisions/`, `shared/` and `shared/config/` under the constructor's base
  directory, `''` by default, which puts them at the filesystem root.
- It replaces links without first asking whether a directory is in the way.
- It lists revisions for pruning by modification time (`ls -1dtp`, without `-c`). `cp -a`
  gives a new revision the deploy cache's modification time, so the revision just made
  need not be listed first. When the times are equal, `ls` orders by name, and keeping
  one revision can remove the newest (`PruneExample.ModificationOrderDropsNewest`).
- Its `run` never assigns `$result` on success. So it never returns true, and its
  `cleanUp` attempts to unlink the revision of a deployment that finished too.

The script's `createSymLink` acts only when `is_dir` holds for the link path. So its
switch step relinks `current` only when `current` already resolves to a directory; on a
first deployment, with no `current` yet, the step changes nothing and `run` still
returns true. The model keeps this.

## Modules

- `Php` (php.dfy) gives the PHP semantics the code relies on: truthiness, `trim` and
  `rtrim`, `explode` and `implode`, integer strings, PHP 8's loose `==` and `<=>`, and `+`
  on strings.
- `Paths` (paths.dfy) holds `buildPath` and the canonical form of a path.
- `Fs` (fs.dfy) is the filesystem: a `State` value, and a class `FileSystem` whose methods
  act as the `State` functions do. It covers `mkdir`, `rm -rf && ln -sfn`, `cp -a`, the
  `ls | tail | xargs rm -rf` pruning pipeline (listing by change or by modification
  time) and `unlink`.
- `Output` (console.dfy) is standard output with PHP's output buffer.
- `ErrorHandling` (errorhandler.dfy) is the `ErrorHandler` class.
- `Diagnostics` (diagnostics.dfy) is `outputErrors`.
- `Options` (options.dfy) holds `getOptValue`, `setUseAnsi` and `checkParams`.
- `Deployment` (deployment.dfy) holds what the two deployers share: step outcomes, and the
  directory and link steps as functions on filesystem states.
- `ScriptDeploy` (scriptdeploy.dfy) is the `Deployer` class and `process` of
  `atomic-deploy.php`.
- `SrcDeployer` (srcdeployer.dfy) is `src/Deployer.php`.
- `SrcAtomicDeploy` (srcatomicdeploy.dfy) is `src/AtomicDeploy.php`.

Some inputs come from outside the program. They are given as parameters, in the `Host`
and `Oracles` values:

- the working directory;
- the eight random bytes of the default revision, in hex;
- whether standard output is a terminal;
- `json_decode`;
- the clock (`time()`);
- for each path, whether the process may write to it, what `mkdir` does there, and
  whether `rm -rf` may remove it.

## Model

| member | source | states |
|---|---|---|
| Php.Trim | atomic-deploy.php:104-107 | `trim`: the result is the slice of the input left after stripping whitespace and NUL from both ends; no such character remains at either end, and only such characters were removed |
| Php.TrimUnchanged | atomic-deploy.php:104 | a value with no whitespace at either end comes back from `trim` unchanged |
| Php.RTrim | atomic-deploy.php:116 | `rtrim($s, $c)`: the result is a prefix of `s`; only copies of `c` were removed, and the result does not end in `c` |
| Php.Substr | atomic-deploy.php:107 | `substr($value, $k)`: the result has the length of what follows position `k`, and the first `k` characters followed by the result give the input back; past the end the result is empty |
| Php.Split | src/Deployer.php:246 | `explode`: at least one part, no part contains the delimiter, and joining the parts with the delimiter gives the input back |
| Php.SplitUnique | src/Deployer.php:246 | any list of delimiter-free parts whose join is `s` is exactly `explode` of `s` |
| Php.DecimalRoundTrip | atomic-deploy.php:334 | the decimal digits appended to a revision path for `time()` read back as the same number |
| Php.NumberPrefix | atomic-deploy.php:421 | a string has a leading number exactly when, after leading whitespace and a sign, a digit follows, or a `.` and then a digit; the number ends after it starts |
| Php.NumericString | src/Deployer.php:250 | a numeric string (a number, then only whitespace) has the value of its leading number |
| Php.IntegerStringValue | atomic-deploy.php:412 | an integer string is numeric, and its value is the integer it spells |
| Php.LooseEqualsIsEquivalence | src/Deployer.php:250 | PHP 8's loose `==` on strings is reflexive, symmetric and transitive |
| Php.LooseEqualsByValue | src/Deployer.php:250 | two numeric strings compare by value (`"1.0" == "1"`, `"10" == "1e1"`); other strings compare by their characters (`"abc" != "ABC"`) |
| Php.Compare | atomic-deploy.php:412 | `<=>` on two strings that are not both numeric: the result is -1, 0 or 1; 0 exactly for equal strings, -1 exactly when the first sorts before the second byte by byte, 1 exactly when it sorts after |
| Php.SignAgainstZero | atomic-deploy.php:412 | `$x > 0` and `$x <= 0` (also at atomic-deploy.php:149) under PHP 8: a numeric string compares by the sign of its value, decimals and exponents included; any other string compares with `"0"` as a string, so it is above 0 unless it is `"0"` or sorts before it; a number compares by its sign |
| Php.SignOfDecimalSpellings | atomic-deploy.php:412 | `"0.0"` is not above 0, `".5"` is, `"-2e3"` is below 0, and `"abc"` is above 0 |
| Php.AddInt | atomic-deploy.php:421 | adding an integer to a decimal gives a decimal whose value is the sum, at the decimal's own scale |
| Php.PlusInt | atomic-deploy.php:421 | `$revisionsToKeep + 2`: `false` counts as 0 and a number is added to; a string with a leading number gives that number plus 2, fraction included; a string without one has no value (PHP 8 throws a `TypeError`) |
| Php.PlusIntSpellings | atomic-deploy.php:421 | `"1e3" + 2` is 1002, `"1.5" + 2` is 3.5, `"5abc" + 2` is 7, and `"abc" + 2` has no value |
| Php.WholeValue | atomic-deploy.php:424 | the line number given to `tail -n +k` exists exactly when the decimal has no fractional part; its value times the decimal's scale is the mantissa |
| Paths.BuildPath | atomic-deploy.php:114-117 | `buildPath`: the segments joined with `/`, minus every trailing `/`; the result does not end in `/` |
| Paths.BuildPathPair | atomic-deploy.php:327-330 | for a name not ending in `/`, `buildPath([dir, name])` is `dir/name` |
| Paths.BuildPathIgnoresEmptyLast | atomic-deploy.php:114-117 | an empty last segment does not change the path |
| Paths.RTrimAppendSep | src/Deployer.php:31 | `rtrim($base . '/', '/')` equals `rtrim($base, '/')` |
| Output.Console.Write | atomic-deploy.php:169-188 | printed text goes into the output buffer while one is open, and onto the screen otherwise |
| Output.Console.StartBuffering | atomic-deploy.php:219-221 | `ob_start()` opens an empty buffer; the screen is unchanged |
| Output.Console.GetClean | atomic-deploy.php:474 | `ob_get_clean()` returns the buffered text, or `""` with no buffer open, and closes the buffer |
| ErrorHandling.StripCallPrefixRemovesShortestMatch | atomic-deploy.php:512 | the pattern `^file_get_contents\(.*?\): ` removes the shortest such prefix and nothing else; without a match the message is unchanged |
| ErrorHandling.StripCallPrefixKeepsOthers | src/ErrorHandler.php:23 | a message that does not start with `file_get_contents(` is kept whole |
| ErrorHandling.ErrorHandler.HandleError | src/ErrorHandler.php:18-24 | the message is appended, cleaned of the call prefix, after a newline when something was already collected; the same holds for atomic-deploy.php:507-513 |
| ErrorHandling.ErrorHandler.Start | atomic-deploy.php:520-527 | afterwards the handler is active and the message is empty; it is registered only when it was not active, so it is never on PHP's handler stack twice |
| ErrorHandling.ErrorHandler.Stop | src/ErrorHandler.php:45-51 | afterwards the handler is inactive, unregistered once if it was active; the message is kept |
| Fs.State.Realpath | atomic-deploy.php:333 | `realpath` gives a path exactly when its argument resolves to a directory, and that path is a known directory |
| Fs.State.Listing | atomic-deploy.php:424 | `ls -1dtpc dir/**` lists exactly the recorded entries that exist directly inside the directory and are not hidden, each a directory or a link |
| Fs.State.Listed | src/Deployer.php:214 | the listing `ls -1dt` prints: by change time, the recorded order; by modification time, the same entries, each as often |
| Fs.ByModification | src/Deployer.php:214 | `ls -t` prints the same entries, each as often, and no entry twice when none repeats |
| Fs.ByModificationSorted | src/Deployer.php:214 | each printed entry was modified no earlier than the next, and on equal times its name does not sort after the next one's |
| Fs.HiddenNotListed | atomic-deploy.php:424 | an entry whose name starts with `.` is never listed, in either order, so it is never pruned |
| Fs.ListingMeaning | atomic-deploy.php:424 | in a consistent state the listing holds exactly the existing visible children of the directory, each once, newest first |
| Fs.Doomed | atomic-deploy.php:424 | `tail -n +k`: the skipped first `k - 1` lines (none for `k` ≤ 1, all of them past the end) followed by the result give the listing back |
| Fs.State.Prune | atomic-deploy.php:424 | the pruning pipeline keeps the filesystem state consistent |
| Fs.PruneKeepsNewest | atomic-deploy.php:424 | in either listing order, the first `k - 1` entries of the listing keep their directory or link; every later entry that may be removed is gone; the pipeline succeeds exactly when every later entry may be removed |
| Fs.PruneSpares | atomic-deploy.php:424 | a path inside none of the removed entries keeps its directory or link |
| Fs.PruneSparesShallow | atomic-deploy.php:424 | a path no longer than the listed directory keeps its directory or link |
| PruneExample.PruneKeepOneOfThree | atomic-deploy.php:415-421 | keeping one revision of three, listed by change time, the pipeline starts at line 3 of the listing and removes only the oldest revision, leaving the other two and the directory |
| PruneExample.ModificationOrderDropsNewest | src/Deployer.php:205-214 | three revisions with one modification time, listed by modification time: keeping one removes the revision made last and keeps the two older ones |
| Fs.CopiedLinks | atomic-deploy.php:354 | `cp -a`: each link inside the source reappears at the same relative place inside the destination, with the same target |
| Fs.CopyKeepsValid | atomic-deploy.php:354 | copying a tree keeps the filesystem state consistent |
| Fs.FileSystem.Mkdir | atomic-deploy.php:337 | `mkdir` changes the filesystem, and reports success, exactly as `State.Mkdir` describes: it fails on an existing entry, on a missing parent when not recursive, and when refused |
| Fs.FileSystem.Relink | src/Deployer.php:171 | `rm -rf $l && ln -sfn $t $l` acts as `State.Relink` |
| Fs.FileSystem.CopyInto | src/Deployer.php:130 | `cp -a $src/. $dst` acts as `State.CopyInto` |
| Fs.FileSystem.RemoveEntry | atomic-deploy.php:424 | `rm -rf` of one entry acts as `State.RemoveEntry` |
| Fs.FileSystem.RemoveAll | atomic-deploy.php:424 | `xargs rm -rf` on the listed lines: each entry that may be removed is removed with everything under it, and success is reported exactly when every one could be |
| Fs.FileSystem.Prune | atomic-deploy.php:424-426 | the whole pipeline ends in the state `State.Prune` describes, and reports what it reports |
| Fs.FileSystem.Unlink | atomic-deploy.php:492 | `unlink` removes a link; a directory is kept or removed; nothing else changes |
| Deployment.RunSteps | atomic-deploy.php:239-257 | the steps of the `try` run in order: at most one outcome per step, and at least one when there is a step |
| Deployment.RunStepsStops | atomic-deploy.php:239-261 | every outcome but the last is a finished step, and a run that ends before the last step ends on an exception |
| Deployment.RunStepsSucceeds | atomic-deploy.php:239-257 | the last outcome is a finished step exactly when every step finished |
| Deployment.RunStepsAbort | atomic-deploy.php:239-261 | when step `k` throws, the run is exactly the first `k` steps, all finished, followed by step `k` from the state they left; no later step runs, and the state and text are theirs |
| Deployment.RunStepsAppend | atomic-deploy.php:239-257 | when the first steps all finish, the rest continue from the state they left |
| Deployment.RunStepsAppendStopped | atomic-deploy.php:239-261 | when one of the first steps throws, the later steps change nothing |
| Deployment.RunStepsSnoc | atomic-deploy.php:239-257 | one more step after steps that all finished starts from the state they left |
| Deployment.RunStepsPrefixDone | atomic-deploy.php:239-257 | in a run where every step finished, each step finished from the state the earlier ones left |
| Deployment.RunThree | atomic-deploy.php:239-257 | three steps in a row: the second runs only when the first finished, the third only when the second did |
| Deployment.MakeMissingEffect | atomic-deploy.php:307-309 | one directory step adds at most that directory and touches no link. On success the directory exists. A failure carries the step's own message. With the race recheck, success means exactly that the directory exists afterwards |
| Deployment.MakeMissingDirectory | atomic-deploy.php:307-309 | `if (!is_dir($d) && !mkdir($d) ...)` changes the filesystem as `MakeMissing` describes |
| Deployment.MakeAllEffect | atomic-deploy.php:307-317 | the layout steps add only layout directories and touch no link. When they finish, every layout directory exists. A failure carries one of their messages |
| Deployment.MakeAllIdempotent | atomic-deploy.php:307-317 | over a layout that already exists, the steps succeed and change nothing |
| Deployment.MakeAllTolerant | atomic-deploy.php:307-317 | with the `!is_dir($concurrentDirectory)` recheck, the steps succeed exactly when every layout directory exists afterwards, so a lost `mkdir` race is no failure |
| Deployment.RelinkPointsAt | src/Deployer.php:169-176 | after a successful relink, the link name holds a link to the target, and it is the newest entry |
| Deployment.RelinkKeepsOthers | src/Deployer.php:169-176 | a link outside the replaced path keeps its target |
| Deployment.LinkAllLinksEach | src/Deployer.php:148-157 | when every symlink was made and the link names are separate, each link name points at its own target afterwards |
| Deployment.LinkAllKeeps | src/Deployer.php:148-157 | links outside every link name are kept |
| Deployment.PruneRevisionsRetention | src/Deployer.php:200-221 | any count above 0 whose sum with 2 is a whole number `m`, in either listing order: the first `m - 1` lines of the listing keep their directory or link, every later one that may be removed is gone, and the step throws its `RuntimeException` exactly when a later one may not be removed |
| Deployment.PruneRevisionsTextCount | atomic-deploy.php:410-415 | a count read from the command line as an integer string prunes exactly as the integer it spells |
| Deployment.PruneRevisionsAlike | atomic-deploy.php:412-415 | two counts with the same sign and the same sum with 2 prune alike |
| Deployment.PruneRevisionsKeepsNewest | atomic-deploy.php:410-432 | keeping `n` > 0 revisions, in either listing order: the newest `n + 1` entries of the revisions directory keep their directory or link, every older one that may be removed is gone, and the step throws its `RuntimeException` exactly when an older one may not be removed |
| Deployment.PruneRevisionsSparesShallow | atomic-deploy.php:410-432 | whatever the count, a path no longer than the revisions directory (the deploy directory, `current`) keeps its directory or link |
| Deployment.PruneRevisionsNothingToDo | atomic-deploy.php:412 | a count that is not above 0 changes nothing and throws nothing |
| Diagnostics.InArrayMeaning | atomic-deploy.php:478 | `in_array` holds exactly when some element compares equal |
| Diagnostics.ReportedSound | atomic-deploy.php:477-482 | every line `outputErrors` prints is a non-empty, truthy line of the buffer |
| Diagnostics.ReportedComplete | atomic-deploy.php:477-482 | every truthy buffered line is printed, or one equal to it is |
| Diagnostics.ReportedDistinct | src/Deployer.php:249-254 | no printed line compares equal to one printed before it, under the comparison `in_array` uses |
| Diagnostics.StrictReportedUnique | atomic-deploy.php:478 | with the strict comparison, no line is printed twice |
| Diagnostics.StrictReportedInFirstOccurrenceOrder | atomic-deploy.php:477-482 | with the strict comparison, lines are printed in the order of their first occurrence in the buffer |
| Diagnostics.OutputErrors | atomic-deploy.php:472-483 | the buffer is closed, and the screen gains one line for each line the dedup keeps |
| Options.GetOptValue | atomic-deploy.php:96-112 | with no argument starting with the option, the default is returned; otherwise the value of the first argument that does. The packaged `getOptValue` (src/AtomicDeploy.php:49-65) tests the same two conditions in the other order, with the same result |
| Options.DefaultOnlyWhenAbsent | atomic-deploy.php:96-112 | once the option occurs, the default plays no part |
| Options.LongerArgumentShadows | atomic-deploy.php:102-107 | matching is by prefix: an argument that merely starts with the option is taken, and the character after the option name is dropped |
| Options.RevisionShadowedByRevisionsToKeep | atomic-deploy.php:24-25 | a `--revisions-to-keep=n` given first is read as `--revision` with the value `-to-keep=n` |
| Options.SpacedAndEqualsFormsAgree | atomic-deploy.php:103-107 | `--opt value` and `--opt=value` give the same value |
| Options.UseAnsi | atomic-deploy.php:68-85 | `--no-ansi` turns colours off and wins over `--ansi`; `--ansi` alone turns them on |
| Options.AnsiFlagsOverrideTerminal | src/AtomicDeploy.php:115-132 | the terminal decides only when neither flag is given |
| Options.ComplaintsMeaning | atomic-deploy.php:130-160 | a check is reported exactly when it fails (`Fails`: a given directory that is not one, an empty revision, a count not above 0, symlinks `json_decode` rejects); every check runs, whatever the earlier ones found |
| Options.NoComplaints | atomic-deploy.php:130-160 | the parameters are accepted exactly when none of the five checks fails |
| Options.SilentExactlyWhenAccepted | src/AtomicDeploy.php:78-108 | `checkParams` prints nothing exactly when it accepts |
| Options.CheckParams | atomic-deploy.php:130-160 | it returns true exactly when no check fails, and prints one line for each failed check, in order |
| Options.RevisionZeroRejected | atomic-deploy.php:144 | a revision is rejected exactly when it is `""` or `"0"` |
| Options.KeepRefusedBySign | atomic-deploy.php:149 | a given count is refused exactly when it is not above 0 as PHP 8 compares it; `(integer)` plays no part |
| Options.NonNumericKeepAccepted | atomic-deploy.php:149 | `--revisions-to-keep=abc` passes the check, because PHP 8 compares `"abc" <= 0` as strings |
| Options.DecimalZeroKeepRejected | atomic-deploy.php:149 | `--revisions-to-keep=0.0` is refused, because `"0.0"` is numeric with the value 0 |
| Options.DecimalHalfKeepAccepted | atomic-deploy.php:149 | `--revisions-to-keep=.5` passes the check |
| ScriptDeploy.PrepareRun | atomic-deploy.php:240-247 | the first three steps: the revision step runs only when the layout step finished, the copy only when the revision step did |
| ScriptDeploy.SwitchRun | atomic-deploy.php:249-256 | the last three steps: the switch runs only when the links finished, the pruning only when the switch did |
| ScriptDeploy.RunSucceedsOnlyWhenAllStepsFinish | atomic-deploy.php:236-274 | `run` returns true exactly when all six steps finished |
| ScriptDeploy.InitLeavesLayout | atomic-deploy.php:296-318 | a finished `initDirectories` leaves the three layout directories in place, under a deploy path without a trailing `/` |
| ScriptDeploy.LaterStepsKeepPaths | atomic-deploy.php:325-432 | no step after the first changes the deploy path or the revisions directory |
| ScriptDeploy.CurrentAboveRevisions | atomic-deploy.php:393 | `dir/current` is shorter than `dir/revisions`, so it is never inside a pruned entry |
| ScriptDeploy.SwitchLinksCurrent | atomic-deploy.php:388-403 | a finished switch leaves `current` a link to the resolved revision path when `current` was a directory, and changes nothing otherwise |
| ScriptDeploy.PruneSparesLinksAbove | atomic-deploy.php:410-432 | pruning keeps every link no longer than the revisions directory, with its target |
| ScriptDeploy.LayoutAfterInit | atomic-deploy.php:236-274 | in a run where every step finished, the first step left the three layout directories in place |
| ScriptDeploy.CurrentSurvivesPrune | atomic-deploy.php:236-274 | in a run where every step finished, the `current` link the switch made is still there, with the same target, after the pruning |
| ScriptDeploy.ScriptSucceeded | atomic-deploy.php:236-274 | when `run` returns true, the layout directories existed after the first step, and at the end `current` links to the resolved revision path when it was a directory before the switch; otherwise the switch changed nothing |
| ScriptDeploy.Deployer.constructor | atomic-deploy.php:217-223 | quiet mode opens an empty output buffer; the handler starts inactive |
| ScriptDeploy.Deployer.Run | atomic-deploy.php:236-274 | `run` sets the deploy path and runs the six steps until one throws. Its result, the deployer's state, the filesystem and the screen are those of that run: true when all finished, false after a `RuntimeException`, whose message is printed last, or an escaping `Error`. Only after a `RuntimeException` is the revision unlinked and, in quiet mode, the buffer replayed |
| ScriptDeploy.Deployer.Conclude | atomic-deploy.php:259-274 | after the steps: `cleanUp`, then the message of a `RuntimeException`, then the result; an `Error` escapes untouched |
| ScriptDeploy.Deployer.Steps | atomic-deploy.php:239-257 | the `try` block: the outcome is the last one of the six steps run until one throws, and the deployer, the filesystem and the screen are in the state that run leaves |
| ScriptDeploy.Deployer.Prepare | atomic-deploy.php:240-247 | the first three steps, each announced, until one throws; the state is the one they leave |
| ScriptDeploy.Deployer.Switch | atomic-deploy.php:249-256 | the last three steps, each announced, until one throws; the state is the one they leave |
| ScriptDeploy.Deployer.TakeInit | atomic-deploy.php:240-241 | the announcement, then `initDirectories`, as the layout step describes |
| ScriptDeploy.Deployer.TakeRevision | atomic-deploy.php:243-244 | the announcement, then `createRevisionDir`, as the revision step describes |
| ScriptDeploy.Deployer.TakeCopy | atomic-deploy.php:246-247 | the announcement, then `copyCacheToRevision` of `deployPath/cacheDir` |
| ScriptDeploy.Deployer.TakeLinks | atomic-deploy.php:249-250 | the announcement, then `createSymLinks` |
| ScriptDeploy.Deployer.TakeCurrent | atomic-deploy.php:252-253 | the announcement, then `linkCurrentRevision` |
| ScriptDeploy.Deployer.TakePrune | atomic-deploy.php:255-256 | the announcement, then `pruneOldRevisions` |
| ScriptDeploy.Deployer.InitDirectories | atomic-deploy.php:296-318 | the deploy path is `rtrim`med when it is a directory, and `""` otherwise. The layout paths are built under it. An unwritable deploy directory throws, changing nothing; otherwise the three directory steps run |
| ScriptDeploy.Deployer.MakeLayout | atomic-deploy.php:307-317 | the three tolerant directory steps run in order |
| ScriptDeploy.Deployer.CreateRevisionDir | atomic-deploy.php:325-344 | the revision path is `buildPath([revisionDir, revision])`, with `-time()` appended when that is a directory. It is made recursively when missing, and it must be a writable directory |
| ScriptDeploy.Deployer.MakeRevisionPath | atomic-deploy.php:337-343 | the revision path is made when missing, and it must be a writable directory |
| ScriptDeploy.Deployer.CopyCacheToRevision | atomic-deploy.php:349-361 | the cache is copied into the revision. On failure it throws, leaving the handler active with the warning number as its message |
| ScriptDeploy.Deployer.CreateSymLinks | atomic-deploy.php:366-383 | each entry is announced and linked in turn. A failed link raises a `TypeError` that escapes `run`. A value `foreach` cannot iterate changes nothing |
| ScriptDeploy.Deployer.LinkEach | atomic-deploy.php:370-380 | the entries are linked in order until one fails, and each one attempted is announced |
| ScriptDeploy.Deployer.LinkNext | atomic-deploy.php:370-380 | one pass of the loop: after the first `i` entries, entry `i` is announced and linked; a failure ends the loop there |
| ScriptDeploy.Deployer.LinkPair | atomic-deploy.php:371-376 | the line for one entry is printed, then the entry is linked |
| ScriptDeploy.Deployer.CreateSymLink | atomic-deploy.php:440-449 | only a link name that is a directory is replaced; a failure is a `TypeError` |
| ScriptDeploy.Deployer.LinkCurrentRevision | atomic-deploy.php:388-403 | `current` under the deploy path is relinked to the `realpath` of the revision, or to `""`, after a printed line |
| ScriptDeploy.Deployer.PruneOldRevisions | atomic-deploy.php:410-432 | nothing happens unless the count is above 0. A non-numeric count raises a `TypeError` at `+ 2`. Otherwise the revision entries from position count+2 on are removed |
| ScriptDeploy.Deployer.CleanUp | atomic-deploy.php:456-466 | on failure, quiet mode replays the buffer, each line once, and the revision is unlinked; on success nothing changes |
| ScriptDeploy.Deployer.Uninstall | atomic-deploy.php:489-494 | a truthy revision path that is a directory is unlinked; otherwise nothing changes |
| ScriptDeploy.ScriptDefaults | atomic-deploy.php:21-26 | without any of the options, `process` deploys the working directory from `deploy-cache`, as the random revision, keeping 10 revisions, with no symlinks |
| ScriptDeploy.Process | atomic-deploy.php:11-38 | `--help` exits 0 and changes nothing. A failed check exits 1 after printing its messages, and deploys nothing. Accepted options run the deployment: the exit status, the filesystem after `cleanUp` and the screen are those of the run, quiet mode's buffer included. Status 0 comes only from `--help` or from all six steps finishing |
| ScriptDeploy.Deploy | atomic-deploy.php:32-37 | a fresh deployer runs the six steps: the exit status, the filesystem and the screen are those of that run; status 0 means that all six steps finished |
| SrcDeployer.ConfigInsideShared | src/Deployer.php:18-32 | the config directory is `config` inside the shared one |
| SrcDeployer.BaseTrailingSeparatorIgnored | src/Deployer.php:31 | a base with a trailing `/` gives the same layout |
| SrcDeployer.DefaultBaseIsRoot | src/Deployer.php:24-32 | with the default base `''` the layout is `/revisions`, `/shared` and `/shared/config`, at the filesystem root |
| SrcDeployer.PlaceUnder | src/Deployer.php:30-32 | the constructor's loop places every directory under the base |
| SrcDeployer.RevisionsDirEnds | src/Deployer.php:18-32 | whatever the base, the revisions directory ends in `/revisions` |
| SrcDeployer.MakeRevisionDirectoryEffect | src/Deployer.php:117-123 | at most the revision directory is added, and no link changes. The step succeeds exactly when the directory ends up writable and was there or was made; a lost race throws |
| SrcDeployer.PrepareRun | src/Deployer.php:42-49 | the first three steps: the revision step runs only when the layout step finished, the copy only when the revision step did |
| SrcDeployer.SwitchRun | src/Deployer.php:51-58 | the last three steps: the switch runs only when the links finished, the pruning only when the switch did |
| SrcDeployer.RunNeverReturnsTrue | src/Deployer.php:39-74 | `run` never returns true. It returns nothing exactly when all six steps finished |
| SrcDeployer.InitLeavesLayout | src/Deployer.php:82-101 | a finished `initDirectories` leaves the three layout directories in place, under a deploy path without a trailing `/` |
| SrcDeployer.LaterStepsKeepPaths | src/Deployer.php:109-195 | the revision, copy, link and switch steps keep the deploy path and the revisions directory |
| SrcDeployer.CurrentAboveRevisions | src/Deployer.php:186 | `deployPath/current` is shorter than `deployPath/` followed by the revisions directory, so it is never inside a pruned entry |
| SrcDeployer.SwitchLinksCurrent | src/Deployer.php:181-195 | a finished switch leaves `deployPath/current` a link to the revision path |
| SrcDeployer.PruneSparesLinksAbove | src/Deployer.php:200-221 | pruning keeps every link no longer than the listed directory, with its target |
| SrcDeployer.LayoutAfterInit | src/Deployer.php:39-74 | in a run where every step finished, the first step left the three layout directories in place |
| SrcDeployer.CurrentSurvivesPrune | src/Deployer.php:39-74 | in a run where every step finished, `current` still links to the revision path after the pruning |
| SrcDeployer.SrcRunFinished | src/Deployer.php:39-74 | when `run` leaves `$result` unassigned, the layout directories existed after the first step, and at the end of the steps `current` links to the revision path |
| SrcDeployer.Deployer.constructor | src/Deployer.php:24-37 | quiet mode opens a buffer; `$directories` is placed under the base |
| SrcDeployer.Deployer.Run | src/Deployer.php:39-74 | `run` runs the six steps until one throws. Its result, the deployer's state, the filesystem and the screen are those of that run: unassigned when all finished, false after a `RuntimeException`, whose message is printed last, or an escaping `Error`. Unless an `Error` escaped, the revision is unlinked and, in quiet mode, the buffer replayed, success included |
| SrcDeployer.Deployer.Conclude | src/Deployer.php:60-73 | after the steps: `cleanUp` unless an `Error` escaped, then the message of a `RuntimeException`, then the result |
| SrcDeployer.Deployer.Steps | src/Deployer.php:41-58 | the `try` block: the outcome is the last one of the six steps run until one throws, and the deployer, the filesystem and the screen are in the state that run leaves |
| SrcDeployer.Deployer.Prepare | src/Deployer.php:42-49 | the first three steps, each announced, until one throws; the state is the one they leave |
| SrcDeployer.Deployer.Switch | src/Deployer.php:51-58 | the last three steps, each announced, until one throws; the state is the one they leave |
| SrcDeployer.Deployer.TakeInit | src/Deployer.php:42-43 | the announcement, then `initDirectories` |
| SrcDeployer.Deployer.TakeRevision | src/Deployer.php:45-46 | the announcement, then `createRevisionDir` |
| SrcDeployer.Deployer.TakeCopy | src/Deployer.php:48-49 | the announcement, then `copyCacheToRevision` of the cache directory as given |
| SrcDeployer.Deployer.TakeLinks | src/Deployer.php:51-52 | the announcement, then `createSymLinks` |
| SrcDeployer.Deployer.TakeCurrent | src/Deployer.php:54-55 | the announcement, then `linkCurrentRevision` |
| SrcDeployer.Deployer.TakePrune | src/Deployer.php:57-58 | the announcement, then `pruneOldRevisions` |
| SrcDeployer.Deployer.InitDirectories | src/Deployer.php:82-101 | the deploy path is `rtrim`med when it is a directory, and `""` otherwise. An unwritable deploy directory throws, changing nothing; otherwise the three strict directory steps run |
| SrcDeployer.Deployer.MakeLayout | src/Deployer.php:90-100 | the three directory steps run in order; any failed `mkdir` throws |
| SrcDeployer.Deployer.CreateRevisionDir | src/Deployer.php:109-124 | the revision path is `rtrim(revisions . '/' . revision, '/')`, with `-time()` appended when that is a directory. It is made when missing, and it must be writable |
| SrcDeployer.Deployer.MakeRevisionPath | src/Deployer.php:117-123 | the revision directory step on the current revision path |
| SrcDeployer.Deployer.CopyCacheToRevision | src/Deployer.php:126-137 | the cache is copied into the revision. On failure it throws, leaving the handler active with "Array to string conversion" as its message |
| SrcDeployer.Deployer.CreateSymLinks | src/Deployer.php:144-160 | the entries are linked in order until one fails, and a failure is a `TypeError`. For a value `foreach` cannot iterate, only the handler records its warning |
| SrcDeployer.Deployer.LinkEach | src/Deployer.php:148-157 | the entries are linked in order until one fails |
| SrcDeployer.Deployer.CreateSymLink | src/Deployer.php:169-176 | the link name is always replaced by a link; a failure is a `TypeError` |
| SrcDeployer.Deployer.LinkCurrentRevision | src/Deployer.php:181-195 | `deployPath/current` is relinked to the revision path. On success it points there, and the handler is stopped |
| SrcDeployer.Deployer.PruneOldRevisions | src/Deployer.php:200-221 | nothing happens unless the count is above 0. A non-numeric count raises a `TypeError` at `+ 2`. Otherwise the entries of `deployPath/` followed by the revisions directory, listed by modification time, are removed from position count+2 on, and a failed removal throws |
| SrcDeployer.Deployer.CleanUp | src/Deployer.php:228-238 | on failure, quiet mode replays the buffer, each line once under loose comparison, and the revision is unlinked |
| SrcDeployer.Deployer.Uninstall | src/Deployer.php:261-266 | a truthy revision path that is a directory is unlinked; otherwise nothing changes |
| SrcAtomicDeploy.CacheDirFollowsDeployDir | src/AtomicDeploy.php:21-22 | a given `--deploy-dir` is also the cache directory; without one the cache directory is `deploy-cache` |
| SrcAtomicDeploy.SrcDefaults | src/AtomicDeploy.php:21-25 | without any of the options the revision is `false`, so the revision check fails and `process` goes on to deploy, keeping 5 revisions |
| SrcAtomicDeploy.FlagLookupIsStrict | src/AtomicDeploy.php:13-19 | the loose `in_array` for a non-numeric flag is plain equality |
| SrcAtomicDeploy.Process | src/AtomicDeploy.php:9-38 | `--help` exits 0 and changes nothing. Accepted options exit 1, deploying nothing and printing nothing. A failed check prints its messages and runs the deployment: the exit status, the filesystem after `cleanUp` and the screen are those of the run. Status 0 comes from `--help` only |
| SrcAtomicDeploy.Deploy | src/AtomicDeploy.php:31-37 | a fresh deployer with base `''` runs the six steps: the exit status, the filesystem and the screen are those of that run, and the status is never 0 |

## Left out

- Colours: `out()` is modelled as writing its text and a newline. The ANSI escape codes
  and `USE_ANSI` take no part in what is written. `SrcDeployer.Deployer` keeps
  `useAnsi` but never reads it.
- `displayHelp`: its text is not modelled; `--help` only ends the script with status 0.
- The unqualified `out()` that `src/AtomicDeploy.php` and `src/Deployer.php` call is a
  global function that the `src/` files do not define. It is modelled as the script's
  `out`.
- Regular files are not modelled. The filesystem holds directories and symbolic links
  only, so `cp -a` copies the directory tree and its links.
- Whether a path is writable, what `mkdir` does, whether `rm -rf` succeeds, and each
  entry's modification time are given per path, as oracles. Permissions, ownership and
  modes are left out.
- Fs.State.Realpath: links are resolved only for the path as a whole, and only one link
  deep; a link in the middle of a path, a chain of links, `..` and the working directory
  are not resolved, so the result is not an absolute path. The same one-link resolution
  (`State.Resolve`) also decides `is_dir` and `is_writable`, whether `mkdir`'s parent
  exists, and where `cp -a` copies to. A path through a link in the middle, or through a
  chain of links, is therefore taken as missing.
- The script's `ls -1dtpc` sorts by change time. The model keeps one newest-first order
  of creation and replacement; `cp -a` into a fresh directory, `mkdir` and `ln -sfn` add
  at the front. Ties between equal change times are not modelled. The `-p` slash after a
  directory name is left out, since `rm -rf` treats both spellings alike.
- SrcDeployer.Deployer.PruneOldRevisions: `ls -1dtp` sorts by modification time. This
  time is an oracle per path (`Oracles.modified`), fixed for the run, with equal times
  ordered by name in character order rather than the locale's collation. The model does
  not tie the new revision's time to the deploy cache's time, which `cp -a`
  (src/Deployer.php:130) carries over. So it promises retention only in listing order,
  not that the revision just made is kept.
- Shell quoting: every `exec` puts paths into the command unquoted
  (atomic-deploy.php:354, 424 and 443; src/Deployer.php:130, 171 and 214). The model
  takes each path as one argument, so it assumes paths with no whitespace or shell
  metacharacters and no leading `-`.
- `getcwd()` returning false is not modelled; the working directory is always a string.
- `exec`'s `$output` is always an array. Only its string form, "Array", and the
  `TypeError` it causes in `new RuntimeException($output)` are modelled, not its lines.
- Fs.FileSystem.Unlink: on a directory the outcome is left open (kept or removed), not
  modelled as PHP's warning.
- Concurrency: another process can make a directory between `is_dir` and `mkdir`. This
  is the `LostRace` fate, and it is the only concurrency modelled.
- PHP notices and warnings outside an active error handler are not modelled. This covers
  `Undefined variable $result` in the packaged `run`, the warning `mkdir` gives on
  failure, and the warning `"5abc" + 2` gives.
- Php.NumericString: values are exact decimals. PHP turns a numeric string with a
  fraction or an exponent into a double, so strings that differ only beyond double
  precision, and overflow to infinity, are not modelled.
- Php.WholeValue: a count whose `+ 2` is not a whole number makes `tail -n` fail; the
  pipeline's status is then that of `xargs` on no input, so nothing is removed and no
  exception is thrown. The model states this outcome without modelling `tail`'s message.
- `json_decode` is an input. Its result is null, a named scalar, or the entries of an
  object or array as string pairs. Nested and non-string values are left out.
- Options.ComplaintsMeaning: states membership only, not that each check is reported at
  most once.
- The deployer's `errHandler` is not part of the step state: the steps' functions do not
  say what the handler holds after each step; the methods' own `ensures` do.
- ScriptDeploy.ScriptSucceeded: states the layout right after the first step and the
  `current` link at the end of the steps, not after `cleanUp`, which changes nothing after
  a run that returned true.
- SrcDeployer.SrcRunFinished: states the `current` link at the end of the steps, not after
  `cleanUp`, which in the packaged version then attempts to unlink the revision path.
- `ScriptDeploy.Process` and `SrcAtomicDeploy.Process` do not model `exit` as ending the
  PHP process. The exit status is returned instead.
- `includes/PasswordProtect.php`, `test.php` and the tests are not part of this model.
