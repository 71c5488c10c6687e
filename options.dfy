/** Command-line handling shared by both versions of the script: reading an option's
    value, deciding on ANSI colours, and the parameter checks. */
module Options {
  import opened Php
  import opened Output

  /** `getOptValue($opt, $argv, $default)`: the first argument that starts with `opt`
      decides; without one the default is returned. */
  function GetOptValue(opt: string, argv: seq<string>, default: ArgValue): (r: ArgValue)
    ensures (forall k :: 0 <= k < |argv| ==> !StartsWith(argv[k], opt)) ==> r == default
    ensures forall k :: FirstMatch(opt, argv, k) ==> r == Text(ValueAt(opt, argv, k))
  {
    OptValueFrom(opt, argv, 0, default)
  }

  /** `argv[k]` is the first argument that starts with `opt`. */
  predicate FirstMatch(opt: string, argv: seq<string>, k: int) {
    0 <= k < |argv| && StartsWith(argv[k], opt)
    && forall j :: 0 <= j < k ==> !StartsWith(argv[j], opt)
  }

  /** No argument in `argv[i..k]` starts with `opt`. */
  predicate NoMatchBetween(opt: string, argv: seq<string>, i: int, k: int)
    requires 0 <= i && k <= |argv|
  {
    forall j :: i <= j < k ==> !StartsWith(argv[j], opt)
  }

  /** The value a matching `argv[k]` gives: the next argument when `argv[k]` is the
      option itself and a next argument exists, otherwise what follows the option and
      one more character (the `=`); trimmed either way. */
  function ValueAt(opt: string, argv: seq<string>, k: nat): string
    requires k < |argv|
  {
    if |argv[k]| == |opt| && k + 1 < |argv| then Trim(argv[k + 1])
    else Trim(Substr(argv[k], |opt| + 1))
  }

  /** The search from position `i` on. */
  function OptValueFrom(opt: string, argv: seq<string>, i: nat, default: ArgValue): (r: ArgValue)
    ensures (forall k :: i <= k < |argv| ==> !StartsWith(argv[k], opt)) ==> r == default
    ensures forall k :: i <= k < |argv| && StartsWith(argv[k], opt) && NoMatchBetween(opt, argv, i, k) ==>
              r == Text(ValueAt(opt, argv, k))
    decreases |argv| - i
  {
    if i >= |argv| then default
    else if StartsWith(argv[i], opt) then Text(ValueAt(opt, argv, i))
    else OptValueFrom(opt, argv, i + 1, default)
  }

  /** The default matters only when no argument starts with the option name: reading
      the same option with two defaults gives one value as soon as one does. */
  lemma {:induction false} DefaultOnlyWhenAbsent(opt: string, argv: seq<string>, d1: ArgValue, d2: ArgValue)
    ensures (exists k :: 0 <= k < |argv| && StartsWith(argv[k], opt)) ==> GetOptValue(opt, argv, d1) == GetOptValue(opt, argv, d2)
  {
    if k :| 0 <= k < |argv| && StartsWith(argv[k], opt) {
      SameFromMatch(opt, argv, 0, k, d1, d2);
    }
  }

  lemma {:induction false} SameFromMatch(opt: string, argv: seq<string>, i: nat, k: nat, d1: ArgValue, d2: ArgValue)
    requires i <= k < |argv| && StartsWith(argv[k], opt)
    ensures OptValueFrom(opt, argv, i, d1) == OptValueFrom(opt, argv, i, d2)
    decreases k - i
  {
    if !StartsWith(argv[i], opt) {
      SameFromMatch(opt, argv, i + 1, k, d1, d2);
    }
  }

  /** An argument that starts with the option name but is longer is read as that option
      when it comes first, whatever follows the name: the value is what follows the
      name and one more character. */
  lemma {:induction false} LongerArgumentShadows(opt: string, c: char, value: string, rest: seq<string>, default: ArgValue)
    ensures GetOptValue(opt, [opt + [c] + value] + rest, default) == Text(Trim(value))
  {
    var arg := opt + [c] + value;
    assert arg[..|opt|] == opt && arg[|opt| + 1..] == value;
    assert FirstMatch(opt, [arg] + rest, 0);
  }

  /** So `--revisions-to-keep=N` (the name `--revision`, an "s" and the rest), given
      first, is read as `--revision` with the value "-to-keep=N". */
  lemma RevisionShadowedByRevisionsToKeep(n: string, rest: seq<string>)
    requires n != [] && !IsTrimChar(n[|n| - 1])
    ensures GetOptValue("--revision", ["--revision" + "s" + ("-to-keep=" + n)] + rest, False) == Text("-to-keep=" + n)
  {
    var value := "-to-keep=" + n;
    LongerArgumentShadows("--revision", 's', value, rest, False);
    assert value[0] == '-' && value[|value| - 1] == n[|n| - 1];
    TrimUnchanged(value);
  }

  /** `--flag value` and `--flag=value` read the same. */
  lemma SpacedAndEqualsFormsAgree(opt: string, value: string)
    requires opt != []
    ensures GetOptValue(opt, [opt, value], False) == GetOptValue(opt, [opt + "=" + value], False)
  {
    assert FirstMatch(opt, [opt, value], 0);
    var eq := opt + "=" + value;
    assert eq[..|opt|] == opt;
    assert FirstMatch(opt, [eq], 0);
    assert Substr(eq, |opt| + 1) == value;
  }

  // ---------------------------------------------------------------------------
  // setUseAnsi

  /** What `setUseAnsi` consults when neither flag is given. */
  datatype Terminal = Terminal(
    windows: bool,              // DIRECTORY_SEPARATOR is a backslash
    ansicon: Option<string>,    // getenv('ANSICON')
    conEmuAnsi: Option<string>, // getenv('ConEmuANSI')
    stdoutIsTty: bool)          // function_exists('posix_isatty') && posix_isatty(1)

  /** The value `setUseAnsi` defines `USE_ANSI` to. */
  function UseAnsi(argv: seq<string>, t: Terminal): (r: bool)
    ensures "--no-ansi" in argv ==> !r
    ensures "--no-ansi" !in argv && "--ansi" in argv ==> r
  {
    if "--no-ansi" in argv then false
    else if "--ansi" in argv then true
    else if t.windows then t.ansicon.Some? || t.conEmuAnsi == Some("ON")
    else t.stdoutIsTty
  }

  /** The environment and the terminal matter only when neither flag is given. */
  lemma {:induction false} AnsiFlagsOverrideTerminal(argv: seq<string>, t1: Terminal, t2: Terminal)
    ensures UseAnsi(argv, t1) != UseAnsi(argv, t2) ==> "--no-ansi" !in argv && "--ansi" !in argv
  {
  }

  // ---------------------------------------------------------------------------
  // checkParams

  /** The five checks of `checkParams`, in the order they run. */
  datatype Complaint = DeployDirMissing | CacheDirMissing | NoRevision | BadRevisionsToKeep | BadSymlinks

  /** The five values `checkParams` is given. */
  datatype Params = Params(deployDir: ArgValue, cacheDir: ArgValue, revision: ArgValue, keep: ArgValue, symLinks: ArgValue)

  /** A value as PHP turns it into a string where a string is needed. */
  function AsText(v: ArgValue): string {
    match v
    case False => ""
    case Text(s) => s
    case Number(n) => if n < 0 then "-" + NatToDecimal(-n) else NatToDecimal(n)
  }

  /** Whether check `c` fails; `isDir` is `is_dir`, `decodes` is "`json_decode` does not
      return null". */
  predicate Fails(c: Complaint, isDir: string -> bool, decodes: string -> bool, p: Params) {
    match c
    case DeployDirMissing => p.deployDir != False && !isDir(AsText(p.deployDir))
    case CacheDirMissing => p.cacheDir != False && !isDir(AsText(p.cacheDir))
    // `false === $revision || empty($revision)`: `empty` already covers false
    case NoRevision => IsEmpty(p.revision)
    // `(integer)$x` is always an int, so only `$x <= 0` decides
    case BadRevisionsToKeep => p.keep != False && SignAgainstZero(p.keep) <= 0
    case BadSymlinks => p.symLinks != False && !decodes(AsText(p.symLinks))
  }

  /** The checks that fail, in the order `checkParams` runs them: every check runs,
      whatever the earlier ones found. */
  function Complaints(isDir: string -> bool, decodes: string -> bool, p: Params): seq<Complaint>
  {
    If(Fails(DeployDirMissing, isDir, decodes, p), DeployDirMissing)
    + If(Fails(CacheDirMissing, isDir, decodes, p), CacheDirMissing)
    + If(Fails(NoRevision, isDir, decodes, p), NoRevision)
    + If(Fails(BadRevisionsToKeep, isDir, decodes, p), BadRevisionsToKeep)
    + If(Fails(BadSymlinks, isDir, decodes, p), BadSymlinks)
  }

  /** `[c]` when check `c` fails, nothing otherwise. */
  function If(b: bool, c: Complaint): seq<Complaint> {
    if b then [c] else []
  }

  /** Each check contributes its complaint exactly when it fails, whatever the others
      found. */
  lemma ComplaintsMeaning(isDir: string -> bool, decodes: string -> bool, p: Params, c: Complaint)
    ensures c in Complaints(isDir, decodes, p) <==> Fails(c, isDir, decodes, p)
  {
    Picked(Fails(DeployDirMissing, isDir, decodes, p), Fails(CacheDirMissing, isDir, decodes, p),
           Fails(NoRevision, isDir, decodes, p), Fails(BadRevisionsToKeep, isDir, decodes, p),
           Fails(BadSymlinks, isDir, decodes, p), c);
    match c
    case DeployDirMissing =>
    case CacheDirMissing =>
    case NoRevision =>
    case BadRevisionsToKeep =>
    case BadSymlinks =>
  }

  /** Five checks with outcomes `b1`..`b5`: a complaint is collected exactly when its
      check fails. */
  lemma Picked(b1: bool, b2: bool, b3: bool, b4: bool, b5: bool, c: Complaint)
    ensures c in If(b1, DeployDirMissing) + If(b2, CacheDirMissing) + If(b3, NoRevision)
                 + If(b4, BadRevisionsToKeep) + If(b5, BadSymlinks)
      <==> (c == DeployDirMissing && b1) || (c == CacheDirMissing && b2) || (c == NoRevision && b3)
           || (c == BadRevisionsToKeep && b4) || (c == BadSymlinks && b5)
  {
  }

  /** The messages both versions print for the checks they word alike. */
  function DeployDirMissingMessage(p: Params): string {
    "The defined deploy dir (" + AsText(p.deployDir) + ") does not exist."
  }
  const NoRevisionMessage: string := "A revision must be specified."
  const BadRevisionsToKeepMessage: string := "Number of revisions to keep must be a number greater than zero."
  const BadSymlinksMessage: string := "Symlinks parameter is not valid JSON."

  /** The line check `c` writes when it fails, nothing when it passes. */
  function Line(failed: bool, c: Complaint, say: Complaint -> string): string {
    if failed then say(c) + "\n" else ""
  }

  /** The text the five checks write, one after the other. */
  function Told(isDir: string -> bool, decodes: string -> bool, p: Params, say: Complaint -> string): string {
    Line(Fails(DeployDirMissing, isDir, decodes, p), DeployDirMissing, say)
    + Line(Fails(CacheDirMissing, isDir, decodes, p), CacheDirMissing, say)
    + Line(Fails(NoRevision, isDir, decodes, p), NoRevision, say)
    + Line(Fails(BadRevisionsToKeep, isDir, decodes, p), BadRevisionsToKeep, say)
    + Line(Fails(BadSymlinks, isDir, decodes, p), BadSymlinks, say)
  }

  /** `checkParams` writes nothing exactly when every check passes. */
  lemma SilentExactlyWhenAccepted(isDir: string -> bool, decodes: string -> bool, p: Params, say: Complaint -> string)
    ensures Told(isDir, decodes, p, say) == "" <==> Complaints(isDir, decodes, p) == []
  {
  }

  /** `checkParams(...)`: every check runs in turn, and each that fails prints its
      message (as `say` words it) and clears the result. */
  method CheckParams(console: Console, isDir: string -> bool, decodes: string -> bool, p: Params, say: Complaint -> string)
    returns (ok: bool)
    modifies console
    ensures ok <==> Complaints(isDir, decodes, p) == []
    ensures console.buffering == old(console.buffering)
    ensures console.Extends(old(console.buffer), old(console.shown), Told(isDir, decodes, p, say))
  {
    ghost var b0, s0 := console.buffer, console.shown;
    ok := true;
    ok := Check(console, b0, s0, "", Fails(DeployDirMissing, isDir, decodes, p), DeployDirMissing, say, ok);
    ghost var t1 := Line(Fails(DeployDirMissing, isDir, decodes, p), DeployDirMissing, say);
    ok := Check(console, b0, s0, t1, Fails(CacheDirMissing, isDir, decodes, p), CacheDirMissing, say, ok);
    ghost var t2 := t1 + Line(Fails(CacheDirMissing, isDir, decodes, p), CacheDirMissing, say);
    ok := Check(console, b0, s0, t2, Fails(NoRevision, isDir, decodes, p), NoRevision, say, ok);
    ghost var t3 := t2 + Line(Fails(NoRevision, isDir, decodes, p), NoRevision, say);
    ok := Check(console, b0, s0, t3, Fails(BadRevisionsToKeep, isDir, decodes, p), BadRevisionsToKeep, say, ok);
    ghost var t4 := t3 + Line(Fails(BadRevisionsToKeep, isDir, decodes, p), BadRevisionsToKeep, say);
    ok := Check(console, b0, s0, t4, Fails(BadSymlinks, isDir, decodes, p), BadSymlinks, say, ok);
    NoComplaints(isDir, decodes, p);
  }

  /** No complaint exactly when every check passes. */
  lemma NoComplaints(isDir: string -> bool, decodes: string -> bool, p: Params)
    ensures Complaints(isDir, decodes, p) == [] <==>
      !Fails(DeployDirMissing, isDir, decodes, p) && !Fails(CacheDirMissing, isDir, decodes, p)
      && !Fails(NoRevision, isDir, decodes, p) && !Fails(BadRevisionsToKeep, isDir, decodes, p)
      && !Fails(BadSymlinks, isDir, decodes, p)
  {
  }

  /** One check of `checkParams`: when it fails, its message is written after the text
      `before` and the result is cleared. */
  method Check(console: Console, ghost b0: string, ghost s0: string, ghost before: string, failed: bool, c: Complaint,
               say: Complaint -> string, okBefore: bool)
    returns (ok: bool)
    requires console.Extends(b0, s0, before)
    modifies console
    ensures ok == (okBefore && !failed)
    ensures console.buffering == old(console.buffering)
    ensures console.Extends(b0, s0, before + Line(failed, c, say))
  {
    ok := okBefore;
    if failed {
      ghost var b1, s1 := console.buffer, console.shown;
      console.Write(say(c) + "\n");
      AppendedTwice(console.buffering, b0, s0, b1, s1, console.buffer, console.shown, before, say(c) + "\n");
      ok := false;
    } else {
      assert before + Line(failed, c, say) == before;
    }
  }

  /** The revision "0" is rejected like the empty one, and any revision that is not
      PHP-empty is accepted. */
  lemma RevisionZeroRejected(isDir: string -> bool, decodes: string -> bool, p: Params, revision: string)
    ensures NoRevision in Complaints(isDir, decodes, p.(revision := Text(revision))) <==> revision == "" || revision == "0"
  {
  }

  /** A given count is refused exactly when it compares at or below zero. */
  lemma KeepRefusedBySign(isDir: string -> bool, decodes: string -> bool, p: Params, keep: ArgValue)
    requires keep != False
    ensures BadRevisionsToKeep in Complaints(isDir, decodes, p.(keep := keep)) <==> SignAgainstZero(keep) <= 0
  {
    ComplaintsMeaning(isDir, decodes, p.(keep := keep), BadRevisionsToKeep);
  }

  /** A non-numeric count such as "abc" compares above 0 as a string, so the check lets
      it through. */
  lemma NonNumericKeepAccepted(isDir: string -> bool, decodes: string -> bool, p: Params)
    ensures BadRevisionsToKeep !in Complaints(isDir, decodes, p.(keep := Text("abc")))
  {
    SignOfDecimalSpellings();
    KeepRefusedBySign(isDir, decodes, p, Text("abc"));
  }

  /** A count is compared as the number it spells: "0.0" is rejected like 0. */
  lemma DecimalZeroKeepRejected(isDir: string -> bool, decodes: string -> bool, p: Params)
    ensures BadRevisionsToKeep in Complaints(isDir, decodes, p.(keep := Text("0.0")))
  {
    SignOfDecimalSpellings();
    KeepRefusedBySign(isDir, decodes, p, Text("0.0"));
  }

  /** ... and ".5", a positive number without a leading digit, passes. */
  lemma DecimalHalfKeepAccepted(isDir: string -> bool, decodes: string -> bool, p: Params)
    ensures BadRevisionsToKeep !in Complaints(isDir, decodes, p.(keep := Text(".5")))
  {
    SignOfDecimalSpellings();
    KeepRefusedBySign(isDir, decodes, p, Text(".5"));
  }
}
