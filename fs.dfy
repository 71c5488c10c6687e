/** The filesystem the deployment acts on, reduced to what the script observes: which
    paths are directories, which are symbolic links and where they point, and in which
    order entries were made (newest first, the order `ls -t` prints). What the operating
    system decides on its own — permissions, whether a `mkdir` succeeds, whether a removal
    is allowed — is fixed when the filesystem is given, as `Oracles`. Regular files are
    not modelled.

    Each operation is a function from one `State` to the next; the class `FileSystem`
    holds the current state and its methods are proved to act as those functions do. */
module Fs {
  import opened Php
  import opened Paths

  /** What `mkdir` on a missing path does: make it, fail, or fail because another
      process made the directory in the meantime. */
  datatype MkdirFate = Made | Refused | LostRace

  /** The operating system's answers: may the process write into a directory, what does
      `mkdir` of a missing path do, may `rm -rf` remove a tree, and each entry's
      modification time. */
  datatype Oracles = Oracles(writable: Path -> bool, fate: Path -> MkdirFate, removable: Path -> bool,
                             modified: Path -> int)

  /** The time `ls -1dt` sorts by: the change time (`-c`), which `mkdir`, a copy into a
      fresh directory and `ln -sfn` set to the moment they run, or the modification time,
      which `cp -a` carries over from the copied directory. */
  datatype TimeOrder = ChangeTime | ModificationTime

  /** Directories and links by canonical path (link targets as written), and every entry
      made so far, newest first. */
  datatype State = State(dirs: set<Path>, links: map<Path, string>, order: seq<Path>) {

    /** The path `p` names after following one symbolic link. */
    function Resolve(p: string): Path {
      var c := Canon(p);
      if c in links then Canon(links[c]) else c
    }

    /** `is_dir($p)`. */
    predicate IsDir(p: string) {
      Resolve(p) in dirs
    }

    /** Something, a directory or a link, is at `p`. */
    predicate Exists(p: string) {
      Canon(p) in dirs || Canon(p) in links
    }

    /** `is_writable($p)` for a directory. */
    predicate IsWritable(env: Oracles, p: string) {
      IsDir(p) && env.writable(Resolve(p))
    }

    /** `realpath($p)`, None standing for `false`. */
    function Realpath(p: string): (r: Option<Path>)
      ensures r.Some? <==> IsDir(p)
      ensures r.Some? ==> r.value in dirs
    {
      if IsDir(p) then Some(Resolve(p)) else None
    }

    /** A single-level `mkdir` needs the parent to exist; "" and "/" always do. */
    predicate ParentExists(c: Path) {
      Parent(c) == "" || Parent(c) == [Sep] || IsDir(Parent(c))
    }

    /** Every existing entry is recorded once in `order`. */
    ghost predicate Valid() {
      NoDup(order) && (forall e :: e in dirs ==> e in order) && (forall e :: e in links ==> e in order)
    }

    /** The visible entries directly inside `d`, newest first, as `ls -1dt` prints the
        shell glob of `d`'s entries: exactly the existing visible children recorded in
        `order` (`ListingMeaning` adds: each once, in the order of `order`). */
    function Listing(d: string): (r: seq<Path>)
      ensures forall e :: e in r <==> e in order && ChildOf(e, Canon(d)) && (e in dirs || e in links)
    {
      ListingOf(order, Canon(d))
    }

    function ListingOf(o: seq<Path>, d: Path): (r: seq<Path>)
      ensures forall e {:trigger e in r} :: e in r <==> e in o && ChildOf(e, d) && (e in dirs || e in links)
      decreases |o|
    {
      if o == [] then []
      else
        var e := o[0];
        (if ChildOf(e, d) && (e in dirs || e in links) then [e] else []) + ListingOf(o[1..], d)
    }

    /** The entries of `ps` that exist in neither set, in order. */
    function Absent(ps: seq<Path>): (r: seq<Path>)
      ensures forall x :: x in r <==> x in ps && x !in dirs && x !in links
      ensures NoDup(ps) ==> NoDup(r)
      decreases |ps|
    {
      if ps == [] then []
      else
        var h := if ps[0] !in dirs && ps[0] !in links then [ps[0]] else [];
        var t := Absent(ps[1..]);
        NoDupCons(ps[0], ps[1..]);
        NoDupAppend(h, t);
        h + t
    }

    /** The existing entries of `o` inside `s`, moved to the same places inside `t`. */
    function Copies(o: seq<Path>, s: Path, t: Path): (r: seq<Path>)
      ensures forall e :: e in o && Under(e, s) && (e in dirs || e in links) ==> t + e[|s|..] in r
      ensures forall y :: y in r ==> exists e :: e in o && Under(e, s) && y == t + e[|s|..]
      ensures NoDup(o) ==> NoDup(r)
      decreases |o|
    {
      if o == [] then []
      else
        var e := o[0];
        var h := if Under(e, s) && (e in dirs || e in links) then [t + e[|s|..]] else [];
        var rest := Copies(o[1..], s, t);
        NoDupCons(e, o[1..]);
        RebaseInjective(s, t);
        NoDupAppend(h, rest);
        h + rest
    }

    /** `mkdir($p)`, or `mkdir($p, 0777, true)` when `recursive`: fails on an existing
        entry, on a missing parent (single level) and when the system refuses; a lost race
        fails although the directory is there afterwards. */
    function Mkdir(env: Oracles, p: string, recursive: bool): (r: (bool, State))
      ensures r.1.links == links && dirs <= r.1.dirs
      ensures Valid() ==> r.1.Valid()
    {
      var c := Canon(p);
      if Exists(p) || (!recursive && !ParentExists(c)) || env.fate(c) == Refused then (false, this)
      else
        var ancestors := AncestorList(c, |c|);
        DecreasingNoDup(ancestors);
        var born := if recursive then Absent(ancestors) else [];
        var made := {c} + Elems(born);
        var s2 := State(dirs + made, links, [c] + born + Minus(order, made));
        MkdirOrder(c, born, order, made);
        (env.fate(c) == Made, s2)
    }

    /** `rm -rf` of the entry named `c`: it and everything inside it disappear, or
        nothing changes when the system refuses. */
    function RemoveEntry(env: Oracles, c: Path): (r: (bool, State))
      ensures Valid() ==> r.1.Valid()
    {
      if env.removable(c) then (true, RemoveTrees([c])) else (false, this)
    }

    /** This state with the trees `gone` removed, one after another. */
    function RemoveTrees(gone: seq<Path>): (r: State)
      ensures r.dirs <= dirs && r.links.Keys <= links.Keys && r.order == order
      ensures Valid() ==> r.Valid()
    {
      State(Survivors(dirs, gone), SubMap(links, Survivors(links.Keys, gone)), order)
    }

    /** `rm -rf $l && ln -sfn $target $l`: whatever is at `l` is replaced by a link to
        `target`; `ln` fails when the parent of `l` is not a directory. */
    function Relink(env: Oracles, target: string, l: string): (r: (bool, State))
      ensures Valid() ==> r.1.Valid()
    {
      var c := Canon(l);
      var (removed, s1) := RemoveEntry(env, c);
      if removed && s1.ParentExists(c) then
        NoDupCons(c, Minus(s1.order, {c}));
        (true, State(s1.dirs, s1.links[c := target], [c] + Minus(s1.order, {c})))
      else (false, s1)
    }

    /** `cp -a $src/. $dst`: everything inside `src` appears at the same place inside
        `dst`, links as links. Fails, changing nothing, when `src` is not a directory or
        `dst` is not a writable one. */
    function CopyInto(env: Oracles, src: string, dst: string): (r: (bool, State))
      ensures Valid() ==> r.1.Valid()
    {
      if IsDir(src) && IsWritable(env, dst) then
        var s, t := Resolve(src), Resolve(dst);
        var copies := Copies(order, s, t);
        var s2 := State(dirs + (set d | d in dirs && Under(d, s) :: t + d[|s|..]),
                        links + CopiedLinks(links, s, t), copies + Minus(order, Elems(copies)));
        CopyKeepsValid(this, s2, s, t);
        (true, s2)
      else (false, this)
    }

    /** `ls -1dt` of `d`'s entries piped through `tail -n +$from` into `xargs rm -rf`:
        every listed entry from the 1-based position `from` on is removed as a tree; the
        pipeline fails when one of them could not be removed. */
    /** The lines `ls -1dt` prints for the entries of `d`: newest first by change time,
        which is the order recorded in `order`, or by modification time. */
    function Listed(env: Oracles, d: string, sort: TimeOrder): (r: seq<Path>)
      ensures multiset(r) == multiset(Listing(d))
      ensures forall e :: e in r <==> e in Listing(d)
      ensures NoDup(Listing(d)) ==> NoDup(r)
    {
      match sort
      case ChangeTime => Listing(d)
      case ModificationTime => ByModification(Listing(d), env.modified)
    }

    function Prune(env: Oracles, d: string, from: int, sort: TimeOrder): (r: (bool, State))
      ensures Valid() ==> r.1.Valid()
    {
      var doomed := Doomed(Listed(env, d, sort), from);
      (AllKept(doomed, env.removable), RemoveTrees(Kept(doomed, env.removable)))
    }
  }

  // ---------------------------------------------------------------------------
  // sequence and set helpers

  /** No entry of `s` appears twice. */
  predicate NoDup(s: seq<Path>) {
    forall i, j :: 0 <= i < j < |s| ==> s[i] != s[j]
  }

  /** `x` appears before `y` in `s`. */
  predicate Before(s: seq<Path>, x: Path, y: Path) {
    exists i, j :: 0 <= i < j < |s| && s[i] == x && s[j] == y
  }

  /** Any two entries of `r` appear in `o` in the same order. */
  predicate KeepsOrder(r: seq<Path>, o: seq<Path>) {
    forall i, j :: 0 <= i < j < |r| ==> Before(o, r[i], r[j])
  }

  /** `e` is an entry directly inside `d` that the shell glob `*` matches. */
  predicate ChildOf(e: Path, d: Path) {
    Parent(e) == d && e != d && !Hidden(e)
  }

  function Elems(s: seq<Path>): (r: set<Path>)
    ensures forall x :: x in r <==> x in s
  {
    set x | x in s
  }

  lemma NoDupCons(x: Path, t: seq<Path>)
    ensures NoDup([x] + t) <==> x !in t && NoDup(t)
  {
    if x in t {
      var k :| 0 <= k < |t| && t[k] == x;
      assert ([x] + t)[0] == ([x] + t)[k + 1];
    }
    if NoDup([x] + t) {
      forall i, j | 0 <= i < j < |t| ensures t[i] != t[j] {
        assert t[i] == ([x] + t)[i + 1] && t[j] == ([x] + t)[j + 1];
      }
    }
  }

  lemma NoDupAppend(a: seq<Path>, b: seq<Path>)
    ensures NoDup(a) && NoDup(b) && (forall x :: x in a ==> x !in b) ==> NoDup(a + b)
  {
    forall i, j | 0 <= i < j < |a + b| && NoDup(a) && NoDup(b) && (forall x :: x in a ==> x !in b)
      ensures (a + b)[i] != (a + b)[j]
    {
      if j < |a| {
      } else if i >= |a| {
        assert (a + b)[i] == b[i - |a|] && (a + b)[j] == b[j - |a|];
      } else {
        assert (a + b)[i] in a && (a + b)[j] == b[j - |a|];
      }
    }
  }

  /** A listing step: the head of `o`, if kept, comes before everything kept from the
      rest, and is not among it when `o` has no repeats. */
  lemma PrependOrdered(o: seq<Path>, h: seq<Path>, t: seq<Path>)
    requires o != [] && (h == [] || h == [o[0]])
    requires forall e :: e in t ==> e in o[1..]
    requires KeepsOrder(t, o[1..])
    requires NoDup(o[1..]) ==> NoDup(t)
    ensures KeepsOrder(h + t, o)
    ensures NoDup(o) ==> NoDup(h + t)
  {
    forall i, j | 0 <= i < j < |h + t| ensures Before(o, (h + t)[i], (h + t)[j]) {
      if i < |h| {
        var y := (h + t)[j];
        assert y == t[j - 1] && y in o[1..];
        var b :| 0 <= b < |o[1..]| && o[1..][b] == y;
        assert o[0] == (h + t)[i] && o[b + 1] == y;
      } else {
        assert (h + t)[i] == t[i - |h|] && (h + t)[j] == t[j - |h|];
        var a, b :| 0 <= a < b < |o[1..]| && o[1..][a] == t[i - |h|] && o[1..][b] == t[j - |h|];
        assert o[a + 1] == t[i - |h|] && o[b + 1] == t[j - |h|];
      }
    }
    if NoDup(o) {
      NoDupCons(o[0], o[1..]);
      assert [o[0]] + o[1..] == o;
      NoDupAppend(h, t);
    }
  }

  /** `s` without the entries in `xs`, in order. */
  function Minus(s: seq<Path>, xs: set<Path>): (r: seq<Path>)
    ensures forall y :: y in r <==> y in s && y !in xs
    ensures NoDup(s) ==> NoDup(r)
    decreases |s|
  {
    if s == [] then []
    else
      var h := if s[0] in xs then [] else [s[0]];
      var t := Minus(s[1..], xs);
      NoDupCons(s[0], s[1..]);
      NoDupAppend(h, t);
      h + t
  }

  lemma DecreasingNoDup(s: seq<Path>)
    requires forall k, m :: 0 <= k < m < |s| ==> |s[k]| > |s[m]|
    ensures NoDup(s)
  {
  }

  /** After a copy, the copies come first in the order, then the older entries. */
  lemma CopyKeepsValid(s0: State, s2: State, s: Path, t: Path)
    requires s2.dirs == s0.dirs + (set d | d in s0.dirs && Under(d, s) :: t + d[|s|..])
    requires s2.links == s0.links + CopiedLinks(s0.links, s, t)
    requires s2.order == s0.Copies(s0.order, s, t) + Minus(s0.order, Elems(s0.Copies(s0.order, s, t)))
    ensures s0.Valid() ==> s2.Valid()
  {
    if s0.Valid() {
      var copies := s0.Copies(s0.order, s, t);
      var rest := Minus(s0.order, Elems(copies));
      NoDupAppend(copies, rest);
      forall e | e in s2.dirs ensures e in s2.order {
        if e !in s0.dirs {
          var d :| d in s0.dirs && Under(d, s) && e == t + d[|s|..];
          assert e in copies;
        } else if e !in copies {
          assert e in rest;
        }
      }
      forall e | e in s2.links ensures e in s2.order {
        if e !in s0.links {
          var k :| k in s0.links && Under(k, s) && e == t + k[|s|..];
          assert e in copies;
        } else if e !in copies {
          assert e in rest;
        }
      }
    }
  }

  /** In a valid state the listing of `d` holds every existing visible child of `d`
      exactly once, newest first. */
  lemma ListingMeaning(s: State, d: string)
    requires s.Valid()
    ensures var r := s.Listing(d);
      (forall e :: e in r <==> ChildOf(e, Canon(d)) && (e in s.dirs || e in s.links))
      && NoDup(r) && KeepsOrder(r, s.order)
  {
    ListingOfOrdered(s, s.order, Canon(d));
  }

  /** A listing keeps the order of `o`, and has no repeats when `o` has none. */
  lemma {:induction false} ListingOfOrdered(s: State, o: seq<Path>, d: Path)
    ensures NoDup(o) ==> NoDup(s.ListingOf(o, d))
    ensures KeepsOrder(s.ListingOf(o, d), o)
    decreases |o|
  {
    if o != [] {
      var e := o[0];
      var h := if ChildOf(e, d) && (e in s.dirs || e in s.links) then [e] else [];
      ListingOfOrdered(s, o[1..], d);
      PrependOrdered(o, h, s.ListingOf(o[1..], d));
    }
  }

  /** The order after `mkdir`: the new entry, then the ancestors made with it, then the
      older entries without them, has no repeats. */
  lemma MkdirOrder(c: Path, born: seq<Path>, order: seq<Path>, made: set<Path>)
    requires made == {c} + Elems(born) && NoDup(born)
    requires forall x :: x in born ==> |x| < |c|
    ensures NoDup(order) ==> NoDup([c] + born + Minus(order, made))
  {
    if NoDup(order) {
      assert c !in born;
      NoDupCons(c, born);
      NoDupAppend([c] + born, Minus(order, made));
    }
  }

  /** The entries of `ds` that lie in none of `gone`, removing one tree after another. */
  function Survivors(ds: set<Path>, gone: seq<Path>): (r: set<Path>)
    ensures r <= ds
    decreases |gone|
  {
    if gone == [] then ds
    else
      var before := Survivors(ds, gone[..|gone| - 1]);
      set x | x in before && !Within(x, gone[|gone| - 1])
  }

  function SubMap(m: map<Path, string>, keep: set<Path>): (r: map<Path, string>)
    ensures r.Keys == m.Keys * keep
    ensures forall k :: k in r ==> r[k] == m[k]
  {
    map k | k in m && k in keep :: m[k]
  }

  // ---------------------------------------------------------------------------
  // the order of `ls -t`

  /** `ls -t` prints `a` no later than `b`: `a` was modified later, or at the same time
      and its name does not sort after `b`'s. */
  predicate NoLater(a: Path, b: Path, modified: Path -> int) {
    modified(a) > modified(b) || (modified(a) == modified(b) && !LexLess(b, a))
  }

  /** Each entry of `r` is printed no later than the next. */
  predicate NewestFirst(r: seq<Path>, modified: Path -> int) {
    forall i :: 0 < i < |r| ==> NoLater(r[i - 1], r[i], modified)
  }

  /** `x` placed into `l` before the first entry it is no later than. */
  function InsertByTime(x: Path, l: seq<Path>, modified: Path -> int): (r: seq<Path>)
    ensures |r| == |l| + 1 && multiset(r) == multiset(l) + multiset{x}
    ensures forall e :: e in r <==> e == x || e in l
    ensures NoDup(l) && x !in l ==> NoDup(r)
    decreases |l|
  {
    if l == [] || NoLater(x, l[0], modified) then
      NoDupCons(x, l);
      [x] + l
    else
      var rest := InsertByTime(x, l[1..], modified);
      assert l == [l[0]] + l[1..];
      NoDupCons(l[0], l[1..]);
      NoDupCons(l[0], rest);
      [l[0]] + rest
  }

  /** The entries of `l` in the order `ls -t` prints them: the same entries, each as
      often (`ByModificationSorted` adds: newest first). */
  function ByModification(l: seq<Path>, modified: Path -> int): (r: seq<Path>)
    ensures multiset(r) == multiset(l)
    ensures forall e :: e in r <==> e in l
    ensures NoDup(l) ==> NoDup(r)
    decreases |l|
  {
    if l == [] then []
    else
      assert l == [l[0]] + l[1..];
      NoDupCons(l[0], l[1..]);
      InsertByTime(l[0], ByModification(l[1..], modified), modified)
  }

  /** Of two entries, `ls -t` can always print one no later than the other. */
  lemma NoLaterTotal(a: Path, b: Path, modified: Path -> int)
    ensures NoLater(a, b, modified) || NoLater(b, a, modified)
  {
    var c := Compare(a, b);
  }

  /** Inserting keeps the order, and the result starts with `x` or with `l`'s head. */
  lemma {:induction false} InsertByTimeSorted(x: Path, l: seq<Path>, modified: Path -> int)
    requires NewestFirst(l, modified)
    ensures var r := InsertByTime(x, l, modified);
      NewestFirst(r, modified) && (r[0] == x || (l != [] && r[0] == l[0]))
    decreases |l|
  {
    if l != [] && !NoLater(x, l[0], modified) {
      InsertByTimeSorted(x, l[1..], modified);
      NoLaterTotal(x, l[0], modified);
    }
  }

  /** `ByModification` prints the newest first. */
  lemma {:induction false} ByModificationSorted(l: seq<Path>, modified: Path -> int)
    ensures NewestFirst(ByModification(l, modified), modified)
    decreases |l|
  {
    if l != [] {
      ByModificationSorted(l[1..], modified);
      InsertByTimeSorted(l[0], ByModification(l[1..], modified), modified);
    }
  }

  /** The lines `tail -n +from` passes on: all but the first `from - 1`. */
  function Doomed(listing: seq<Path>, from: int): (r: seq<Path>)
    ensures var skipped := if from <= 1 then 0 else if from - 1 <= |listing| then from - 1 else |listing|;
      listing[..skipped] + r == listing
  {
    if from <= 1 then listing else if from - 1 <= |listing| then listing[from - 1..] else []
  }

  /** The entries of `ps` that `keep` admits, in order. */
  function Kept(ps: seq<Path>, keep: Path -> bool): (r: seq<Path>)
    ensures forall x :: x in r <==> x in ps && keep(x)
    decreases |ps|
  {
    if ps == [] then [] else (if keep(ps[0]) then [ps[0]] else []) + Kept(ps[1..], keep)
  }

  /** Every entry of `ps` is admitted by `keep`. */
  predicate AllKept(ps: seq<Path>, keep: Path -> bool)
    decreases |ps|
  {
    ps == [] || (keep(ps[0]) && AllKept(ps[1..], keep))
  }

  lemma {:induction false} AllKeptMeaning(ps: seq<Path>, keep: Path -> bool)
    ensures AllKept(ps, keep) <==> forall x :: x in ps ==> keep(x)
    decreases |ps|
  {
    if ps != [] {
      AllKeptMeaning(ps[1..], keep);
      assert forall x :: x in ps ==> x == ps[0] || x in ps[1..];
    }
  }

  /** An entry survives the removal of the trees `gone` exactly when it lies in none of
      them. */
  lemma {:induction false} SurvivorsMeaning(ds: set<Path>, gone: seq<Path>, x: Path)
    ensures x in Survivors(ds, gone) <==> x in ds && forall g :: g in gone ==> !Within(x, g)
    decreases |gone|
  {
    if gone != [] {
      var front := gone[..|gone| - 1];
      SurvivorsMeaning(ds, front, x);
      assert gone == front + [gone[|gone| - 1]];
      assert forall g :: g in gone <==> g in front || g == gone[|gone| - 1];
    }
  }

  /** Pruning leaves every entry that lies inside none of the removed ones, and the
      target of every such link. */
  lemma PruneSpares(s: State, env: Oracles, d: string, from: int, sort: TimeOrder, x: Path)
    requires forall g :: g in Doomed(s.Listed(env, d, sort), from) ==> !Within(x, g)
    ensures var s2 := s.Prune(env, d, from, sort).1;
      (x in s.dirs ==> x in s2.dirs) && (x in s.links ==> x in s2.links && s2.links[x] == s.links[x])
  {
    var gone := Kept(Doomed(s.Listed(env, d, sort), from), env.removable);
    SurvivorsMeaning(s.dirs, gone, x);
    SurvivorsMeaning(s.links.Keys, gone, x);
  }

  /** Pruning `d` spares every entry no longer than `d` itself: each removed entry lies
      directly inside `d`, so it is longer. */
  lemma PruneSparesShallow(s: State, env: Oracles, d: string, from: int, sort: TimeOrder, x: Path)
    requires |x| <= |Canon(d)|
    ensures var s2 := s.Prune(env, d, from, sort).1;
      (x in s.dirs ==> x in s2.dirs) && (x in s.links ==> x in s2.links && s2.links[x] == s.links[x])
  {
    var l := s.Listed(env, d, sort);
    forall g | g in Doomed(l, from) ensures !Within(x, g) {
      var k := Skipped(l, from);
      assert g in l[..k] + Doomed(l, from);
      assert ChildOf(g, Canon(d));
      ParentShort(g);
    }
    PruneSpares(s, env, d, from, sort, x);
  }

  /** The lines `tail -n +from` skips. */
  function Skipped(listing: seq<Path>, from: int): (k: nat)
    ensures k <= |listing| && listing[..k] + Doomed(listing, from) == listing
    ensures from <= 1 ==> k == 0
    ensures 1 < from <= |listing| + 1 ==> k == from - 1
    ensures from > |listing| + 1 ==> k == |listing|
  {
    if from <= 1 then 0 else if from - 1 <= |listing| then from - 1 else |listing|
  }

  /** Removing the removable lines of `l` from `from` on keeps the entries before
      `from`, provided no line repeats and all are entries of one directory. */
  lemma TailSparesHead(s: State, env: Oracles, l: seq<Path>, c: Path, from: int, i: nat)
    requires NoDup(l) && forall x :: x in l ==> ChildOf(x, c)
    requires i < |l| && i < from - 1
    ensures var x := l[i]; var s2 := s.RemoveTrees(Kept(Doomed(l, from), env.removable));
      (x in s.dirs ==> x in s2.dirs) && (x in s.links ==> x in s2.links && s2.links[x] == s.links[x])
  {
    var k := Skipped(l, from);
    var doomed := Doomed(l, from);
    var gone := Kept(doomed, env.removable);
    forall g | g in gone ensures !Within(l[i], g) {
      var j :| 0 <= j < |doomed| && doomed[j] == g;
      assert g == l[k + j];
      assert l[i] != g;
      assert ChildOf(l[i], c) && ChildOf(g, c);
      SiblingsApart(l[i], g);
    }
    SurvivorsMeaning(s.dirs, gone, l[i]);
    SurvivorsMeaning(s.links.Keys, gone, l[i]);
  }

  /** Removing the removable lines of `l` from `from` on removes each of them. */
  lemma TailGone(s: State, env: Oracles, l: seq<Path>, from: int, i: nat)
    requires i < |l| && from - 1 <= i && env.removable(l[i])
    ensures var x := l[i]; var s2 := s.RemoveTrees(Kept(Doomed(l, from), env.removable));
      x !in s2.dirs && x !in s2.links
  {
    var k := Skipped(l, from);
    var doomed := Doomed(l, from);
    assert l[i] == doomed[i - k];
    var gone := Kept(doomed, env.removable);
    assert l[i] in gone;
    SurvivorsMeaning(s.dirs, gone, l[i]);
    SurvivorsMeaning(s.links.Keys, gone, l[i]);
  }

  /** The removal of the lines of `l` from `from` on all succeed exactly when each of
      them may be removed. */
  lemma TailReport(env: Oracles, l: seq<Path>, from: int)
    ensures AllKept(Doomed(l, from), env.removable) <==> forall i :: 0 <= i < |l| && from - 1 <= i ==> env.removable(l[i])
  {
    var k := Skipped(l, from);
    var doomed := Doomed(l, from);
    AllKeptMeaning(doomed, env.removable);
    forall x | x in doomed ensures exists i :: 0 <= i < |l| && from - 1 <= i && l[i] == x {
      var j :| 0 <= j < |doomed| && doomed[j] == x;
      assert l[k + j] == x;
    }
    forall i | 0 <= i < |l| && from - 1 <= i ensures l[i] in doomed {
      assert l[i] == doomed[i - k];
    }
  }

  /** `pruneOldRevisions` with the start line `from`: in a valid state the newest
      `from - 1` entries of the listing stay as they were, every older one that may be
      removed is gone, and the pipeline succeeds exactly when every older one may be. */
  lemma PruneKeepsNewest(s: State, env: Oracles, d: string, from: int, sort: TimeOrder)
    requires s.Valid()
    ensures var l := s.Listed(env, d, sort); var (ok, s2) := s.Prune(env, d, from, sort);
      && (forall i :: 0 <= i < from - 1 && i < |l| ==>
            (l[i] in s.dirs ==> l[i] in s2.dirs)
            && (l[i] in s.links ==> l[i] in s2.links && s2.links[l[i]] == s.links[l[i]]))
      && (forall i :: 0 <= i < |l| && from - 1 <= i && env.removable(l[i]) ==>
            l[i] !in s2.dirs && l[i] !in s2.links)
      && (ok <==> forall i :: 0 <= i < |l| && from - 1 <= i ==> env.removable(l[i]))
  {
    var l := s.Listed(env, d, sort);
    ListingMeaning(s, d);
    assert s.Prune(env, d, from, sort) == (AllKept(Doomed(l, from), env.removable), s.RemoveTrees(Kept(Doomed(l, from), env.removable)));
    forall i | 0 <= i < from - 1 && i < |l| {
      TailSparesHead(s, env, l, Canon(d), from, i);
    }
    forall i | 0 <= i < |l| && from - 1 <= i && env.removable(l[i]) {
      TailGone(s, env, l, from, i);
    }
    TailReport(env, l, from);
  }

  /** The shell glob skips names that start with `.`, so in either order such an entry
      is never listed, and so never pruned. */
  lemma HiddenNotListed(s: State, env: Oracles, d: string, sort: TimeOrder, e: Path)
    requires Hidden(e)
    ensures e !in s.Listed(env, d, sort)
  {
  }

  /** `t + k[|s|..]` names different entries for different `k` inside `s`. */
  lemma RebaseInjective(s: Path, t: Path)
    ensures forall k1, k2 :: Under(k1, s) && Under(k2, s) && t + k1[|s|..] == t + k2[|s|..] ==> k1 == k2
  {
    forall k1, k2 | Under(k1, s) && Under(k2, s) && t + k1[|s|..] == t + k2[|s|..]
      ensures k1 == k2
    {
      assert k1[|s|..] == (t + k1[|s|..])[|t|..] == (t + k2[|s|..])[|t|..] == k2[|s|..];
      assert k1 == k1[..|s|] + k1[|s|..] && k2 == k2[..|s|] + k2[|s|..];
      assert k1[..|s|] == s == k2[..|s|];
    }
  }

  /** The links inside `s`, moved to the same places inside `t` with the same targets. */
  function CopiedLinks(m: map<Path, string>, s: Path, t: Path): (r: map<Path, string>)
    ensures forall k :: k in m && Under(k, s) ==> t + k[|s|..] in r && r[t + k[|s|..]] == m[k]
    ensures forall y :: y in r ==> exists k :: k in m && Under(k, s) && y == t + k[|s|..]
  {
    RebaseInjective(s, t);
    map k | k in m && Under(k, s) :: t + k[|s|..] := m[k]
  }

  lemma {:induction false} KeptSnoc(ps: seq<Path>, x: Path, keep: Path -> bool)
    ensures Kept(ps + [x], keep) == Kept(ps, keep) + (if keep(x) then [x] else [])
    decreases |ps|
  {
    if ps == [] {
      assert [x][1..] == [];
    } else {
      assert (ps + [x])[1..] == ps[1..] + [x];
      KeptSnoc(ps[1..], x, keep);
    }
  }

  lemma {:induction false} AllKeptSnoc(ps: seq<Path>, x: Path, keep: Path -> bool)
    ensures AllKept(ps + [x], keep) == (AllKept(ps, keep) && keep(x))
    decreases |ps|
  {
    if ps == [] {
      assert [x][1..] == [];
    } else {
      assert (ps + [x])[1..] == ps[1..] + [x];
      AllKeptSnoc(ps[1..], x, keep);
    }
  }

  lemma SurvivorsSnoc(ds: set<Path>, gone: seq<Path>, g: Path)
    ensures Survivors(ds, gone + [g]) == Survivors(Survivors(ds, gone), [g])
  {
    assert (gone + [g])[..|gone|] == gone;
    assert [g][..0] == [];
  }

  /** Removing one more tree after the trees `gone`. */
  lemma RemoveTreesSnoc(s: State, gone: seq<Path>, g: Path)
    ensures s.RemoveTrees(gone).RemoveTrees([g]) == s.RemoveTrees(gone + [g])
  {
    var s1 := s.RemoveTrees(gone);
    assert s1.links.Keys == Survivors(s.links.Keys, gone);
    SurvivorsSnoc(s.dirs, gone, g);
    SurvivorsSnoc(s.links.Keys, gone, g);
  }

  /** Removing no tree changes nothing. */
  lemma RemoveTreesNone(s: State)
    ensures s.RemoveTrees([]) == s
  {
    assert SubMap(s.links, s.links.Keys) == s.links;
  }

  /** `Prune` removes the removable ones among the doomed entries. */
  lemma PruneUnfolds(s: State, env: Oracles, d: string, from: int, sort: TimeOrder, doomed: seq<Path>)
    requires doomed == Doomed(s.Listed(env, d, sort), from)
    ensures s.Prune(env, d, from, sort) == (AllKept(doomed, env.removable), s.RemoveTrees(Kept(doomed, env.removable)))
  {
  }

  /** One pass of the removal loop: after the removable ones among the first `i` doomed
      entries are gone, `rm -rf` of entry `i` removes it exactly when it is removable. */
  lemma RemoveNext(s0: State, env: Oracles, doomed: seq<Path>, i: nat)
    requires i < |doomed|
    ensures var (removed, s1) := s0.RemoveTrees(Kept(doomed[..i], env.removable)).RemoveEntry(env, doomed[i]);
      removed == env.removable(doomed[i])
      && s1 == s0.RemoveTrees(Kept(doomed[..i + 1], env.removable))
      && AllKept(doomed[..i + 1], env.removable) == (AllKept(doomed[..i], env.removable) && removed)
  {
    var x := doomed[i];
    assert doomed[..i + 1] == doomed[..i] + [x];
    KeptSnoc(doomed[..i], x, env.removable);
    AllKeptSnoc(doomed[..i], x, env.removable);
    var gone := Kept(doomed[..i], env.removable);
    if env.removable(x) {
      RemoveTreesSnoc(s0, gone, x);
      assert Kept(doomed[..i + 1], env.removable) == gone + [x];
    } else {
      assert Kept(doomed[..i + 1], env.removable) == gone + [] == gone;
    }
  }

  /** What `unlink($p)` may leave behind: a link at `p` is gone; a directory at `p` is
      left alone (the usual refusal) or gone; nothing else changes. */
  predicate Unlinked(s0: State, s1: State, p: string) {
    var c := Canon(p);
    if c in s0.links then s1 == s0.(links := s0.links - {c})
    else s1 == s0 || s1 == s0.(dirs := s0.dirs - {c})
  }

  // ---------------------------------------------------------------------------
  // the filesystem object

  class FileSystem {
    var dirs: set<Path>
    var links: map<Path, string>
    var order: seq<Path>
    const env: Oracles

    constructor (s: State, env: Oracles)
      ensures Snapshot() == s && this.env == env
    {
      dirs, links, order := s.dirs, s.links, s.order;
      this.env := env;
    }

    /** The current state as a value. */
    function Snapshot(): State
      reads this
    {
      State(dirs, links, order)
    }

    predicate IsDir(p: string)
      reads this
    {
      Snapshot().IsDir(p)
    }

    predicate IsWritable(p: string)
      reads this
    {
      Snapshot().IsWritable(env, p)
    }

    function Realpath(p: string): Option<Path>
      reads this
    {
      Snapshot().Realpath(p)
    }

    method Mkdir(p: string, recursive: bool) returns (ok: bool)
      modifies this
      ensures (ok, Snapshot()) == old(Snapshot()).Mkdir(env, p, recursive)
    {
      var r := Snapshot().Mkdir(env, p, recursive);
      ok, dirs, links, order := r.0, r.1.dirs, r.1.links, r.1.order;
    }

    method Relink(target: string, l: string) returns (ok: bool)
      modifies this
      ensures (ok, Snapshot()) == old(Snapshot()).Relink(env, target, l)
    {
      var r := Snapshot().Relink(env, target, l);
      ok, dirs, links, order := r.0, r.1.dirs, r.1.links, r.1.order;
    }

    method CopyInto(src: string, dst: string) returns (ok: bool)
      modifies this
      ensures (ok, Snapshot()) == old(Snapshot()).CopyInto(env, src, dst)
    {
      var r := Snapshot().CopyInto(env, src, dst);
      ok, dirs, links, order := r.0, r.1.dirs, r.1.links, r.1.order;
    }

    /** `rm -rf` of one entry. */
    method RemoveEntry(c: Path) returns (ok: bool)
      modifies this
      ensures (ok, Snapshot()) == old(Snapshot()).RemoveEntry(env, c)
    {
      var r := Snapshot().RemoveEntry(env, c);
      ok, dirs, links, order := r.0, r.1.dirs, r.1.links, r.1.order;
    }

    /** The pruning pipeline: `xargs` hands the listed entries to `rm -rf`, which removes
        them one after another and reports whether every removal succeeded. */
    method Prune(d: string, from: int, sort: TimeOrder) returns (ok: bool)
      modifies this
      ensures (ok, Snapshot()) == old(Snapshot()).Prune(env, d, from, sort)
    {
      var doomed := Doomed(Snapshot().Listed(env, d, sort), from);
      PruneUnfolds(Snapshot(), env, d, from, sort, doomed);
      ok := RemoveAll(doomed);
    }

    /** `rm -rf` on each of `doomed` in turn: the removable ones go, and the result says
        whether all of them did. */
    method RemoveAll(doomed: seq<Path>) returns (ok: bool)
      modifies this
      ensures ok == AllKept(doomed, env.removable)
      ensures Snapshot() == old(Snapshot()).RemoveTrees(Kept(doomed, env.removable))
    {
      ghost var s0 := Snapshot();
      RemoveTreesNone(s0);
      ok := true;
      var i := 0;
      while i < |doomed|
        invariant 0 <= i <= |doomed|
        invariant ok == AllKept(doomed[..i], env.removable)
        invariant Snapshot() == s0.RemoveTrees(Kept(doomed[..i], env.removable))
      {
        RemoveNext(s0, env, doomed, i);
        var removed := RemoveEntry(doomed[i]);
        ok := ok && removed;
        i := i + 1;
      }
      assert doomed[..i] == doomed;
    }

    /** `unlink($p)`: removes a link; on a directory the outcome is left open (it
        normally fails with a warning). Nothing else changes. */
    method Unlink(p: string)
      modifies this
      ensures Unlinked(old(Snapshot()), Snapshot(), p)
    {
      var c := Canon(p);
      if c in links {
        links := links - {c};
      } else if c in dirs {
        var gone: bool :| true;
        if gone {
          dirs := dirs - {c};
        }
      }
    }
  }
}
