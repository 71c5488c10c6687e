/** Paths as strings: the script's `buildPath` and the canonical form under which the
    filesystem model stores them (POSIX, `DIRECTORY_SEPARATOR` is '/'). */
module Paths {
  import opened Php

  type Path = string

  const Sep: char := '/'

  /** `buildPath($segments)`: the segments joined by the separator, every trailing
      separator removed. */
  function BuildPath(segments: seq<string>): (r: Path)
    ensures r == [] || r[|r| - 1] != Sep
    ensures var joined := Join(segments, Sep);
              |r| <= |joined| && r == joined[..|r|]
              && forall k :: |r| <= k < |joined| ==> joined[k] == Sep
  {
    RTrim(Join(segments, Sep), Sep)
  }

  lemma {:induction false} JoinSnoc(parts: seq<string>, x: string)
    requires |parts| >= 1
    ensures Join(parts + [x], Sep) == Join(parts, Sep) + [Sep] + x
    decreases |parts|
  {
    var q := parts + [x];
    assert q[0] == parts[0] && q[1..] == parts[1..] + [x];
    if |parts| == 1 {
      assert q[1..] == [x];
    } else {
      JoinSnoc(parts[1..], x);
      calc {
        Join(q, Sep);
        q[0] + [Sep] + Join(q[1..], Sep);
        parts[0] + [Sep] + (Join(parts[1..], Sep) + [Sep] + x);
        (parts[0] + [Sep] + Join(parts[1..], Sep)) + [Sep] + x;
      }
    }
  }

  lemma RTrimAppendSep(s: string)
    ensures RTrim(s + [Sep], Sep) == RTrim(s, Sep)
  {
    assert (s + [Sep])[..|s|] == s;
  }

  /** An empty last segment does not change the path `buildPath` makes. */
  lemma {:induction false} BuildPathIgnoresEmptyLast(segments: seq<string>)
    requires |segments| >= 1
    ensures BuildPath(segments + [""]) == BuildPath(segments)
  {
    JoinSnoc(segments, "");
    assert Join(segments + [""], Sep) == Join(segments, Sep) + [Sep];
    RTrimAppendSep(Join(segments, Sep));
  }

  /** Joining a directory that does not end in the separator with a name that does not
      end in it either gives `dir/name` exactly. */
  lemma BuildPathPair(dir: string, name: string)
    requires name != [] && name[|name| - 1] != Sep
    ensures BuildPath([dir, name]) == dir + [Sep] + name
  {
    assert Join([dir, name], Sep) == dir + [Sep] + name;
  }

  // ---------------------------------------------------------------------------
  // canonical form: repeated separators collapsed, trailing separator dropped

  ghost predicate NoDoubleSep(p: string) {
    forall i, j :: 0 <= i < j < |p| && j == i + 1 ==> !(p[i] == Sep && p[j] == Sep)
  }

  ghost predicate IsCanonical(p: string) {
    NoDoubleSep(p) && (p == [Sep] || p == [] || p[|p| - 1] != Sep)
  }

  function Collapse(p: string): (r: string)
    ensures NoDoubleSep(r)
    ensures |r| <= |p|
    ensures p == [] <==> r == []
    ensures p != [] ==> r[0] == p[0] && r[|r| - 1] == p[|p| - 1]
    ensures NoDoubleSep(p) ==> r == p
    decreases |p|
  {
    if |p| <= 1 then p
    else if p[0] == Sep && p[1] == Sep then Collapse(p[1..])
    else
      var rest := Collapse(p[1..]);
      assert NoDoubleSep(p) ==> NoDoubleSep(p[1..]);
      [p[0]] + rest
  }

  /** The form in which the filesystem model names an entry: `a//b/` and `a/b` are the
      same directory to the operating system. */
  function Canon(p: string): (r: Path)
    ensures IsCanonical(r)
    ensures IsCanonical(p) ==> r == p
  {
    var c := Collapse(p);
    if |c| > 1 && c[|c| - 1] == Sep then c[..|c| - 1] else c
  }

  /** Collapsing two pieces one after the other is collapsing each, unless a separator
      ends the first and starts the second. */
  lemma {:induction false} CollapseAppend(a: string, b: string)
    requires a == [] || b == [] || a[|a| - 1] != Sep || b[0] != Sep
    ensures Collapse(a + b) == Collapse(a) + Collapse(b)
    decreases |a|
  {
    if a == [] {
      assert a + b == b;
    } else if b == [] {
      assert a + b == a;
    } else if |a| == 1 {
      assert (a + b)[0] == a[0] && (a + b)[1] == b[0] && (a + b)[1..] == b;
    } else {
      assert (a + b)[0] == a[0] && (a + b)[1] == a[1] && (a + b)[1..] == a[1..] + b;
      CollapseAppend(a[1..], b);
      assert [a[0]] + (Collapse(a[1..]) + Collapse(b)) == [a[0]] + Collapse(a[1..]) + Collapse(b);
    }
  }

  /** Collapsing never makes a path shorter than collapsing one of its suffixes. */
  lemma {:induction false} CollapseSuffixShorter(p: string, k: nat)
    requires k <= |p|
    ensures |Collapse(p[k..])| <= |Collapse(p)|
    decreases k
  {
    if k > 0 {
      assert p[1..][k - 1..] == p[k..];
      CollapseSuffixShorter(p[1..], k - 1);
    }
  }

  /** `dir/name`, for a directory without a trailing separator and a plain name, is in
      canonical form the collapsed directory, a separator and the name. */
  lemma {:induction false} CanonJoin(dir: string, name: string)
    requires dir == [] || dir[|dir| - 1] != Sep
    requires name != [] && forall k :: 0 <= k < |name| ==> name[k] != Sep
    ensures Canon(dir + ([Sep] + name)) == Collapse(dir) + ([Sep] + name)
  {
    var tail := [Sep] + name;
    var p := dir + tail;
    PlainNameAfterSep(name);
    CollapseAppend(dir, tail);
    assert p[|p| - 1] == name[|name| - 1];
    CanonWithoutTrailingSep(p);
  }

  /** The canonical length of `buildPath([$dir, $name])`, for a directory without a
      trailing separator and a plain name. */
  lemma JoinedLength(dir: string, name: string)
    requires dir == [] || dir[|dir| - 1] != Sep
    requires name != [] && forall k :: 0 <= k < |name| ==> name[k] != Sep
    ensures |Canon(BuildPath([dir] + [name]))| == |Collapse(dir)| + 1 + |name|
  {
    assert [dir] + [name] == [dir, name];
    BuildPathPair(dir, name);
    assert dir + [Sep] + name == dir + ([Sep] + name);
    CanonJoin(dir, name);
  }

  /** `dir/name`, for a directory without a trailing separator and a plain name, is as
      long in canonical form as the collapsed directory, a separator and the name. */
  lemma CanonJoinLength(dp: string, name: string)
    requires dp == [] || dp[|dp| - 1] != Sep
    requires name != [] && forall k :: 0 <= k < |name| ==> name[k] != Sep
    ensures |Canon(dp + [Sep] + name)| == |Collapse(dp)| + 1 + |name|
  {
    assert dp + [Sep] + name == dp + ([Sep] + name);
    CanonJoin(dp, name);
  }

  /** `dir/r`, where `r` ends in `/name`, is at least as long in canonical form as the
      collapsed directory, a separator and the name. */
  lemma CanonEndingLength(dp: string, r: string, name: string)
    requires dp == [] || dp[|dp| - 1] != Sep
    requires name != [] && forall k :: 0 <= k < |name| ==> name[k] != Sep
    requires |r| > |name| && r[|r| - |name| - 1..] == [Sep] + name
    ensures |Canon(dp + [Sep] + r)| >= |Collapse(dp)| + 1 + |name|
  {
    var p := dp + ([Sep] + r);
    assert dp + [Sep] + r == p;
    CollapseJoinEndingLength(dp, r, name);
    EndingNotSep(r, name);
    JoinEndsLikeTail(dp, r);
    CanonWithoutTrailingSep(p);
  }

  /** `dir/r` ends as `r` does. */
  lemma JoinEndsLikeTail(dp: string, r: string)
    requires r != []
    ensures var p := dp + ([Sep] + r); p[|p| - 1] == r[|r| - 1]
  {
  }

  /** The collapsing half of `CanonEndingLength`. */
  lemma CollapseJoinEndingLength(dp: string, r: string, name: string)
    requires dp == [] || dp[|dp| - 1] != Sep
    requires forall k :: 0 <= k < |name| ==> name[k] != Sep
    requires |r| > |name| && r[|r| - |name| - 1..] == [Sep] + name
    ensures |Collapse(dp + ([Sep] + r))| >= |Collapse(dp)| + 1 + |name|
  {
    var tail := [Sep] + r;
    CollapseAppend(dp, tail);
    CollapseEndingLength(r, name);
    assert tail[1..] == r;
    CollapseSuffixShorter(tail, 1);
  }

  /** A path ending in `/name` keeps at least that much when its separators collapse. */
  lemma CollapseEndingLength(r: string, name: string)
    requires forall k :: 0 <= k < |name| ==> name[k] != Sep
    requires |r| > |name| && r[|r| - |name| - 1..] == [Sep] + name
    ensures |Collapse(r)| >= 1 + |name|
  {
    var k := |r| - |name| - 1;
    var suffix := r[k..];
    CollapseSuffixShorter(r, k);
    assert |Collapse(suffix)| <= |Collapse(r)|;
    PlainNameAfterSep(name);
    assert Collapse(suffix) == suffix;
  }

  /** A path ending in `/name` does not end in a separator. */
  lemma EndingNotSep(r: string, name: string)
    requires name != [] && forall k :: 0 <= k < |name| ==> name[k] != Sep
    requires |r| > |name| && r[|r| - |name| - 1..] == [Sep] + name
    ensures r[|r| - 1] != Sep
  {
    var suffix := r[|r| - |name| - 1..];
    assert r[|r| - 1] == suffix[|suffix| - 1];
  }

  /** Of two plain names joined to the same directory, the shorter gives the shorter
      canonical path. */
  lemma JoinedShorter(dir: string, n1: string, n2: string)
    requires dir == [] || dir[|dir| - 1] != Sep
    requires n1 != [] && forall k :: 0 <= k < |n1| ==> n1[k] != Sep
    requires n2 != [] && forall k :: 0 <= k < |n2| ==> n2[k] != Sep
    requires |n1| < |n2|
    ensures |Canon(BuildPath([dir] + [n1]))| < |Canon(BuildPath([dir] + [n2]))|
  {
    JoinedLength(dir, n1);
    JoinedLength(dir, n2);
  }

  lemma {:induction false} PlainNameAfterSep(name: string)
    requires forall k :: 0 <= k < |name| ==> name[k] != Sep
    ensures Collapse([Sep] + name) == [Sep] + name
  {
    var tail := [Sep] + name;
    forall k | 1 <= k < |tail|
      ensures tail[k] != Sep
    {
      assert tail[k] == name[k - 1];
    }
    assert NoDoubleSep(tail);
  }

  /** A path that does not end in a separator only has its separators collapsed. */
  lemma CanonWithoutTrailingSep(p: string)
    requires p != [] && p[|p| - 1] != Sep
    ensures Canon(p) == Collapse(p)
  {
  }

  lemma CanonIdempotent(p: string)
    ensures Canon(Canon(p)) == Canon(p)
  {
  }

  /** Index of the last separator, or -1. */
  function LastSep(p: string): (i: int)
    ensures -1 <= i < |p|
    ensures i >= 0 ==> p[i] == Sep
    ensures forall k :: i < k < |p| ==> p[k] != Sep
    decreases |p|
  {
    if p == [] then -1
    else if p[|p| - 1] == Sep then |p| - 1
    else LastSep(p[..|p| - 1])
  }

  /** The directory an entry lives in; "" stands for the working directory. */
  function Parent(p: Path): Path {
    var i := LastSep(p);
    if i < 0 then "" else if i == 0 then [Sep] else p[..i]
  }

  function BaseName(p: Path): string {
    p[LastSep(p) + 1..]
  }

  /** A name the shell glob `*` does not match. */
  predicate Hidden(p: Path) {
    var b := BaseName(p);
    b != [] && b[0] == '.'
  }

  /** `d` is `top` itself or lies inside it. */
  predicate Within(d: Path, top: Path) {
    d == top || Under(d, top)
  }

  /** `d` lies strictly inside `top`. */
  predicate Under(d: Path, top: Path) {
    StartsWith(d, top + [Sep])
  }

  /** The proper ancestors of `p` that a recursive `mkdir` makes, longest first: the
      prefixes of `p` ending just before a separator at a position below `n`, the root
      excluded. */
  function AncestorList(p: Path, n: nat): (r: seq<Path>)
    requires n <= |p|
    ensures forall x :: x in r ==> 0 < |x| < n && x == p[..|x|] && p[|x|] == Sep
    ensures forall k, m :: 0 <= k < m < |r| ==> |r[k]| > |r[m]|
    ensures forall i :: 0 < i < n && p[i] == Sep ==> p[..i] in r
    decreases n
  {
    if n <= 1 then []
    else
      var h := if p[n - 1] == Sep then [p[..n - 1]] else [];
      var t := AncestorList(p, n - 1);
      AncestorCons(p, n, h, t);
      h + t
  }

  /** One step of `AncestorList`: the prefix ending before position `n - 1`, when a
      separator is there, goes in front of the shorter ones. */
  lemma AncestorCons(p: Path, n: nat, h: seq<Path>, t: seq<Path>)
    requires 2 <= n <= |p|
    requires h == if p[n - 1] == Sep then [p[..n - 1]] else []
    requires forall x :: x in t ==> 0 < |x| < n - 1 && x == p[..|x|] && p[|x|] == Sep
    requires forall k, m :: 0 <= k < m < |t| ==> |t[k]| > |t[m]|
    requires forall i :: 0 < i < n - 1 && p[i] == Sep ==> p[..i] in t
    ensures forall x :: x in h + t ==> 0 < |x| < n && x == p[..|x|] && p[|x|] == Sep
    ensures forall k, m :: 0 <= k < m < |h + t| ==> |(h + t)[k]| > |(h + t)[m]|
    ensures forall i :: 0 < i < n && p[i] == Sep ==> p[..i] in h + t
  {
    forall k, m | 0 <= k < m < |h + t| ensures |(h + t)[k]| > |(h + t)[m]| {
      if k < |h| {
        assert (h + t)[m] == t[m - 1] && t[m - 1] in t;
      } else {
        assert (h + t)[k] == t[k - |h|] && (h + t)[m] == t[m - |h|];
      }
    }
  }

  /** The parent of an entry inside `g` is at least as long as `g` and not "". */
  lemma UnderParentLong(x: Path, g: Path)
    requires Under(x, g)
    ensures |Parent(x)| >= |g| && Parent(x) != []
  {
    assert x[|g|] == Sep by { assert (g + [Sep])[|g|] == Sep; }
    assert LastSep(x) >= |g|;
  }

  /** An entry that is not its own parent is longer than it, or is "". */
  lemma ParentShort(g: Path)
    requires g != Parent(g)
    ensures g == [] || |Parent(g)| < |g|
  {
  }

  /** Two entries of the same directory never lie one inside the other, unless the
      second is its own parent (the root). */
  lemma SiblingsApart(x: Path, g: Path)
    requires Parent(x) == Parent(g) && g != Parent(g)
    ensures !Under(x, g)
  {
    if Under(x, g) {
      UnderParentLong(x, g);
      ParentShort(g);
    }
  }
}
