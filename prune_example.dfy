/**
 * The pruning example of a deployment directory holding three revisions.
 */
module PruneExample {
  import opened Php
  import opened Paths
  import opened Fs

  /** An entry "r/x" of the directory "r". */
  lemma ChildOfR(x: char)
    requires x != Sep && x != '.'
    ensures ChildOf(['r', Sep, x], "r")
  {
    var e := ['r', Sep, x];
    assert LastSep(e) == 1 by {
      assert e[2] != Sep && e[1] == Sep;
    }
    assert Parent(e) == "r" by { assert e[..1] == "r"; }
    assert BaseName(e) == [x];
  }

  /** One step of a listing. */
  lemma ListingCons(s: State, e: Path, rest: seq<Path>, d: Path)
    ensures s.ListingOf([e] + rest, d)
            == (if ChildOf(e, d) && (e in s.dirs || e in s.links) then [e] else []) + s.ListingOf(rest, d)
  {
    assert ([e] + rest)[1..] == rest;
  }

  /** The directory "r" is named "r". */
  lemma ListingR(s: State)
    ensures s.Listing("r") == s.ListingOf(s.order, "r")
  {
    assert IsCanonical("r");
  }

  /** One listed step of a listing. */
  lemma ListingStep(s: State, e: Path, rest: seq<Path>, d: Path, prev: seq<Path>)
    requires ChildOf(e, d) && e in s.dirs && s.ListingOf(rest, d) == prev
    ensures s.ListingOf([e] + rest, d) == [e] + prev
  {
    ListingCons(s, e, rest, d);
  }

  lemma ListingOfOne(s: State, d: Path, a: Path)
    requires ChildOf(a, d) && a in s.dirs
    ensures s.ListingOf([a, d], d) == [a]
  {
    ListingCons(s, d, [], d);
    ListingStep(s, a, [d], d, []);
  }

  /** One listed step, with the listings written out. */
  lemma ListingNext(s: State, d: Path, e: Path, prev: seq<Path>, rest: seq<Path>, r: seq<Path>, l: seq<Path>)
    requires e in s.dirs && ChildOf(e, d)
    requires s.ListingOf(rest, d) == prev && r == [e] + rest && l == [e] + prev
    ensures s.ListingOf(r, d) == l
  {
    ListingStep(s, e, rest, d, prev);
  }

  /** Three children of `d` created after it, newest first, are what `ls` lists. */
  lemma ListingOfThree(s: State, d: Path, a: Path, b: Path, c: Path)
    requires s.order == [c, b, a, d] && a in s.dirs && b in s.dirs && c in s.dirs
    requires ChildOf(a, d) && ChildOf(b, d) && ChildOf(c, d)
    ensures s.ListingOf(s.order, d) == [c, b, a]
  {
    ListingOfOne(s, d, a);
    ListingNext(s, d, b, [a], [a, d], [b, a, d], [b, a]);
    ListingNext(s, d, c, [b, a], [b, a, d], s.order, [c, b, a]);
  }

  lemma DoomedOfThree(env: Oracles)
    requires env.removable("r/a")
    ensures var doomed := Doomed(["r/c", "r/b", "r/a"], 3);
      doomed == ["r/a"] && Kept(doomed, env.removable) == ["r/a"] && AllKept(doomed, env.removable)
  {
    assert ["r/a"][1..] == [];
  }

  lemma RemovedOfThree(s: State)
    requires s == State({"r", "r/a", "r/b", "r/c"}, map[], ["r/c", "r/b", "r/a", "r"])
    ensures s.RemoveTrees(["r/a"]) == State({"r", "r/b", "r/c"}, map[], s.order)
  {
    assert ["r/a"][..0] == [];
    assert !Under("r", "r/a") && !Under("r/b", "r/a") && !Under("r/c", "r/a");
    assert Survivors(s.dirs, ["r/a"]) == {"r", "r/b", "r/c"};
  }

  /** `Prune` spelled out. */
  lemma PruneUnfold(s: State, env: Oracles, d: string, from: int)
    ensures var doomed := Doomed(s.Listing(d), from);
      s.Prune(env, d, from, ChangeTime) == (AllKept(doomed, env.removable), s.RemoveTrees(Kept(doomed, env.removable)))
  {
  }

  /** Keeping one revision of three: `pruneOldRevisions(1)` starts at line 3 and removes
      the oldest. */
  lemma PruneKeepOneOfThree(env: Oracles)
    requires env.removable("r/a")
    ensures var s := State({"r", "r/a", "r/b", "r/c"}, map[], ["r/c", "r/b", "r/a", "r"]);
      s.Prune(env, "r", 1 + 2, ChangeTime) == (true, State({"r", "r/b", "r/c"}, map[], s.order))
  {
    var s := State({"r", "r/a", "r/b", "r/c"}, map[], ["r/c", "r/b", "r/a", "r"]);
    ChildOfR('a');
    ChildOfR('b');
    ChildOfR('c');
    ListingOfThree(s, "r", "r/a", "r/b", "r/c");
    ListingR(s);
    DoomedOfThree(env);
    RemovedOfThree(s);
    PruneUnfold(s, env, "r", 3);
  }

  /** "r/a" sorts before "r/b", which sorts before "r/c". */
  lemma NamesOfThree()
    ensures LexLess("r/a", "r/b") && LexLess("r/b", "r/c") && LexLess("r/a", "r/c")
  {
    assert FirstDifference("r/a", "r/b", 2);
    assert FirstDifference("r/b", "r/c", 2);
    assert FirstDifference("r/a", "r/c", 2);
  }

  /** Three entries with one modification time, in the recorded order newest first, are
      printed by `ls -t` in name order. */
  lemma SameTimeByName(modified: Path -> int)
    requires modified("r/a") == modified("r/b") == modified("r/c")
    ensures ByModification(["r/c", "r/b", "r/a"], modified) == ["r/a", "r/b", "r/c"]
  {
    NamesOfThree();
    assert ["r/c", "r/b", "r/a"][1..] == ["r/b", "r/a"];
    assert ["r/b", "r/a"][1..] == ["r/a"];
    assert ByModification(["r/a"], modified) == ["r/a"];
    assert ByModification(["r/b", "r/a"], modified) == ["r/a", "r/b"] by {
      assert !NoLater("r/b", "r/a", modified);
      assert ["r/a"][1..] == [];
    }
    assert InsertByTime("r/c", ["r/a", "r/b"], modified) == ["r/a", "r/b", "r/c"] by {
      assert !NoLater("r/c", "r/a", modified) && !NoLater("r/c", "r/b", modified);
      assert ["r/a", "r/b"][1..] == ["r/b"];
      assert ["r/b"][1..] == [];
    }
  }

  lemma DoomedOfThreeByName(env: Oracles)
    requires env.removable("r/c")
    ensures var doomed := Doomed(["r/a", "r/b", "r/c"], 3);
      doomed == ["r/c"] && Kept(doomed, env.removable) == ["r/c"] && AllKept(doomed, env.removable)
  {
    assert ["r/c"][1..] == [];
  }

  lemma RemovedNewestOfThree(s: State)
    requires s == State({"r", "r/a", "r/b", "r/c"}, map[], ["r/c", "r/b", "r/a", "r"])
    ensures s.RemoveTrees(["r/c"]) == State({"r", "r/a", "r/b"}, map[], s.order)
  {
    assert ["r/c"][..0] == [];
    assert !Under("r", "r/c") && !Under("r/a", "r/c") && !Under("r/b", "r/c");
    assert Survivors(s.dirs, ["r/c"]) == {"r", "r/a", "r/b"};
  }

  /** The packaged version lists by modification time. When the three revisions carry
      one modification time, as `cp -a` of an unchanged cache gives them, keeping one
      revision removes "r/c", the one made last, and keeps the two older ones. */
  lemma ModificationOrderDropsNewest(env: Oracles)
    requires env.removable("r/c")
    requires env.modified("r/a") == env.modified("r/b") == env.modified("r/c")
    ensures var s := State({"r", "r/a", "r/b", "r/c"}, map[], ["r/c", "r/b", "r/a", "r"]);
      s.order[0] == "r/c"
      && s.Prune(env, "r", 1 + 2, ModificationTime) == (true, State({"r", "r/a", "r/b"}, map[], s.order))
  {
    var s := State({"r", "r/a", "r/b", "r/c"}, map[], ["r/c", "r/b", "r/a", "r"]);
    ChildOfR('a');
    ChildOfR('b');
    ChildOfR('c');
    ListingOfThree(s, "r", "r/a", "r/b", "r/c");
    ListingR(s);
    SameTimeByName(env.modified);
    assert s.Listed(env, "r", ModificationTime) == ["r/a", "r/b", "r/c"];
    DoomedOfThreeByName(env);
    RemovedNewestOfThree(s);
  }
}
