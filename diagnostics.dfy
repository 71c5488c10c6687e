/** `outputErrors`: in quiet mode the buffered output is taken back after a failure and
    every distinct non-empty line of it is shown once, in the order it first appeared. */
module Diagnostics {
  import opened Php
  import opened Output

  /** `in_array($x, $shown)` under the comparison `same`. */
  predicate InArray(x: string, shown: seq<string>, same: (string, string) -> bool)
    decreases |shown|
  {
    shown != [] && (same(x, shown[0]) || InArray(x, shown[1..], same))
  }

  lemma {:induction false} InArrayMeaning(x: string, shown: seq<string>, same: (string, string) -> bool)
    ensures InArray(x, shown, same) <==> exists k :: 0 <= k < |shown| && same(x, shown[k])
    decreases |shown|
  {
    if shown != [] {
      InArrayMeaning(x, shown[1..], same);
      if InArray(x, shown[1..], same) {
        var k :| 0 <= k < |shown[1..]| && same(x, shown[1..][k]);
        assert same(x, shown[k + 1]);
      }
      if exists k :: 0 <= k < |shown| && same(x, shown[k]) {
        var k :| 0 <= k < |shown| && same(x, shown[k]);
        if k > 0 {
          assert same(x, shown[1..][k - 1]);
        }
      }
    }
  }

  /** The lines reported for `lines`: each line that is truthy and not `same` as one
      already reported is appended. */
  function Reported(lines: seq<string>, same: (string, string) -> bool): seq<string>
    decreases |lines|
  {
    if lines == [] then []
    else
      var prev := Reported(lines[..|lines| - 1], same);
      var x := lines[|lines| - 1];
      if Truthy(x) && !InArray(x, prev, same) then prev + [x] else prev
  }

  /** Every reported line is a truthy line of the input. */
  lemma {:induction false} ReportedSound(lines: seq<string>, same: (string, string) -> bool)
    ensures forall k :: 0 <= k < |Reported(lines, same)| ==>
              Truthy(Reported(lines, same)[k]) && Reported(lines, same)[k] in lines
    decreases |lines|
  {
    if lines != [] {
      var init := lines[..|lines| - 1];
      ReportedSound(init, same);
      assert forall y :: y in init ==> y in lines;
    }
  }

  /** No line of `r` is `same` as one before it. */
  predicate NoneSameAsEarlier(r: seq<string>, same: (string, string) -> bool) {
    forall i, j :: 0 <= i < j < |r| ==> !same(r[j], r[i])
  }

  /** No reported line is `same` as one reported before it. */
  lemma {:induction false} ReportedDistinct(lines: seq<string>, same: (string, string) -> bool)
    ensures NoneSameAsEarlier(Reported(lines, same), same)
    decreases |lines|
  {
    if lines != [] {
      var init := lines[..|lines| - 1];
      var prev := Reported(init, same);
      var x := lines[|lines| - 1];
      ReportedDistinct(init, same);
      InArrayMeaning(x, prev, same);
      var r := Reported(lines, same);
      assert r == if Truthy(x) && !InArray(x, prev, same) then prev + [x] else prev;
      if r != prev {
        forall i, j | 0 <= i < j < |r| ensures !same(r[j], r[i]) {
          if j < |prev| {
            assert r[j] == prev[j] && r[i] == prev[i];
          } else {
            assert r[j] == x && r[i] == prev[i];
            assert !InArray(x, prev, same);
            assert !same(x, prev[i]);
          }
        }
      }
    }
  }

  /** Every truthy line of `lines` is `same` as a line of `r`. */
  predicate Covers(r: seq<string>, lines: seq<string>, same: (string, string) -> bool) {
    forall x :: x in lines && Truthy(x) ==> exists k :: 0 <= k < |r| && same(x, r[k])
  }

  /** Every truthy input line is `same` as a reported one. */
  lemma {:induction false} ReportedComplete(lines: seq<string>, same: (string, string) -> bool)
    requires forall a :: same(a, a)
    ensures Covers(Reported(lines, same), lines, same)
    decreases |lines|
  {
    if lines != [] {
      var init := lines[..|lines| - 1];
      var prev := Reported(init, same);
      var x := lines[|lines| - 1];
      var r := Reported(lines, same);
      assert r == if Truthy(x) && !InArray(x, prev, same) then prev + [x] else prev;
      ReportedComplete(init, same);
      InArrayMeaning(x, prev, same);
      assert lines == init + [x];
      assert forall k :: 0 <= k < |prev| ==> r[k] == prev[k];
      forall y | y in lines && Truthy(y)
        ensures exists k :: 0 <= k < |r| && same(y, r[k])
      {
        if y in init {
          var k :| 0 <= k < |prev| && same(y, prev[k]);
          assert same(y, r[k]);
        } else {
          assert y == x;
          if !InArray(x, prev, same) {
            assert same(y, r[|r| - 1]);
          }
        }
      }
    }
  }

  /** With strict comparison the reported lines are the distinct truthy lines, each at
      most once: no line is reported twice. */
  lemma StrictReportedUnique(lines: seq<string>)
    ensures NoDuplicates(Reported(lines, Identical))
  {
    ReportedDistinct(lines, Identical);
  }

  /** The position where `x` first occurs in `s`. */
  function IndexOf(s: seq<string>, x: string): (i: nat)
    requires x in s
    ensures i < |s| && s[i] == x && x !in s[..i]
    decreases |s|
  {
    if s[0] == x then 0 else 1 + IndexOf(s[1..], x)
  }

  lemma {:induction false} IndexOfSnoc(s: seq<string>, z: string, y: string)
    requires y in s + [z]
    ensures y in s ==> IndexOf(s + [z], y) == IndexOf(s, y)
    ensures y !in s ==> IndexOf(s + [z], y) == |s|
    decreases |s|
  {
    var i := IndexOf(s + [z], y);
    if y in s {
      var k := IndexOf(s, y);
      assert (s + [z])[k] == y;
      assert (s + [z])[..i] == s[..i] || i == |s|;
    }
  }

  /** With strict comparison the lines are reported in the order in which they first
      occur in the input. */
  lemma {:induction false} StrictReportedInFirstOccurrenceOrder(lines: seq<string>)
    ensures forall k :: 0 <= k < |Reported(lines, Identical)| ==> Reported(lines, Identical)[k] in lines
    ensures InFirstOccurrenceOrder(Reported(lines, Identical), lines)
    decreases |lines|
  {
    ReportedSound(lines, Identical);
    if lines != [] {
      var init := lines[..|lines| - 1];
      var prev := Reported(init, Identical);
      var x := lines[|lines| - 1];
      var r := Reported(lines, Identical);
      assert lines == init + [x];
      assert r == if Truthy(x) && !InArray(x, prev, Identical) then prev + [x] else prev;
      StrictReportedInFirstOccurrenceOrder(init);
      forall k | 0 <= k < |prev| ensures IndexOf(lines, prev[k]) == IndexOf(init, prev[k]) < |init| {
        IndexOfSnoc(init, x, prev[k]);
      }
      if r != prev {
        ReportedComplete(init, Identical);
        InArrayMeaning(x, prev, Identical);
        assert x !in init;
        IndexOfSnoc(init, x, x);
        forall i, j | 0 <= i < j < |r| ensures IndexOf(lines, r[i]) < IndexOf(lines, r[j]) {
          if j < |prev| {
            assert r[i] == prev[i] && r[j] == prev[j];
          } else {
            assert r[i] == prev[i] && r[j] == x;
          }
        }
      }
    }
  }

  predicate InFirstOccurrenceOrder(r: seq<string>, lines: seq<string>)
    requires forall k :: 0 <= k < |r| ==> r[k] in lines
  {
    forall i, j :: 0 <= i < j < |r| ==> IndexOf(lines, r[i]) < IndexOf(lines, r[j])
  }

  /** `===` on strings. */
  predicate Identical(a: string, b: string) {
    a == b
  }

  predicate NoDuplicates(r: seq<string>) {
    forall i, j :: 0 <= i < j < |r| ==> r[i] != r[j]
  }

  /** The text `out($error, 'error')` writes for each reported line. */
  function AsLines(r: seq<string>): string
    decreases |r|
  {
    if r == [] then "" else AsLines(r[..|r| - 1]) + r[|r| - 1] + "\n"
  }

  /** One more line considered: it is reported when it is truthy and not `same` as one
      already reported. */
  lemma ReportedNext(lines: seq<string>, i: nat, same: (string, string) -> bool)
    requires i < |lines|
    ensures var prev := Reported(lines[..i], same);
      Reported(lines[..i + 1], same)
        == if Truthy(lines[i]) && !InArray(lines[i], prev, same) then prev + [lines[i]] else prev
  {
    assert lines[..i + 1][..i] == lines[..i];
  }

  /** Reporting one more line writes it and a newline after what was written. */
  lemma AsLinesSnoc(before: string, r: seq<string>, x: string)
    ensures before + AsLines(r + [x]) == (before + AsLines(r)) + (x + "\n")
  {
    assert (r + [x])[..|r|] == r;
  }

  /** The console after `outputErrors()`: the buffer closed and emptied, and the lines
      of what it held that `Reported` keeps shown, one per line. */
  function ErrorsShown(v: Screen, same: (string, string) -> bool): Screen {
    Screen(false, "", v.shown + AsLines(Reported(Split(if v.buffering then v.buffer else "", '\n'), same)))
  }

  /** `outputErrors()`: the buffered text is taken back, cut at newlines, and each line
      that `Reported` keeps is shown on a line of its own. */
  method OutputErrors(console: Console, same: (string, string) -> bool)
    modifies console
    ensures console.View() == ErrorsShown(old(console.View()), same)
  {
    var text := console.GetClean();
    var errors := Split(text, '\n');
    var shown: seq<string> := [];
    var i := 0;
    while i < |errors|
      invariant 0 <= i <= |errors|
      invariant shown == Reported(errors[..i], same)
      invariant !console.buffering && console.buffer == ""
      invariant console.shown == old(console.shown) + AsLines(shown)
    {
      var error := errors[i];
      ReportedNext(errors, i, same);
      if Truthy(error) && !InArray(error, shown, same) {
        ghost var before := console.shown;
        console.Write(error + "\n");
        assert console.shown == before + (error + "\n");
        AsLinesSnoc(old(console.shown), shown, error);
        shown := shown + [error];
      }
      i := i + 1;
    }
    assert errors[..i] == errors;
  }
}
