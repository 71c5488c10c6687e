/** PHP's string semantics as the deployment script relies on them: truthiness, trim,
    rtrim, implode/explode over a one-character separator, numeric strings and the loose
    comparisons of PHP 8. Strings are sequences of characters; PHP's byte strings are
    modelled character for character. */
module Php {

  /** A value read from the command line, or one of the script's own defaults. */
  datatype ArgValue = False | Text(s: string) | Number(n: int)

  /** `if ($s)` for a string: the empty string and "0" are falsy. */
  predicate Truthy(s: string) {
    s != "" && s != "0"
  }

  /** PHP's `empty()` on a value that is a string, an integer or `false`. */
  predicate IsEmpty(v: ArgValue) {
    match v
    case False => true
    case Text(s) => !Truthy(s)
    case Number(n) => n == 0
  }

  // ---------------------------------------------------------------------------
  // trim / rtrim

  /** The characters `trim()` strips by default: space, tab, LF, CR, NUL, vertical tab. */
  predicate IsTrimChar(c: char) {
    c == ' ' || c == '\t' || c == '\n' || c == '\r' || c == '\0' || c == '\U{0B}'
  }

  /** `rtrim($s, $c)` for a one-character mask: drop every trailing `c`. */
  function RTrim(s: string, c: char): (r: string)
    ensures |r| <= |s| && r == s[..|r|]
    ensures forall k :: |r| <= k < |s| ==> s[k] == c
    ensures r == [] || r[|r| - 1] != c
    decreases |s|
  {
    if s != [] && s[|s| - 1] == c then RTrim(s[..|s| - 1], c) else s
  }

  function TrimRight(s: string): (r: string)
    ensures |r| <= |s| && r == s[..|r|]
    ensures forall k :: |r| <= k < |s| ==> IsTrimChar(s[k])
    ensures r == [] || !IsTrimChar(r[|r| - 1])
    decreases |s|
  {
    if s != [] && IsTrimChar(s[|s| - 1]) then TrimRight(s[..|s| - 1]) else s
  }

  function TrimLeft(s: string): (r: string)
    ensures |r| <= |s| && r == s[|s| - |r|..]
    ensures forall k :: 0 <= k < |s| - |r| ==> IsTrimChar(s[k])
    ensures r == [] || !IsTrimChar(r[0])
    decreases |s|
  {
    if s != [] && IsTrimChar(s[0]) then TrimLeft(s[1..]) else s
  }

  /** `trim($s)`: the part of `s` between its leading and trailing trim characters. */
  function Trim(s: string): (r: string)
    ensures var i := |TrimRight(s)| - |r|;
              0 <= i <= |s| - |r| && r == s[i..i + |r|]
              && (forall k :: 0 <= k < i ==> IsTrimChar(s[k]))
              && (forall k :: i + |r| <= k < |s| ==> IsTrimChar(s[k]))
    ensures r == [] || (!IsTrimChar(r[0]) && !IsTrimChar(r[|r| - 1]))
  {
    var t := TrimRight(s);
    var r := TrimLeft(t);
    assert r == s[|t| - |r|..|t|];
    r
  }

  /** A string that neither starts nor ends with a trim character is its own trim. */
  lemma TrimUnchanged(s: string)
    requires s == [] || (!IsTrimChar(s[0]) && !IsTrimChar(s[|s| - 1]))
    ensures Trim(s) == s
  {
    assert TrimRight(s) == s;
    assert TrimLeft(s) == s;
  }

  /** `substr($s, $k)` for `k >= 0`: what is left after the first `k` characters, and
      the empty string once `k` reaches the end. */
  function Substr(s: string, k: nat): (r: string)
    ensures |r| == if k <= |s| then |s| - k else 0
    ensures k <= |s| ==> s[..k] + r == s
  {
    if k <= |s| then s[k..] else ""
  }

  /** `strpos($s, $p) === 0`. */
  predicate StartsWith(s: string, p: string) {
    |p| <= |s| && s[..|p|] == p
  }

  // ---------------------------------------------------------------------------
  // implode / explode with a one-character separator

  /** `implode($d, $parts)`. */
  function Join(parts: seq<string>, d: char): string
    decreases |parts|
  {
    if |parts| == 0 then ""
    else if |parts| == 1 then parts[0]
    else parts[0] + [d] + Join(parts[1..], d)
  }

  /** `explode($d, $s)`: the pieces between the occurrences of `d`; never empty, and
      joining them back with `d` gives `s` again. */
  function Split(s: string, d: char): (r: seq<string>)
    ensures |r| >= 1
    ensures forall k :: 0 <= k < |r| ==> d !in r[k]
    ensures Join(r, d) == s
    decreases |s|
  {
    if s == [] then [""]
    else
      var rest := Split(s[1..], d);
      if s[0] == d then
        assert Join([""] + rest, d) == [d] + Join(rest, d);
        [""] + rest
      else
        var r := [[s[0]] + rest[0]] + rest[1..];
        JoinConsChar(s[0], rest, d);
        r
  }

  lemma JoinConsChar(c: char, parts: seq<string>, d: char)
    requires |parts| >= 1
    ensures Join([[c] + parts[0]] + parts[1..], d) == [c] + Join(parts, d)
  {
    var q := [[c] + parts[0]] + parts[1..];
    assert q[1..] == parts[1..];
  }

  /** Splitting is the only way to cut `s` into separator-free pieces that join back to it. */
  lemma {:induction false} SplitUnique(s: string, d: char, parts: seq<string>)
    requires |parts| >= 1
    requires forall k :: 0 <= k < |parts| ==> d !in parts[k]
    requires Join(parts, d) == s
    ensures parts == Split(s, d)
    decreases |s|, |parts[0]|
  {
    if |parts| == 1 {
      if s != [] {
        assert d !in s;
        var rest := Split(s[1..], d);
        SplitUnique(s[1..], d, [s[1..]]);
      }
    } else if parts[0] == [] {
      assert s == [d] + Join(parts[1..], d);
      assert s[1..] == Join(parts[1..], d);
      SplitUnique(s[1..], d, parts[1..]);
      assert parts == [""] + parts[1..];
    } else {
      var c := parts[0][0];
      var tail := [parts[0][1..]] + parts[1..];
      assert tail[1..] == parts[1..];
      assert parts[0] == [c] + parts[0][1..];
      JoinConsChar(c, tail, d);
      assert [[c] + tail[0]] + tail[1..] == parts;
      assert s == [c] + Join(tail, d);
      assert s[1..] == Join(tail, d);
      forall k | 0 <= k < |tail| ensures d !in tail[k] {
        if k == 0 { assert tail[0] == parts[0][1..]; } else { assert tail[k] == parts[k]; }
      }
      SplitUnique(s[1..], d, tail);
    }
  }

  // ---------------------------------------------------------------------------
  // numeric strings and loose comparison (PHP 8)

  predicate IsDigit(c: char) {
    '0' <= c <= '9'
  }

  predicate AllDigits(s: string) {
    forall k :: 0 <= k < |s| ==> IsDigit(s[k])
  }

  function DigitsValue(s: string): (n: nat)
    requires AllDigits(s)
    decreases |s|
  {
    if s == [] then 0 else DigitsValue(s[..|s| - 1]) * 10 + (s[|s| - 1] as int - '0' as int)
  }

  /** An integer-form numeric string: an optional sign followed by one or more digits. */
  predicate IsIntegerString(s: string) {
    if s != [] && (s[0] == '+' || s[0] == '-') then |s| > 1 && AllDigits(s[1..])
    else s != [] && AllDigits(s)
  }

  function IntValue(s: string): int
    requires IsIntegerString(s)
  {
    if s[0] == '-' then -(DigitsValue(s[1..]) as int)
    else if s[0] == '+' then DigitsValue(s[1..])
    else DigitsValue(s)
  }

  /** The decimal digits of `n`, as PHP converts an integer to a string. */
  function NatToDecimal(n: nat): (r: string)
    ensures r != [] && AllDigits(r)
    decreases n
  {
    var digit := ['0' + ((n % 10) as char)];
    if n < 10 then digit else NatToDecimal(n / 10) + digit
  }

  /** Printing a non-negative integer and reading it back gives the integer again. */
  lemma {:induction false} DecimalRoundTrip(n: nat)
    ensures IsIntegerString(NatToDecimal(n))
    ensures IntValue(NatToDecimal(n)) == n
    decreases n
  {
    var r := NatToDecimal(n);
    assert IsDigit(r[0]);
    assert r[|r| - 1] as int - '0' as int == n % 10;
    if n >= 10 {
      var p := NatToDecimal(n / 10);
      DecimalRoundTrip(n / 10);
      assert r[..|r| - 1] == p;
      assert IsDigit(p[0]) && IntValue(p) == DigitsValue(p);
      assert DigitsValue(r) == DigitsValue(p) * 10 + n % 10;
      assert n == (n / 10) * 10 + n % 10;
    }
    assert IntValue(r) == DigitsValue(r);
  }

  /** The whitespace PHP 8 allows before and after a numeric string: space, tab, LF, CR,
      vertical tab and form feed. */
  predicate IsNumericSpace(c: char) {
    c == ' ' || c == '\t' || c == '\n' || c == '\r' || c == '\U{0B}' || c == '\U{0C}'
  }

  /** The two kinds of character runs the scanner skips over. */
  datatype CharClass = Whitespace | Digit

  predicate InClass(c: char, k: CharClass) {
    match k
    case Whitespace => IsNumericSpace(c)
    case Digit => IsDigit(c)
  }

  /** The end of the run of characters of class `k` from position `i` on. */
  function Span(s: string, i: nat, k: CharClass): (j: nat)
    requires i <= |s|
    ensures i <= j <= |s|
    decreases |s| - i
  {
    if i < |s| && InClass(s[i], k) then Span(s, i + 1, k) else i
  }

  /** `Span` covers only characters of class `k` and stops at the first other one. */
  lemma {:induction false} SpanMeaning(s: string, i: nat, k: CharClass)
    requires i <= |s|
    ensures forall m :: i <= m < Span(s, i, k) ==> InClass(s[m], k)
    ensures Span(s, i, k) < |s| ==> !InClass(s[Span(s, i, k)], k)
    decreases |s| - i
  {
    if i < |s| && InClass(s[i], k) {
      SpanMeaning(s, i + 1, k);
    }
  }

  /** A run of class `k` from `i` that stops at `j` is what `Span` finds. */
  lemma {:induction false} SpanAt(s: string, i: nat, k: CharClass, j: nat)
    requires i <= j <= |s|
    requires forall m :: i <= m < j ==> InClass(s[m], k)
    requires j == |s| || !InClass(s[j], k)
    ensures Span(s, i, k) == j
    decreases j - i
  {
    if i < j {
      SpanAt(s, i + 1, k, j);
    }
  }

  /** A number PHP reads from a string, kept exactly: `mantissa * 10^exponent`. */
  datatype Decimal = Decimal(mantissa: int, exponent: int)

  function Pow10(n: nat): (r: nat)
    ensures r >= 1
  {
    if n == 0 then 1 else 10 * Pow10(n - 1)
  }

  /** Where the digits of a number start in `s`: after the leading whitespace and an
      optional sign. */
  function DigitsStart(s: string): (p: nat)
    ensures p <= |s|
  {
    var w := Span(s, 0, Whitespace);
    if w < |s| && (s[w] == '+' || s[w] == '-') then w + 1 else w
  }

  /** The number at the front of `s` as PHP 8 scans it (leading whitespace, a sign,
      digits with at most one decimal point, an exponent) with the position where it
      ends; None when no digit is there. */
  function NumberPrefix(s: string): (r: Option<(Decimal, nat)>)
    ensures var p := DigitsStart(s);
      r.None? <==> !(p < |s| && IsDigit(s[p])) && !(p + 1 < |s| && s[p] == '.' && IsDigit(s[p + 1]))
    ensures r.Some? ==> DigitsStart(s) < r.value.1 <= |s|
  {
    var w := Span(s, 0, Whitespace);
    var p := DigitsStart(s);
    var i := Span(s, p, Digit);
    var dot := i < |s| && s[i] == '.';
    var f := if dot then Span(s, i + 1, Digit) else i;
    if i == p && (!dot || f == i + 1) then None
    else
      var fraction := if dot then s[i + 1..f] else "";
      SpanMeaning(s, p, Digit);
      DigitsBetween(s, p, i);
      assert AllDigits(fraction) by {
        if dot {
          SpanMeaning(s, i + 1, Digit);
          DigitsBetween(s, i + 1, f);
        }
      }
      AllDigitsAppend(s[p..i], fraction);
      var m: int := DigitsValue(s[p..i] + fraction);
      var (e, end) := ExponentAt(s, f);
      Some((Decimal(if p > w && s[w] == '-' then -m else m, e - |fraction|), end))
  }

  lemma DigitsBetween(s: string, i: nat, j: nat)
    requires i <= j <= |s| && forall k :: i <= k < j ==> IsDigit(s[k])
    ensures AllDigits(s[i..j])
  {
    forall k | 0 <= k < j - i ensures IsDigit(s[i..j][k]) {
      assert s[i..j][k] == s[i + k];
    }
  }

  lemma AllDigitsAppend(a: string, b: string)
    requires AllDigits(a) && AllDigits(b)
    ensures AllDigits(a + b)
  {
    forall k | 0 <= k < |a + b| ensures IsDigit((a + b)[k]) {
      if k >= |a| {
        assert (a + b)[k] == b[k - |a|];
      }
    }
  }

  /** An exponent `e12`, `E-3`, ... at position `q` and where it ends; a lone `e` is not
      one. */
  function ExponentAt(s: string, q: nat): (r: (int, nat))
    requires q <= |s|
    ensures q <= r.1 <= |s|
    ensures r.1 == q ==> r.0 == 0
  {
    if q < |s| && (s[q] == 'e' || s[q] == 'E') then
      var d0 := if q + 1 < |s| && (s[q + 1] == '+' || s[q + 1] == '-') then q + 2 else q + 1;
      var d := Span(s, d0, Digit);
      if d == d0 then (0, q)
      else
        SpanMeaning(s, d0, Digit);
        DigitsBetween(s, d0, d);
        var v: int := DigitsValue(s[d0..d]);
        (if d0 == q + 2 && s[q + 1] == '-' then -v else v, d)
    else (0, q)
  }

  /** The value of a numeric string, or None when `s` is not one: a number with nothing
      but whitespace after it. */
  function NumericString(s: string): (r: Option<Decimal>)
    ensures r.Some? ==> NumberPrefix(s).Some? && r.value == NumberPrefix(s).value.0
  {
    match NumberPrefix(s)
    case None => None
    case Some(pair) => if Span(s, pair.1, Whitespace) == |s| then Some(pair.0) else None
  }

  /** An integer string is numeric, with the integer as its value. */
  lemma IntegerStringValue(s: string)
    requires IsIntegerString(s)
    ensures NumericString(s) == Some(Decimal(IntValue(s), 0))
  {
    var p := DigitsStart(s);
    assert Span(s, 0, Whitespace) == 0;
    assert p == (if s[0] == '+' || s[0] == '-' then 1 else 0);
    assert s[p..] == (if p == 1 then s[1..] else s);
    SpanAllDigits(s, p);
    assert Span(s, p, Digit) == |s|;
    assert s[p..|s|] + "" == s[p..];
  }

  lemma {:induction false} SpanAllDigits(s: string, i: nat)
    requires i <= |s| && AllDigits(s[i..])
    ensures Span(s, i, Digit) == |s|
    decreases |s| - i
  {
    if i < |s| {
      assert IsDigit(s[i..][0]);
      assert s[i + 1..] == s[i..][1..];
      SpanAllDigits(s, i + 1);
    }
  }

  /** The sign of an integer. */
  function Sign(n: int): (r: int)
    ensures -1 <= r <= 1 && (r < 0 <==> n < 0) && (r == 0 <==> n == 0)
  {
    if n < 0 then -1 else if n == 0 then 0 else 1
  }

  /** `x * 10^(x.exponent - e)`: the mantissa of `x` written with the exponent `e`. */
  function Scaled(x: Decimal, e: int): int
    requires e <= x.exponent
  {
    x.mantissa * Pow10(x.exponent - e)
  }

  /** The two decimals stand for the same number. */
  predicate SameValue(x: Decimal, y: Decimal) {
    var e := if x.exponent <= y.exponent then x.exponent else y.exponent;
    Scaled(x, e) == Scaled(y, e)
  }

  lemma {:induction false} Pow10Add(a: nat, b: nat)
    ensures Pow10(a + b) == Pow10(a) * Pow10(b)
    decreases a
  {
    if a > 0 {
      Pow10Add(a - 1, b);
      assert Pow10(a + b) == 10 * Pow10(a - 1 + b) == 10 * (Pow10(a - 1) * Pow10(b));
    }
  }

  /** Writing `x` with the exponent `e` is writing it with `m` and then shifting. */
  lemma ScaledDown(x: Decimal, m: int, e: int)
    requires e <= m <= x.exponent
    ensures Scaled(x, e) == Scaled(x, m) * Pow10(m - e)
  {
    Pow10Add(x.exponent - m, m - e);
    assert x.exponent - e == (x.exponent - m) + (m - e);
    var a, b := Pow10(x.exponent - m), Pow10(m - e);
    assert x.mantissa * (a * b) == (x.mantissa * a) * b;
  }

  /** Writing both numbers with any smaller exponent compares them the same way. */
  lemma SameValueAt(x: Decimal, y: Decimal, e: int)
    requires e <= x.exponent && e <= y.exponent
    ensures SameValue(x, y) <==> Scaled(x, e) == Scaled(y, e)
  {
    var m := if x.exponent <= y.exponent then x.exponent else y.exponent;
    ScaledDown(x, m, e);
    ScaledDown(y, m, e);
    Cancel(Scaled(x, m), Scaled(y, m), Pow10(m - e));
  }

  lemma Cancel(a: int, b: int, p: int)
    requires p > 0
    ensures a * p == b * p <==> a == b
  {
    if a < b {
      assert a * p < b * p;
    } else if a > b {
      assert a * p > b * p;
    }
  }

  /** `$a == $b` for two strings in PHP 8: as numbers when both are numeric strings,
      character for character otherwise. */
  predicate LooseEquals(a: string, b: string) {
    match (NumericString(a), NumericString(b))
    case (Some(x), Some(y)) => SameValue(x, y)
    case _ => a == b
  }

  /** PHP 8's `==` on strings is an equivalence: reflexive, symmetric, transitive. */
  lemma LooseEqualsIsEquivalence(a: string, b: string, c: string)
    ensures LooseEquals(a, a)
    ensures LooseEquals(a, b) == LooseEquals(b, a)
    ensures LooseEquals(a, b) && LooseEquals(b, c) ==> LooseEquals(a, c)
  {
    if NumericString(a).Some? && NumericString(b).Some? && NumericString(c).Some? {
      var x, y, z := NumericString(a).value, NumericString(b).value, NumericString(c).value;
      var e := x.exponent;
      if y.exponent < e { e := y.exponent; }
      if z.exponent < e { e := z.exponent; }
      SameValueAt(x, y, e);
      SameValueAt(y, z, e);
      SameValueAt(x, z, e);
    }
  }

  /** Numeric strings compare by value, whatever their spelling. */
  lemma LooseEqualsByValue()
    ensures LooseEquals("1.0", "1") && LooseEquals("10", "1e1")
    ensures !LooseEquals("abc", "ABC")
  {
    OneSpelledTwice();
    TenSpelledTwice();
    ScanAbc();
  }

  lemma ScanOnePointZero()
    ensures NumberPrefix("1.0") == Some((Decimal(10, -1), 3))
  {
    var s := "1.0";
    assert Span(s, 0, Whitespace) == 0;
    assert Span(s, 2, Digit) == 3;
    assert Span(s, 0, Digit) == 1;
    assert s[0..1] + s[2..3] == "10";
    assert DigitsValue("10") == 10 by {
      assert "10"[..1] == "1";
    }
    assert ExponentAt(s, 3) == (0, 3);
  }

  lemma OneSpelledTwice()
    ensures NumericString("1.0") == Some(Decimal(10, -1)) && NumericString("1") == Some(Decimal(1, 0))
    ensures LooseEquals("1.0", "1")
  {
    ScanOnePointZero();
    assert Span("1.0", 3, Whitespace) == 3;
    IntegerStringValue("1");
    SameValueAt(Decimal(10, -1), Decimal(1, 0), -1);
  }

  lemma ScanOneE1()
    ensures NumberPrefix("1e1") == Some((Decimal(1, 1), 3))
  {
    var s := "1e1";
    assert Span(s, 0, Whitespace) == 0;
    assert Span(s, 0, Digit) == 1;
    assert Span(s, 2, Digit) == 3;
    assert s[2..3] == "1";
    assert DigitsValue("1") == 1 by {
      assert "1"[..0] == "";
    }
    assert ExponentAt(s, 1) == (1, 3);
  }

  lemma TenSpelledTwice()
    ensures NumericString("10") == Some(Decimal(10, 0)) && NumericString("1e1") == Some(Decimal(1, 1))
    ensures LooseEquals("10", "1e1")
  {
    assert DigitsValue("10") == 10 by {
      assert "10"[..1] == "1";
    }
    IntegerStringValue("10");
    ScanOneE1();
    assert Span("1e1", 3, Whitespace) == 3;
  }

  /** `a` and `b` agree on their first `k` characters and `a` sorts first at `k`: it
      has the smaller character there, or ends there while `b` goes on. */
  predicate FirstDifference(a: string, b: string, k: int) {
    0 <= k <= |a| && k <= |b| && a[..k] == b[..k]
    && ((k == |a| && k < |b|) || (k < |a| && k < |b| && a[k] < b[k]))
  }

  /** `a` sorts before `b` character by character. */
  predicate LexLess(a: string, b: string) {
    exists k :: 0 <= k <= |a| && FirstDifference(a, b, k)
  }

  /** With a common first character, the first difference moves one position. */
  lemma FirstDifferenceTail(a: string, b: string, k: nat)
    requires a != [] && b != [] && a[0] == b[0]
    ensures FirstDifference(a, b, k + 1) <==> FirstDifference(a[1..], b[1..], k)
    ensures !FirstDifference(a, b, 0)
  {
    if k + 1 <= |a| && k + 1 <= |b| {
      assert a[..k + 1] == [a[0]] + a[1..][..k] && b[..k + 1] == [b[0]] + b[1..][..k];
    }
  }

  /** Dropping a common first character keeps the order of two strings. */
  lemma LexLessTail(a: string, b: string)
    requires a != [] && b != [] && a[0] == b[0]
    ensures LexLess(a, b) <==> LexLess(a[1..], b[1..])
  {
    if LexLess(a, b) {
      var k :| 0 <= k <= |a| && FirstDifference(a, b, k);
      FirstDifferenceTail(a, b, 0);
      FirstDifferenceTail(a, b, k - 1);
    }
    if LexLess(a[1..], b[1..]) {
      var k :| 0 <= k <= |a[1..]| && FirstDifference(a[1..], b[1..], k);
      FirstDifferenceTail(a, b, k);
    }
  }

  /** `strcmp($a, $b)` reduced to its sign: -1 when `a` sorts first, 1 when `b` does. */
  function Compare(a: string, b: string): (r: int)
    ensures -1 <= r <= 1
    ensures r == 0 <==> a == b
    ensures r == -1 <==> LexLess(a, b)
    ensures r == 1 <==> LexLess(b, a)
    decreases |a|
  {
    if a == [] && b == [] then 0
    else if a == [] then
      assert FirstDifference(a, b, 0);
      -1
    else if b == [] then
      assert FirstDifference(b, a, 0);
      1
    else if a[0] < b[0] then
      assert FirstDifference(a, b, 0);
      assert !LexLess(b, a) by { NotBothFirst(a, b); }
      -1
    else if a[0] > b[0] then
      assert FirstDifference(b, a, 0);
      assert !LexLess(a, b) by { NotBothFirst(b, a); }
      1
    else
      var r := Compare(a[1..], b[1..]);
      assert a == [a[0]] + a[1..] && b == [b[0]] + b[1..];
      LexLessTail(a, b);
      LexLessTail(b, a);
      r
  }

  /** When `a` has the smaller first character, `b` does not sort before it. */
  lemma NotBothFirst(a: string, b: string)
    requires a != [] && b != [] && a[0] < b[0]
    ensures !LexLess(b, a)
  {
    forall k | 0 <= k <= |b| ensures !FirstDifference(b, a, k) {
      if 0 < k <= |a| {
        assert b[..k][0] == b[0] && a[..k][0] == a[0];
      }
    }
  }

  /** The sign of `$v <=> 0` in PHP 8: a numeric string is compared as the number it
      spells, any other string is compared with "0" as a string, `false` equals 0. */
  function SignAgainstZero(v: ArgValue): (r: int)
    ensures -1 <= r <= 1
    ensures v.Text? && NumericString(v.s).Some? ==> r == Sign(NumericString(v.s).value.mantissa)
    ensures v.Text? && NumericString(v.s).None? ==> (r == 1 <==> LexLess("0", v.s)) && (r == 0 <==> v.s == "0")
    ensures v.Number? ==> r == Sign(v.n)
  {
    match v
    case False => 0
    case Number(n) => Sign(n)
    case Text(s) =>
      match NumericString(s)
      case Some(x) => Sign(x.mantissa)
      case None => Compare(s, "0")
  }

  /** What a keep count spelled as a decimal compares as: "0.0" is not above zero, ".5"
      is, and so is a word. */
  lemma SignOfDecimalSpellings()
    ensures SignAgainstZero(Text("0.0")) == 0
    ensures SignAgainstZero(Text(".5")) == 1
    ensures SignAgainstZero(Text("-2e3")) == -1
    ensures SignAgainstZero(Text("abc")) == 1
  {
    ScanZeroPointZero();
    ScanPointFive();
    ScanMinusTwoE3();
    ScanAbc();
    assert LexLess("0", "abc") by {
      assert FirstDifference("0", "abc", 0);
    }
  }

  // the scans the examples above and below rest on

  lemma ScanZeroPointZero()
    ensures NumericString("0.0") == Some(Decimal(0, -1))
  {
    var z := "0.0";
    SpanAt(z, 0, Whitespace, 0);
    SpanAt(z, 0, Digit, 1);
    SpanAt(z, 2, Digit, 3);
    SpanAt(z, 3, Whitespace, 3);
    assert z[0..1] + z[2..3] == "00";
    assert DigitsValue("00") == 0 by {
      assert "00"[..1] == "0";
    }
    assert ExponentAt(z, 3) == (0, 3);
  }

  lemma ScanPointFive()
    ensures NumericString(".5") == Some(Decimal(5, -1))
  {
    var h := ".5";
    SpanAt(h, 0, Whitespace, 0);
    SpanAt(h, 0, Digit, 0);
    SpanAt(h, 1, Digit, 2);
    SpanAt(h, 2, Whitespace, 2);
    assert h[0..0] + h[1..2] == "5";
    assert DigitsValue("5") == 5 by {
      assert "5"[..0] == "";
    }
    assert ExponentAt(h, 2) == (0, 2);
  }

  lemma ScanMinusTwoE3()
    ensures NumericString("-2e3") == Some(Decimal(-2, 3))
  {
    var n := "-2e3";
    SpanAt(n, 0, Whitespace, 0);
    assert DigitsStart(n) == 1;
    SpanAt(n, 1, Digit, 2);
    SpanAt(n, 3, Digit, 4);
    SpanAt(n, 4, Whitespace, 4);
    assert n[1..2] + "" == "2" && n[3..4] == "3";
    assert DigitsValue("2") == 2 by {
      assert "2"[..0] == "";
    }
    assert DigitsValue("3") == 3 by {
      assert "3"[..0] == "";
    }
    assert ExponentAt(n, 2) == (3, 4);
  }

  lemma ScanAbc()
    ensures NumberPrefix("abc").None? && NumericString("abc").None?
  {
    SpanAt("abc", 0, Whitespace, 0);
    SpanAt("abc", 0, Digit, 0);
  }

  lemma ScanOneE3()
    ensures NumberPrefix("1e3") == Some((Decimal(1, 3), 3))
  {
    var t := "1e3";
    SpanAt(t, 0, Whitespace, 0);
    SpanAt(t, 0, Digit, 1);
    SpanAt(t, 2, Digit, 3);
    assert t[0..1] + "" == "1" && t[2..3] == "3";
    assert DigitsValue("3") == 3 by {
      assert "3"[..0] == "";
    }
    assert DigitsValue("1") == 1 by {
      assert "1"[..0] == "";
    }
    assert ExponentAt(t, 1) == (3, 3);
  }

  lemma ScanOnePointFive()
    ensures NumberPrefix("1.5") == Some((Decimal(15, -1), 3))
  {
    var f := "1.5";
    SpanAt(f, 0, Whitespace, 0);
    SpanAt(f, 0, Digit, 1);
    SpanAt(f, 2, Digit, 3);
    assert f[0..1] + f[2..3] == "15";
    assert DigitsValue("15") == 15 by {
      assert "15"[..1] == "1";
    }
    assert ExponentAt(f, 3) == (0, 3);
  }

  lemma ScanFiveAbc()
    ensures NumberPrefix("5abc") == Some((Decimal(5, 0), 1))
  {
    var w := "5abc";
    SpanAt(w, 0, Whitespace, 0);
    SpanAt(w, 0, Digit, 1);
    assert w[0..1] + "" == "5";
    assert DigitsValue("5") == 5 by {
      assert "5"[..0] == "";
    }
    assert ExponentAt(w, 1) == (0, 1);
  }

  /** `x + k` for an integer `k`, exactly. */
  function AddInt(x: Decimal, k: int): (r: Decimal)
    ensures var e := if x.exponent <= 0 then x.exponent else 0;
      r.exponent == e && Scaled(r, e) == Scaled(x, e) + k * Pow10(-e)
  {
    if x.exponent >= 0 then Decimal(x.mantissa * Pow10(x.exponent) + k, 0)
    else Decimal(x.mantissa + k * Pow10(-x.exponent), x.exponent)
  }

  /** `$v + $k` for an integer `k`: a string counts as the number it starts with (a
      leading-numeric string such as "5abc" as 5); one that starts with no number at all
      makes PHP 8 throw a `TypeError`, here None. */
  function PlusInt(v: ArgValue, k: int): (r: Option<Decimal>)
    ensures v.False? ==> r == Some(Decimal(k, 0))
    ensures v.Number? ==> r == Some(Decimal(v.n + k, 0))
    ensures v.Text? ==> (r.None? <==> NumberPrefix(v.s).None?)
    ensures v.Text? && r.Some? ==> r.value == AddInt(NumberPrefix(v.s).value.0, k)
  {
    match v
    case False => Some(Decimal(k, 0))
    case Number(n) => Some(Decimal(n + k, 0))
    case Text(s) =>
      match NumberPrefix(s)
      case None => None
      case Some(pair) => Some(AddInt(pair.0, k))
  }

  /** Sums of a keep count and 2 for the spellings PHP treats specially. */
  lemma PlusIntSpellings()
    ensures PlusInt(Text("1e3"), 2) == Some(Decimal(1002, 0))
    ensures PlusInt(Text("1.5"), 2) == Some(Decimal(35, -1))
    ensures PlusInt(Text("5abc"), 2) == Some(Decimal(7, 0))
    ensures PlusInt(Text("abc"), 2).None?
  {
    ScanOneE3();
    assert Pow10(3) == 1000;
    ScanOnePointFive();
    assert Pow10(1) == 10;
    ScanFiveAbc();
    assert Pow10(0) == 1;
    ScanAbc();
  }

  /** The integer a decimal stands for, or None when it has a fractional part. */
  function WholeValue(x: Decimal): (r: Option<int>)
    ensures r.Some? <==> x.exponent >= 0 || x.mantissa % Pow10(-x.exponent) == 0
    ensures r.Some? && x.exponent >= 0 ==> r.value == Scaled(x, 0)
    ensures r.Some? && x.exponent < 0 ==> r.value * Pow10(-x.exponent) == x.mantissa
  {
    if x.exponent >= 0 then Some(x.mantissa * Pow10(x.exponent))
    else if x.mantissa % Pow10(-x.exponent) == 0 then Some(x.mantissa / Pow10(-x.exponent))
    else None
  }

  datatype Option<T> = None | Some(value: T)
}
