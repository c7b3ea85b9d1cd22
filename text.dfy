/** String helpers shared by the models: Python's `split` and `sep.join`,
    Python's `strip` and Java's `trim`, decimal rendering of integers
    (Python `str(int)`, Java `Integer.toString`), Java `Integer.parseInt`,
    Python `int(str)`, and the natural order of Java strings. */
module Text {

  datatype Option<+T> = None | Some(value: T)

  const MinInt32: int := -0x8000_0000
  const MaxInt32: int := 0x7FFF_FFFF

  // ---------------------------------------------------------------- joining

  /** `sep.join(parts)`; also what a StringBuilder loop with separators builds. */
  function Join(parts: seq<string>, sep: string): string
    decreases |parts|
  {
    if |parts| == 0 then ""
    else if |parts| == 1 then parts[0]
    else parts[0] + sep + Join(parts[1..], sep)
  }

  /** Joining one more part onto a non-empty list puts one separator before it. */
  lemma {:induction false} JoinSnoc(parts: seq<string>, x: string, sep: string)
    requires |parts| > 0
    ensures Join(parts + [x], sep) == Join(parts, sep) + sep + x
    decreases |parts|
  {
    if |parts| == 1 {
      assert (parts + [x])[1..] == [x];
    } else {
      assert (parts + [x])[1..] == parts[1..] + [x];
      JoinSnoc(parts[1..], x, sep);
    }
  }

  /** Joining two non-empty lists puts one separator between their joins. */
  lemma {:induction false} JoinAppend(a: seq<string>, b: seq<string>, sep: string)
    requires |a| > 0 && |b| > 0
    ensures Join(a + b, sep) == Join(a, sep) + sep + Join(b, sep)
    decreases |a|
  {
    if |a| == 1 {
      assert (a + b)[1..] == b;
    } else {
      assert (a + b)[1..] == a[1..] + b;
      JoinAppend(a[1..], b, sep);
    }
  }

  /** A property holds of every element exactly when it holds of every
      element but the last, and of the last. */
  lemma AllSnoc<T>(xs: seq<T>, init: seq<T>, ok: T -> bool)
    requires |xs| > 0 && init == xs[..|xs| - 1]
    ensures (forall i :: 0 <= i < |xs| ==> ok(xs[i])) <==>
      (forall i :: 0 <= i < |init| ==> ok(init[i])) && ok(xs[|xs| - 1])
  {
    if forall i :: 0 <= i < |init| ==> ok(init[i]) {
      forall i | 0 <= i < |xs| - 1
        ensures ok(xs[i])
      {
        assert init[i] == xs[i];
      }
    }
  }

  // -------------------------------------------------------------- splitting

  /** Python's `s.split(c)` for a one-character separator: every segment
      between separators, empty ones included; never an empty list. It is the
      inverse of joining with that character. */
  function Split(s: string, c: char): (r: seq<string>)
    ensures |r| >= 1
    ensures forall i :: 0 <= i < |r| ==> c !in r[i]
    ensures Join(r, [c]) == s
    decreases |s|
  {
    if |s| == 0 then [""]
    else
      var rest := Split(s[1..], c);
      if s[0] == c then
        assert ([""] + rest)[1..] == rest;
        [""] + rest
      else
        var r := [[s[0]] + rest[0]] + rest[1..];
        assert |rest| > 1 ==> Join(rest, [c]) == rest[0] + [c] + Join(rest[1..], [c]);
        assert |rest| > 1 ==> r[1..] == rest[1..];
        r
  }

  lemma {:induction false} SplitNoSeparator(s: string, c: char)
    requires c !in s
    ensures Split(s, c) == [s]
    decreases |s|
  {
    if |s| > 0 {
      SplitNoSeparator(s[1..], c);
    }
  }

  lemma {:induction false} SplitAfterSegment(p: string, c: char, t: string)
    requires c !in p
    ensures Split(p + [c] + t, c) == [p] + Split(t, c)
    decreases |p|
  {
    var s := p + [c] + t;
    if |p| == 0 {
      assert s[1..] == t;
    } else {
      assert s[1..] == p[1..] + [c] + t;
      SplitAfterSegment(p[1..], c, t);
      var rest := Split(s[1..], c);
      assert rest[1..] == Split(t, c);
      assert [s[0]] + rest[0] == p;
    }
  }

  /** Splitting what was joined with a separator that no part contains gives
      back the parts. */
  lemma {:induction false} SplitJoin(parts: seq<string>, c: char)
    requires |parts| >= 1
    requires forall i :: 0 <= i < |parts| ==> c !in parts[i]
    ensures Split(Join(parts, [c]), c) == parts
    decreases |parts|
  {
    if |parts| == 1 {
      SplitNoSeparator(parts[0], c);
    } else {
      SplitJoin(parts[1..], c);
      SplitAfterSegment(parts[0], c, Join(parts[1..], [c]));
    }
  }

  /** Position of the first `c` in `s`, or `|s|` when there is none. */
  function FirstIndex(s: string, c: char): (k: nat)
    ensures k <= |s|
    ensures c !in s[..k]
    ensures k < |s| ==> s[k] == c
    decreases |s|
  {
    if |s| == 0 || s[0] == c then 0 else 1 + FirstIndex(s[1..], c)
  }

  lemma {:induction false} FirstIndexAfter(a: string, c: char, b: string)
    requires c !in a
    ensures FirstIndex(a + [c] + b, c) == |a|
    decreases |a|
  {
    if |a| > 0 {
      assert (a + [c] + b)[1..] == a[1..] + [c] + b;
      FirstIndexAfter(a[1..], c, b);
    }
  }

  /** If `a + c + b == a' + c + b'` and neither `a` nor `a'` contains `c`,
      the two splits agree. */
  lemma SeparatorCut(a: string, b: string, a': string, b': string, c: char)
    requires c !in a && c !in a'
    requires a + [c] + b == a' + [c] + b'
    ensures a == a' && b == b'
  {
    var s := a + [c] + b;
    FirstIndexAfter(a, c, b);
    FirstIndexAfter(a', c, b');
    assert a == s[..|a|] == a';
    assert b == s[|a| + 1..] == b';
  }

  // --------------------------------------------------- strip, trim, slicing

  /** Python's `str.isspace()` characters (what `strip()` and `int()` drop). */
  predicate IsPySpace(ch: char)
  {
    var n := ch as int;
    (9 <= n <= 13) || (28 <= n <= 32) || n == 0x85 || n == 0xA0 || n == 0x1680
    || (0x2000 <= n <= 0x200A) || n == 0x2028 || n == 0x2029 || n == 0x202F
    || n == 0x205F || n == 0x3000
  }

  /** What Java's `String.trim()` drops: every code at or below the space. */
  predicate IsJavaTrimmed(ch: char)
  {
    ch <= ' '
  }

  /** Drops the longest prefix made of characters satisfying `drop`. */
  function DropLeading(s: string, drop: char -> bool): (r: string)
    ensures |r| <= |s| && r == s[|s| - |r|..]
    ensures forall i :: 0 <= i < |s| - |r| ==> drop(s[i])
    ensures |r| > 0 ==> !drop(r[0])
    decreases |s|
  {
    if |s| > 0 && drop(s[0]) then DropLeading(s[1..], drop) else s
  }

  /** Drops the longest suffix made of characters satisfying `drop`. */
  function DropTrailing(s: string, drop: char -> bool): (r: string)
    ensures |r| <= |s| && r == s[..|r|]
    ensures forall i :: |r| <= i < |s| ==> drop(s[i])
    ensures |r| > 0 ==> !drop(r[|r| - 1])
    decreases |s|
  {
    if |s| > 0 && drop(s[|s| - 1]) then DropTrailing(s[..|s| - 1], drop) else s
  }

  /** Python's `s.strip()`. */
  function PyStrip(s: string): string
  {
    DropTrailing(DropLeading(s, IsPySpace), IsPySpace)
  }

  /** Java's `s.trim()`. */
  function JavaTrim(s: string): string
  {
    DropTrailing(DropLeading(s, IsJavaTrimmed), IsJavaTrimmed)
  }

  /** Trimming a string whose ends are kept, with one dropped character
      appended, gives back that string. */
  lemma TrimOneTrailing(s: string, x: char, drop: char -> bool)
    requires |s| > 0 && !drop(s[0]) && !drop(s[|s| - 1]) && drop(x)
    ensures DropTrailing(DropLeading(s + [x], drop), drop) == s
  {
    var t := s + [x];
    assert DropLeading(t, drop) == t;
    assert t[..|s|] == s;
    assert DropTrailing(t, drop) == DropTrailing(s, drop);
  }

  /** Python's `s[i:j]` with possibly negative bounds; it never fails. */
  function PySlice(s: string, i: int, j: int): (r: string)
    ensures |r| <= |s|
  {
    var n := |s|;
    var lo := if i < 0 then (if n + i < 0 then 0 else n + i) else (if i > n then n else i);
    var hi := if j < 0 then (if n + j < 0 then 0 else n + j) else (if j > n then n else j);
    if lo < hi then s[lo..hi] else ""
  }

  // ------------------------------------------------------ decimal rendering

  predicate IsDigit(ch: char)
  {
    '0' <= ch <= '9'
  }

  predicate AllDigits(s: string)
  {
    forall i :: 0 <= i < |s| ==> IsDigit(s[i])
  }

  function DigitChar(d: nat): (ch: char)
    requires d < 10
    ensures IsDigit(ch) && (ch as int) - ('0' as int) == d
  {
    ((('0' as int) + d) as char)
  }

  function DigitValue(ch: char): nat
    requires IsDigit(ch)
  {
    (ch as int) - ('0' as int)
  }

  /** Decimal digits of `n`, most significant first. */
  function NatToString(n: nat): (r: string)
    ensures |r| >= 1 && AllDigits(r)
  {
    if n < 10 then [DigitChar(n)] else NatToString(n / 10) + [DigitChar(n % 10)]
  }

  /** Python's `str(i)` and Java's `Integer.toString(i)`: a minus sign for
      negative values, no sign otherwise, no leading zeros. */
  function IntToString(i: int): (r: string)
    ensures |r| >= 1
    ensures r[0] == '-' <==> i < 0
    ensures IsDigit(r[|r| - 1])
    ensures forall k :: 0 <= k < |r| ==> r[k] == '-' || IsDigit(r[k])
  {
    if i < 0 then "-" + NatToString(-i) else NatToString(i)
  }

  /** A decimal rendering contains no character other than '-' and digits. */
  lemma IntToStringAvoids(i: int, c: char)
    requires c != '-' && !IsDigit(c)
    ensures c !in IntToString(i)
  {
  }

  /** Value of a digit string, read most significant first. */
  function DigitsValue(s: string): nat
    requires AllDigits(s)
    decreases |s|
  {
    if |s| == 0 then 0 else 10 * DigitsValue(s[..|s| - 1]) + DigitValue(s[|s| - 1])
  }

  lemma {:induction false} DigitsValueOfNatToString(n: nat)
    ensures DigitsValue(NatToString(n)) == n
  {
    var s := NatToString(n);
    if n >= 10 {
      assert s[..|s| - 1] == NatToString(n / 10);
      DigitsValueOfNatToString(n / 10);
    }
  }

  /** An optional sign, then one or more ASCII digits; no range limit. */
  function SignedDecimal(s: string): (r: Option<int>)
  {
    var signed := |s| > 0 && (s[0] == '-' || s[0] == '+');
    var digits := if signed then s[1..] else s;
    if |digits| == 0 || !AllDigits(digits) then None
    else
      var v: int := DigitsValue(digits);
      Some(if signed && s[0] == '-' then -v else v)
  }

  /** Reading back the decimal rendering of any integer gives that integer. */
  lemma IntToStringReadsBack(i: int)
    ensures SignedDecimal(IntToString(i)) == Some(i)
  {
    UnsignedPart(i);
  }

  /** After the sign, the rendering is the digits of the magnitude. */
  lemma UnsignedPart(i: int)
    ensures var r := IntToString(i); var d := if i < 0 then r[1..] else r;
      d == NatToString(if i < 0 then -i else i) && AllDigits(d) &&
      DigitsValue(d) == (if i < 0 then -i else i)
  {
    var r := IntToString(i);
    var n: nat := if i < 0 then -i else i;
    if i < 0 {
      assert r[1..] == NatToString(n);
    }
    DigitsValueOfNatToString(n);
  }

  /** Distinct integers render as distinct strings. */
  lemma IntToStringInjective(i: int, j: int)
    requires IntToString(i) == IntToString(j)
    ensures i == j
  {
    IntToStringReadsBack(i);
    IntToStringReadsBack(j);
  }

  /** Java's `Integer.parseInt(s)`: an optional `-` or `+`, then ASCII
      digits, with a value in the 32-bit range; anything else throws
      NumberFormatException (None). */
  function JavaParseInt(s: string): (r: Option<int>)
    ensures r.Some? ==> MinInt32 <= r.value <= MaxInt32
    ensures r.Some? ==> |s| > 0 && s[0] != ' ' && s[|s| - 1] != ' '
  {
    match SignedDecimal(s)
    case None => None
    case Some(v) => if MinInt32 <= v <= MaxInt32 then Some(v) else None
  }

  /** Java parses back what Java printed, for every 32-bit value. */
  lemma JavaParseIntOfToString(i: int)
    requires MinInt32 <= i <= MaxInt32
    ensures JavaParseInt(IntToString(i)) == Some(i)
  {
    IntToStringReadsBack(i);
  }

  /** Digits grouped by single underscores, as Python's `int()` accepts:
      a digit first and last, and a digit after every underscore. */
  predicate IsPyDigits(d: string)
  {
    |d| > 0 && IsDigit(d[0]) && IsDigit(d[|d| - 1]) && DigitsOrUnderscores(d)
    && forall i :: 0 <= i < |d| - 1 && d[i] == '_' ==> d[i + 1] != '_'
  }

  predicate DigitsOrUnderscores(d: string)
  {
    forall i :: 0 <= i < |d| ==> IsDigit(d[i]) || d[i] == '_'
  }

  function DropUnderscores(d: string): (r: string)
    requires DigitsOrUnderscores(d)
    ensures AllDigits(r)
    decreases |d|
  {
    if |d| == 0 then ""
    else if d[0] == '_' then DropUnderscores(d[1..])
    else [d[0]] + DropUnderscores(d[1..])
  }

  /** Each integer in decimal. */
  function Decimals(m: seq<int>): seq<string>
  {
    seq(|m|, i requires 0 <= i < |m| => IntToString(m[i]))
  }

  /** Decimal numerals have no space in them. */
  lemma DecimalsHaveNoSpace(m: seq<int>)
    ensures forall i :: 0 <= i < |Decimals(m)| ==> ' ' !in Decimals(m)[i]
  {
    forall i | 0 <= i < |m|
      ensures ' ' !in IntToString(m[i])
    {
      IntToStringAvoids(m[i], ' ');
    }
  }

  /** Python's `int(s)` for a `str` in base 10: surrounding whitespace is
      ignored, then an optional sign and digit groups; anything else raises
      ValueError (None). */
  function PyParseInt(s: string): (r: Option<int>)
    ensures PyStrip(s) == "" ==> r == None
  {
    PyIntLiteral(PyStrip(s))
  }

  /** The integer literal `int()` accepts once whitespace is stripped. */
  function PyIntLiteral(t: string): (r: Option<int>)
    ensures t == "" ==> r == None
  {
    var signed := |t| > 0 && (t[0] == '-' || t[0] == '+');
    var d := if signed then t[1..] else t;
    if !IsPyDigits(d) then None
    else
      var v: int := DigitsValue(DropUnderscores(d));
      Some(if signed && t[0] == '-' then -v else v)
  }

  /** A token that is empty or only whitespace is not an integer. */
  lemma PyParseIntBlank(s: string)
    requires forall k :: 0 <= k < |s| ==> IsPySpace(s[k])
    ensures PyParseInt(s) == None
  {
  }

  /** Python's `int()` reads back `str(i)`, also with surrounding whitespace
      such as the newline that ends a line read from a file. */
  lemma PyParseIntOfToString(i: int, before: string, after: string)
    requires forall k :: 0 <= k < |before| ==> IsPySpace(before[k])
    requires forall k :: 0 <= k < |after| ==> IsPySpace(after[k])
    ensures PyParseInt(before + IntToString(i) + after) == Some(i)
  {
    PyStripAround(before, IntToString(i), after);
    PyParseIntOfStripped(before + IntToString(i) + after, i);
  }

  lemma PyParseIntOfStripped(s: string, i: int)
    requires PyStrip(s) == IntToString(i)
    ensures PyParseInt(s) == Some(i)
  {
    var n: nat := if i < 0 then -i else i;
    DigitsValueOfNatToString(n);
    PyIntLiteralSigned(i < 0, NatToString(n), n);
  }

  /** An optional minus sign and plain digits. */
  lemma PyIntLiteralSigned(neg: bool, d: string, n: nat)
    requires AllDigits(d) && |d| > 0 && DigitsValue(d) == n
    ensures var v: int := if neg then -(n as int) else n;
      PyIntLiteral(if neg then "-" + d else d) == Some(v)
  {
    var t := if neg then "-" + d else d;
    PlainDigits(d);
    if neg {
      assert t[0] == '-' && t[1..] == d;
    } else {
      assert IsDigit(t[0]);
    }
  }

  lemma PlainDigits(d: string)
    requires AllDigits(d) && |d| > 0
    ensures IsPyDigits(d) && DropUnderscores(d) == d
  {
    NoUnderscores(d);
  }

  /** `int` reads a decimal numeral back, with or without a newline after. */
  lemma PyParseIntReadsBack(i: int)
    ensures PyParseInt(IntToString(i)) == Some(i)
    ensures PyParseInt(IntToString(i) + "\n") == Some(i)
  {
    StripNumeral(IntToString(i));
    PyParseIntOfStripped(IntToString(i), i);
    PyParseIntOfStripped(IntToString(i) + "\n", i);
  }

  lemma StripNumeral(r: string)
    requires |r| > 0 && !IsPySpace(r[0]) && !IsPySpace(r[|r| - 1])
    ensures PyStrip(r) == r && PyStrip(r + "\n") == r
  {
    assert DropLeading(r, IsPySpace) == r;
    assert DropTrailing(r, IsPySpace) == r;
    TrimOneTrailing(r, '\n', IsPySpace);
  }

  lemma PyStripAround(before: string, r: string, after: string)
    requires forall k :: 0 <= k < |before| ==> IsPySpace(before[k])
    requires forall k :: 0 <= k < |after| ==> IsPySpace(after[k])
    requires |r| > 0 && !IsPySpace(r[0]) && !IsPySpace(r[|r| - 1])
    ensures PyStrip(before + r + after) == r
  {
    DropLeadingSpaces(before, r + after);
    assert before + r + after == before + (r + after);
    DropTrailingSpaces(r, after);
  }

  lemma {:induction false} DropLeadingSpaces(before: string, rest: string)
    requires forall k :: 0 <= k < |before| ==> IsPySpace(before[k])
    requires |rest| > 0 && !IsPySpace(rest[0])
    ensures DropLeading(before + rest, IsPySpace) == rest
    decreases |before|
  {
    if |before| > 0 {
      assert (before + rest)[1..] == before[1..] + rest;
      DropLeadingSpaces(before[1..], rest);
    }
  }

  lemma {:induction false} DropTrailingSpaces(rest: string, after: string)
    requires forall k :: 0 <= k < |after| ==> IsPySpace(after[k])
    requires |rest| > 0 && !IsPySpace(rest[|rest| - 1])
    ensures DropTrailing(rest + after, IsPySpace) == rest
    decreases |after|
  {
    if |after| > 0 {
      var s := rest + after;
      assert s[..|s| - 1] == rest + after[..|after| - 1];
      DropTrailingSpaces(rest, after[..|after| - 1]);
    } else {
      assert rest + after == rest;
    }
  }

  lemma {:induction false} NoUnderscores(d: string)
    requires AllDigits(d)
    ensures DropUnderscores(d) == d
    decreases |d|
  {
    if |d| > 0 {
      NoUnderscores(d[1..]);
    }
  }

  // ------------------------------------------------- Java String ordering

  /** `a.compareTo(b) <= 0` for Java strings: the first differing character
      decides; otherwise the shorter string comes first. */
  predicate LexLe(a: string, b: string)
    decreases |a|
  {
    |a| == 0 || (|b| > 0 && (a[0] < b[0] || (a[0] == b[0] && LexLe(a[1..], b[1..]))))
  }

  lemma {:induction false} LexLeReflexive(a: string)
    ensures LexLe(a, a)
    decreases |a|
  {
    if |a| > 0 {
      LexLeReflexive(a[1..]);
    }
  }

  lemma {:induction false} LexLeTotal(a: string, b: string)
    ensures LexLe(a, b) || LexLe(b, a)
    decreases |a|
  {
    if |a| > 0 && |b| > 0 && a[0] == b[0] {
      LexLeTotal(a[1..], b[1..]);
    }
  }

  lemma {:induction false} LexLeTransitive(a: string, b: string, c: string)
    requires LexLe(a, b) && LexLe(b, c)
    ensures LexLe(a, c)
    decreases |a|
  {
    if |a| > 0 && a[0] == b[0] && b[0] == c[0] {
      LexLeTransitive(a[1..], b[1..], c[1..]);
    }
  }

  lemma {:induction false} LexLeAntisymmetric(a: string, b: string)
    requires LexLe(a, b) && LexLe(b, a)
    ensures a == b
    decreases |a|
  {
    if |a| > 0 {
      LexLeAntisymmetric(a[1..], b[1..]);
      assert a == [a[0]] + a[1..];
      assert b == [b[0]] + b[1..];
    }
  }

  /** Character order, not numeric order: "10" sorts before "2". */
  lemma TenBeforeTwo()
    ensures LexLe(IntToString(10), IntToString(2)) && !LexLe(IntToString(2), IntToString(10))
  {
    assert IntToString(10) == "10";
    assert IntToString(2) == "2";
  }
}
