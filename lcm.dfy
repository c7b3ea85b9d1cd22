/** The pattern miner's own code around the mining algorithm: reading the
    transaction file (one line per transaction, items separated by single
    spaces) and turning the maximal itemsets back into sorted lines of
    text. */
module Lcm {
  import opened Text

  // --------------------------------------------------------------- reading

  /** The list without its trailing empty strings. */
  function DropTrailingEmpty(parts: seq<string>): (r: seq<string>)
    ensures |r| <= |parts| && r == parts[..|r|]
    ensures |r| > 0 ==> r[|r| - 1] != ""
    ensures forall i :: |r| <= i < |parts| ==> parts[i] == ""
    decreases |parts|
  {
    if |parts| > 0 && parts[|parts| - 1] == "" then DropTrailingEmpty(parts[..|parts| - 1]) else parts
  }

  /** Java's `line.split(" ")`: the line itself when it has no space;
      otherwise every segment between spaces, trailing empty ones dropped. */
  function JavaSplitSpace(line: string): seq<string>
  {
    if ' ' !in line then [line] else DropTrailingEmpty(Split(line, ' '))
  }

  /** `parse` on every text, in order; None when it fails on one. */
  function ParseEach<T>(xs: seq<string>, parse: string -> Option<T>): (r: Option<seq<T>>)
    ensures r.Some? <==> forall i :: 0 <= i < |xs| ==> parse(xs[i]).Some?
    ensures r.Some? ==> (|r.value| == |xs| &&
      forall i :: 0 <= i < |xs| ==> parse(xs[i]) == Some(r.value[i]))
    decreases |xs|
  {
    if |xs| == 0 then Some([])
    else
      var init := ParseEach(xs[..|xs| - 1], parse);
      var last := parse(xs[|xs| - 1]);
      assert forall i :: 0 <= i < |xs| - 1 ==> xs[..|xs| - 1][i] == xs[i];
      if init.None? || last.None? then None else Some(init.value + [last.value])
  }

  /** `Integer.parseInt` on every token, in order; None when one throws
      NumberFormatException. */
  function ParseTokens(tokens: seq<string>): Option<seq<int>>
  {
    ParseEach(tokens, JavaParseInt)
  }

  /** Lines 17-24: the transaction of one line. */
  function ParseLine(line: string): Option<seq<int>>
  {
    ParseTokens(JavaSplitSpace(line))
  }

  /** Lines 15-26: one transaction per line, in line order; None when a
      token of any line is not an integer. */
  function ReadTransactions(lines: seq<string>): Option<seq<seq<int>>>
  {
    ParseEach(lines, ParseLine)
  }

  /** The result is pinned down by what `parse` gives on each text. */
  lemma ParseEachAll<T>(xs: seq<string>, parse: string -> Option<T>, ys: seq<T>)
    requires |ys| == |xs| && forall i :: 0 <= i < |xs| ==> parse(xs[i]) == Some(ys[i])
    ensures ParseEach(xs, parse) == Some(ys)
  {
    var r := ParseEach(xs, parse);
    assert r.value == ys;
  }

  /** One more text: the results so far extended by its own. */
  lemma ParseEachSnoc<T>(xs: seq<string>, parse: string -> Option<T>, k: nat, ys: seq<T>, y: T)
    requires k < |xs| && ParseEach(xs[..k], parse) == Some(ys) && parse(xs[k]) == Some(y)
    ensures ParseEach(xs[..k + 1], parse) == Some(ys + [y])
  {
    assert xs[..k + 1][..k] == xs[..k];
  }

  lemma ParseEachFails<T>(xs: seq<string>, parse: string -> Option<T>, k: nat)
    requires k < |xs| && parse(xs[k]).None?
    ensures ParseEach(xs, parse) == None
  {
  }

  /** The inner loop of `readFile` (lines 19-24): the items of one line. */
  method ParseItems(lineSplited: seq<string>) returns (transaction: Option<seq<int>>)
    ensures transaction == ParseTokens(lineSplited)
  {
    var items: seq<int> := [];
    for t := 0 to |lineSplited|
      invariant |items| == t
      invariant forall i :: 0 <= i < t ==> JavaParseInt(lineSplited[i]) == Some(items[i])
    {
      var item := JavaParseInt(lineSplited[t]);
      if item.None? {
        ParseEachFails(lineSplited, JavaParseInt, t);
        return None;
      }
      items := items + [item.value];
    }
    ParseEachAll(lineSplited, JavaParseInt, items);
    transaction := Some(items);
  }

  /** Lines 17-24 for one line: split it, then parse its items. */
  method ReadLine(line: string) returns (transaction: Option<seq<int>>)
    ensures transaction == ParseLine(line)
  {
    var lineSplited := JavaSplitSpace(line);
    transaction := ParseItems(lineSplited);
  }

  /** `readFile` (lines 10-29) on the lines the reader delivers. */
  method ReadFile(lines: seq<string>) returns (transactionsSet: Option<seq<seq<int>>>)
    ensures transactionsSet == ReadTransactions(lines)
  {
    var read: seq<seq<int>> := [];
    for k := 0 to |lines|
      invariant ParseEach(lines[..k], ParseLine) == Some(read)
    {
      var transaction := ReadLine(lines[k]);
      if transaction.None? {
        ParseEachFails(lines, ParseLine, k);
        return None;
      }
      ParseEachSnoc(lines, ParseLine, k, read, transaction.value);
      read := read + [transaction.value];
    }
    assert lines[..|lines|] == lines;
    transactionsSet := Some(read);
  }

  // --------------------------------------------------------------- writing

  /** The line of an itemset: its items in decimal, separated by single
      spaces. */
  function Pattern(m: seq<int>): string
  {
    Join(Decimals(m), " ")
  }

  function Patterns(ms: seq<seq<int>>): (r: seq<string>)
    ensures |r| == |ms| && forall i :: 0 <= i < |ms| ==> r[i] == Pattern(ms[i])
  {
    seq(|ms|, i requires 0 <= i < |ms| => Pattern(ms[i]))
  }

  /** What the StringBuilder holds after `append(i).append(" ")` for each item. */
  function Builder(m: seq<int>): string
    decreases |m|
  {
    if |m| == 0 then "" else Builder(m[..|m| - 1]) + IntToString(m[|m| - 1]) + " "
  }

  lemma DecimalsSnoc(m: seq<int>)
    requires |m| > 0
    ensures Decimals(m) == Decimals(m[..|m| - 1]) + [IntToString(m[|m| - 1])]
  {
  }

  /** For a non-empty itemset the builder holds the pattern and one space. */
  lemma {:induction false} BuilderIsPatternAndSpace(m: seq<int>)
    requires |m| > 0
    ensures Builder(m) == Pattern(m) + " "
    decreases |m|
  {
    var init := m[..|m| - 1];
    var d := IntToString(m[|m| - 1]);
    assert Builder(m) == Builder(init) + d + " ";
    DecimalsSnoc(m);
    if |init| == 0 {
      assert Decimals(m) == [d];
      assert Builder(init) == "";
      assert Pattern(m) == d;
    } else {
      BuilderIsPatternAndSpace(init);
      JoinSnoc(Decimals(init), d, " ");
      assert Pattern(m) == Pattern(init) + " " + d;
    }
  }

  lemma {:induction false} JoinEnds(parts: seq<string>, sep: string)
    requires |parts| > 0 && forall i :: 0 <= i < |parts| ==> |parts[i]| > 0
    ensures var s := Join(parts, sep);
      |s| > 0 && s[0] == parts[0][0] && s[|s| - 1] == parts[|parts| - 1][|parts[|parts| - 1]| - 1]
    decreases |parts|
  {
    if |parts| > 1 {
      var init := parts[..|parts| - 1];
      JoinEnds(init, sep);
      assert init + [parts[|parts| - 1]] == parts;
      JoinSnoc(init, parts[|parts| - 1], sep);
    }
  }

  /** Line 38: trimming the builder gives the pattern; an empty itemset
      gives the empty string. */
  lemma BuilderTrim(m: seq<int>)
    ensures JavaTrim(Builder(m)) == Pattern(m)
  {
    if |m| > 0 {
      BuilderIsPatternAndSpace(m);
      var d := Decimals(m);
      JoinEnds(d, " ");
      TrimOneTrailing(Pattern(m), ' ', IsJavaTrimmed);
    }
  }

  predicate Sorted(s: seq<string>)
  {
    forall i, j :: 0 <= i < j < |s| ==> LexLe(s[i], s[j])
  }

  /** Stands in for `Collections.sort` at line 40, which uses the JDK's own
      merge sort: an insertion sort by swaps, in place, in String natural
      order. By SortedUnique every sort of the same list into this order
      gives the same result. */
  method SortInPlace(a: array<string>)
    modifies a
    ensures Sorted(a[..])
    ensures multiset(a[..]) == multiset(old(a[..]))
  {
    var i := 0;
    while i < a.Length
      invariant 0 <= i <= a.Length
      invariant forall p, q :: 0 <= p < q < i ==> LexLe(a[p], a[q])
      invariant multiset(a[..]) == multiset(old(a[..]))
    {
      InsertAt(a, i);
      i := i + 1;
    }
  }

  /** One pass of the insertion sort: `a[i]` is swapped down into the sorted
      prefix before it. */
  method InsertAt(a: array<string>, i: nat)
    requires i < a.Length
    requires forall p, q :: 0 <= p < q < i ==> LexLe(a[p], a[q])
    modifies a
    ensures forall p, q :: 0 <= p < q <= i ==> LexLe(a[p], a[q])
    ensures multiset(a[..]) == multiset(old(a[..]))
    ensures a[i + 1..] == old(a[i + 1..])
    ensures multiset(a[..i + 1]) == multiset(old(a[..i + 1]))
  {
    var j := SinkDown(a, i);
    forall p | 0 <= p < j
      ensures LexLe(a[p], a[j])
    {
      if p < j - 1 {
        LexLeTransitive(a[p], a[j - 1], a[j]);
      }
    }
    assert a[i + 1..] == old(a[i + 1..]);
    PrefixMultiset(a[..], old(a[..]), i + 1);
  }

  /** The swap loop of one insertion pass: it stops at the position `j`
      where `a[i]` came to rest, not below its left neighbour, with the
      elements after `i` untouched. */
  method SinkDown(a: array<string>, i: nat) returns (j: nat)
    requires i < a.Length
    requires forall p, q :: 0 <= p < q < i ==> LexLe(a[p], a[q])
    modifies a
    ensures j <= i && (j > 0 ==> LexLe(a[j - 1], a[j]))
    ensures forall p, q :: 0 <= p < q <= i && p != j && q != j ==> LexLe(a[p], a[q])
    ensures forall q :: j < q <= i ==> LexLe(a[j], a[q])
    ensures multiset(a[..]) == multiset(old(a[..]))
    ensures forall q :: i < q < a.Length ==> a[q] == old(a[q])
  {
    j := i;
    while j > 0 && !LexLe(a[j - 1], a[j])
      invariant 0 <= j <= i
      invariant forall p, q :: 0 <= p < q <= i && p != j && q != j ==> LexLe(a[p], a[q])
      invariant forall q :: j < q <= i ==> LexLe(a[j], a[q])
      invariant multiset(a[..]) == multiset(old(a[..]))
      invariant forall q :: i < q < a.Length ==> a[q] == old(a[q])
    {
      LexLeTotal(a[j - 1], a[j]);
      SwapAdjacent(a, j);
      j := j - 1;
    }
  }

  /** `a[j - 1]` and `a[j]` trade places; nothing else moves. */
  method SwapAdjacent(a: array<string>, j: nat)
    requires 0 < j < a.Length
    modifies a
    ensures a[j - 1] == old(a[j]) && a[j] == old(a[j - 1])
    ensures forall q :: 0 <= q < a.Length && q != j - 1 && q != j ==> a[q] == old(a[q])
    ensures multiset(a[..]) == multiset(old(a[..]))
  {
    a[j - 1], a[j] := a[j], a[j - 1];
  }

  /** Two lists with the same elements and the same suffix have the same
      elements before it. */
  lemma PrefixMultiset(x: seq<string>, y: seq<string>, n: nat)
    requires n <= |x| == |y| && multiset(x) == multiset(y) && x[n..] == y[n..]
    ensures multiset(x[..n]) == multiset(y[..n])
  {
    assert x == x[..n] + x[n..];
    assert y == y[..n] + y[n..];
    assert multiset(x[..n]) == multiset(x) - multiset(x[n..]);
    assert multiset(y[..n]) == multiset(y) - multiset(y[n..]);
  }

  /** Lines 34-38: the StringBuilder loop over one itemset, then `trim()`. */
  method PatternString(m: seq<int>) returns (s: string)
    ensures s == Pattern(m)
  {
    var pattern := "";
    for t := 0 to |m|
      invariant pattern == Builder(m[..t])
    {
      assert m[..t + 1][..t] == m[..t];
      pattern := pattern + IntToString(m[t]) + " ";
    }
    assert m[..|m|] == m;
    BuilderTrim(m);
    s := JavaTrim(pattern);
  }

  /** `getSortedPatternsAsStrings` (lines 31-43): one line per itemset,
      duplicates kept, sorted. */
  method GetSortedPatternsAsStrings(maximals: seq<seq<int>>) returns (lcmStrings: seq<string>)
    ensures |lcmStrings| == |maximals|
    ensures multiset(lcmStrings) == multiset(Patterns(maximals))
    ensures Sorted(lcmStrings)
  {
    var strings := PatternStrings(maximals);
    var a := new string[|strings|](i requires 0 <= i < |strings| => strings[i]);
    assert a[..] == strings;
    SortInPlace(a);
    lcmStrings := a[..];
    assert |lcmStrings| == a.Length;
  }

  /** Lines 33-39: one line per itemset, in itemset order. */
  method PatternStrings(maximals: seq<seq<int>>) returns (strings: seq<string>)
    ensures strings == Patterns(maximals)
  {
    strings := [];
    for k := 0 to |maximals|
      invariant strings == Patterns(maximals[..k])
    {
      var pattern := PatternString(maximals[k]);
      PatternsSnoc(maximals, k);
      strings := strings + [pattern];
    }
    assert maximals[..|maximals|] == maximals;
  }

  lemma PatternsSnoc(ms: seq<seq<int>>, k: nat)
    requires k < |ms|
    ensures Patterns(ms[..k + 1]) == Patterns(ms[..k]) + [Pattern(ms[k])]
  {
    var l := Patterns(ms[..k + 1]);
    var r := Patterns(ms[..k]) + [Pattern(ms[k])];
    assert |l| == |r|;
    forall i | 0 <= i < |l|
      ensures l[i] == r[i]
    {
      if i < k {
        assert ms[..k + 1][i] == ms[..k][i];
      }
    }
  }

  /** The first element of a sorted list precedes every element. */
  lemma SortedFirstLeast(a: seq<string>, x: string)
    requires Sorted(a) && x in a
    ensures LexLe(a[0], x)
  {
    var k :| 0 <= k < |a| && a[k] == x;
    if k == 0 {
      LexLeReflexive(x);
    }
  }

  lemma SortedTail(a: seq<string>)
    requires Sorted(a) && |a| > 0
    ensures Sorted(a[1..])
    ensures multiset(a[1..]) == multiset(a) - multiset{a[0]}
  {
    assert a == [a[0]] + a[1..];
  }

  /** The sorted arrangement of a list of strings is unique. */
  lemma {:induction false} SortedUnique(a: seq<string>, b: seq<string>)
    requires Sorted(a) && Sorted(b) && multiset(a) == multiset(b)
    ensures a == b
    decreases |a|
  {
    if |a| == 0 {
      assert |b| == |multiset(b)| == 0;
    } else {
      assert a[0] in multiset(b);
      assert b[0] in multiset(a);
      SortedFirstLeast(b, a[0]);
      SortedFirstLeast(a, b[0]);
      LexLeAntisymmetric(a[0], b[0]);
      SortedTail(a);
      SortedTail(b);
      SortedUnique(a[1..], b[1..]);
      assert a == [a[0]] + a[1..];
      assert b == [b[0]] + b[1..];
    }
  }

  /** "10" precedes "2": the order is that of the characters, not of the
      numbers. */
  lemma TextualOrder(r: seq<string>)
    requires Sorted(r) && multiset(r) == multiset(Patterns([[2], [10]]))
    ensures r == ["10", "2"]
  {
    assert Decimals([2]) == ["2"];
    assert IntToString(10) == "10";
    assert Decimals([10]) == ["10"];
    assert Patterns([[2], [10]]) == ["2", "10"];
    TenBeforeTwo();
    assert multiset(["10", "2"]) == multiset(["2", "10"]);
    SortedUnique(r, ["10", "2"]);
  }

  // ------------------------------------------------------------ round trip

  predicate InInt32(m: seq<int>)
  {
    forall i :: 0 <= i < |m| ==> MinInt32 <= m[i] <= MaxInt32
  }

  lemma ParseDecimals(m: seq<int>)
    requires InInt32(m)
    ensures ParseTokens(Decimals(m)) == Some(m)
  {
    forall i | 0 <= i < |m|
      ensures JavaParseInt(Decimals(m)[i]) == Some(m[i])
    {
      JavaParseIntOfToString(m[i]);
    }
    var r := ParseTokens(Decimals(m));
    assert r.value == m;
  }

  /** The tokens of a pattern line are the decimals of its items. */
  lemma SplitPattern(m: seq<int>)
    requires |m| > 0
    ensures JavaSplitSpace(Pattern(m)) == Decimals(m)
  {
    var d := Decimals(m);
    DecimalsHaveNoSpace(m);
    SplitJoin(d, ' ');
    if ' ' !in Pattern(m) {
      SplitNoSeparator(Pattern(m), ' ');
    }
  }

  /** Reading the line of a non-empty itemset of 32-bit values gives back the
      itemset. */
  lemma PatternReadsBack(m: seq<int>)
    requires |m| > 0 && InInt32(m)
    ensures ParseLine(Pattern(m)) == Some(m)
  {
    SplitPattern(m);
    ParseDecimals(m);
  }

  /** The empty itemset's line is empty, and reading an empty line throws. */
  lemma EmptyPatternUnreadable()
    ensures Pattern([]) == "" && ParseLine("") == None
  {
    assert Decimals([]) == [];
  }

  /** A whole file of pattern lines reads back as its itemsets, when none is
      empty. */
  lemma {:induction false} PatternsReadBack(ms: seq<seq<int>>)
    requires forall i :: 0 <= i < |ms| ==> |ms[i]| > 0 && InInt32(ms[i])
    ensures ReadTransactions(Patterns(ms)) == Some(ms)
  {
    forall i | 0 <= i < |ms|
      ensures ParseLine(Patterns(ms)[i]) == Some(ms[i])
    {
      PatternReadsBack(ms[i]);
    }
    var r := ReadTransactions(Patterns(ms));
    assert r.value == ms;
  }

  /** A trailing space is harmless: the empty token after it is dropped. */
  lemma TrailingSpaceTolerated(m: seq<int>)
    requires |m| > 0 && InInt32(m)
    ensures ParseLine(Pattern(m) + " ") == Some(m)
  {
    var d := Decimals(m);
    var line := Pattern(m) + " ";
    DecimalsHaveNoSpace(m);
    JoinSnoc(d, "", " ");
    assert line == Join(d + [""], " ");
    assert forall i :: 0 <= i < |d + [""]| ==> ' ' !in (d + [""])[i];
    SplitJoin(d + [""], ' ');
    assert line[|line| - 1] == ' ';
    assert JavaSplitSpace(line) == DropTrailingEmpty(d + [""]);
    assert (d + [""])[..|d|] == d;
    KeepsNonEmptyLast(d, IntToString(m[|m| - 1]));
    ParseDecimals(m);
  }

  /** With one empty string after them, `split` keeps lines that end in a
      non-empty one. */
  lemma KeepsNonEmptyLast(d: seq<string>, last: string)
    requires |d| > 0 && d[|d| - 1] == last && last != ""
    ensures DropTrailingEmpty(d + [""]) == d
  {
    assert (d + [""])[..|d|] == d;
  }

  /** A line joined from space-free tokens, the last one not empty, splits
      back into those tokens. */
  lemma SplitSpaceOfJoin(parts: seq<string>)
    requires |parts| >= 2 && parts[|parts| - 1] != ""
    requires forall i :: 0 <= i < |parts| ==> ' ' !in parts[i]
    ensures JavaSplitSpace(Join(parts, " ")) == parts
  {
    var line := Join(parts, " ");
    assert line == parts[0] + " " + Join(parts[1..], " ");
    assert line[|parts[0]|] == ' ';
    SplitJoin(parts, ' ');
  }

  /** An empty token anywhere (a leading space, a doubled space) makes the
      line unreadable. */
  lemma EmptyTokenRejected(parts: seq<string>, k: nat)
    requires |parts| >= 2 && parts[|parts| - 1] != ""
    requires forall i :: 0 <= i < |parts| ==> ' ' !in parts[i]
    requires k < |parts| && parts[k] == ""
    ensures ParseLine(Join(parts, " ")) == None
  {
    SplitSpaceOfJoin(parts);
    assert JavaParseInt(parts[k]).None?;
  }

  /** Concrete lines: a trailing space is harmless, an empty line, a leading
      space and a doubled space throw, and a line of spaces is an empty
      transaction. */
  lemma SplitQuirks()
    ensures ParseLine("") == None
    ensures ParseLine(" ") == Some([])
    ensures ParseLine(" 1") == None
    ensures ParseLine("1  2") == None
  {
    assert Split(" ", ' ') == ["", ""];
    assert Join(["", "1"], " ") == " 1";
    EmptyTokenRejected(["", "1"], 0);
    assert Join(["1", "", "2"], " ") == "1  2";
    EmptyTokenRejected(["1", "", "2"], 1);
  }
}
