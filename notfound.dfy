/** The script that collects the points of flocks one checker found and the
    other did not: it maps point ids to coordinates from a tab-separated
    point file, then reads flock lines of space-separated point ids and
    writes one `pid x y 0` line per distinct id, to a file whose name holds
    the run's parameters. Any error ends the script. */
module NotFound {
  import opened Text

  /** The Python exceptions the script can end with. */
  datatype Error = ValueError | IndexError | KeyError

  datatype Result<T> = Ok(value: T) | Err(error: Error)

  /** The two coordinates of a point, as the text `str(float)` prints. */
  type Coordinate = (string, string)

  /** `float(s)` as the text it prints, or None where it raises ValueError;
      floating point itself is not modelled. */
  type FloatText = string -> Option<string>

  // ------------------------------------------------------------ file lines

  function Concat(lines: seq<string>): string
    decreases |lines|
  {
    if |lines| == 0 then "" else lines[0] + Concat(lines[1..])
  }

  /** Iterating over a file opened for reading: each line keeps its '\n';
      the last one may lack it. */
  function FileLines(content: string): (r: seq<string>)
    ensures Concat(r) == content
    decreases |content|
  {
    if |content| == 0 then []
    else
      var k := FirstIndex(content, '\n');
      if k == |content| then [content]
      else
        var rest := FileLines(content[k + 1..]);
        assert ([content[..k + 1]] + rest)[1..] == rest;
        assert content[..k + 1] + content[k + 1..] == content;
        [content[..k + 1]] + rest
  }

  /** A line as file iteration yields it: not empty, a newline only at its
      end, and one there unless it is the last line. */
  predicate IsFileLine(line: string, last: bool)
  {
    line != "" && '\n' !in line[..|line| - 1] && (!last ==> line[|line| - 1] == '\n')
  }

  /** Every line has that shape; in particular none is empty, so the
      `flock == ""` test of line 33 never holds. */
  lemma {:induction false} FileLinesShape(content: string)
    ensures forall i :: 0 <= i < |FileLines(content)| ==>
      IsFileLine(FileLines(content)[i], i == |FileLines(content)| - 1)
    decreases |content|
  {
    if |content| > 0 {
      var k := FirstIndex(content, '\n');
      if k == |content| {
        assert FileLines(content) == [content];
        assert content[..|content| - 1] == content[..k][..|content| - 1];
      } else {
        var line := content[..k + 1];
        var rest := FileLines(content[k + 1..]);
        FileLinesShape(content[k + 1..]);
        assert forall j :: 0 <= j < |rest| ==> IsFileLine(rest[j], j == |rest| - 1);
        var r := FileLines(content);
        assert r == [line] + rest;
        assert line[..|line| - 1] == content[..k];
        assert IsFileLine(line, 0 == |r| - 1);
        forall i | 0 < i < |r|
          ensures IsFileLine(r[i], i == |r| - 1)
        {
          assert r[i] == rest[i - 1];
          assert (i == |r| - 1) == (i - 1 == |rest| - 1);
        }
      }
    }
  }

  // ------------------------------------------------------------- point file

  /** Lines 24-28 for one line: `int(p[0])`, then `float(p[1])` and
      `float(p[2])`, each failing in turn. */
  function ParsePoint(line: string, toFloat: FloatText): Result<(int, Coordinate)>
  {
    var p := Split(line, '\t');
    var pid := PyParseInt(p[0]);
    if pid.None? then Err(ValueError)
    else if |p| < 2 then Err(IndexError)
    else
      var x := toFloat(p[1]);
      if x.None? then Err(ValueError)
      else if |p| < 3 then Err(IndexError)
      else
        var y := toFloat(p[2]);
        if y.None? then Err(ValueError) else Ok((pid.value, (x.value, y.value)))
  }

  /** What lines 24-27 make of one line. */
  type PointParser = string -> Result<(int, Coordinate)>

  function PointLine(toFloat: FloatText): PointParser
  {
    line => ParsePoint(line, toFloat)
  }

  /** Lines 22-28: the dictionary after the lines, in order, where `parse`
      reads one line. */
  function BuildPoints(lines: seq<string>, parse: PointParser): Result<map<int, Coordinate>>
    decreases |lines|
  {
    if |lines| == 0 then Ok(map[])
    else
      var init := BuildPoints(lines[..|lines| - 1], parse);
      var last := parse(lines[|lines| - 1]);
      if init.Err? then init
      else if last.Err? then Err(last.error)
      else Ok(init.value[last.value.0 := last.value.1])
  }

  /** The file loads exactly when every line parses. */
  lemma {:induction false} BuildPointsOk(lines: seq<string>, parse: PointParser)
    ensures BuildPoints(lines, parse).Ok? <==> forall i :: 0 <= i < |lines| ==> parse(lines[i]).Ok?
    decreases |lines|
  {
    if |lines| > 0 {
      var init := lines[..|lines| - 1];
      assert forall i :: 0 <= i < |init| ==> init[i] == lines[i];
      BuildPointsOk(init, parse);
    }
  }

  lemma {:induction false} BuildPointsSticky(lines: seq<string>, parse: PointParser, k: nat)
    requires k <= |lines| && BuildPoints(lines[..k], parse).Err?
    ensures BuildPoints(lines, parse) == BuildPoints(lines[..k], parse)
    decreases |lines| - k
  {
    if k < |lines| {
      assert lines[..|lines| - 1][..k] == lines[..k];
      BuildPointsSticky(lines[..|lines| - 1], parse, k);
    } else {
      assert lines[..k] == lines;
    }
  }

  /** The ids of the lines that parse. */
  function PointIds(lines: seq<string>, parse: PointParser): set<int>
    decreases |lines|
  {
    if |lines| == 0 then {}
    else
      var last := parse(lines[|lines| - 1]);
      PointIds(lines[..|lines| - 1], parse) + if last.Ok? then {last.value.0} else {}
  }

  /** The dictionary's keys are the ids of the file's lines. */
  lemma {:induction false} PointKeys(lines: seq<string>, parse: PointParser)
    requires BuildPoints(lines, parse).Ok?
    ensures BuildPoints(lines, parse).value.Keys == PointIds(lines, parse)
    decreases |lines|
  {
    if |lines| > 0 {
      PointKeys(lines[..|lines| - 1], parse);
    }
  }

  /** An id maps to the coordinates of the last line with that id. */
  lemma {:induction false} LastPointWins(lines: seq<string>, parse: PointParser, i: nat, pid: int, c: Coordinate)
    requires BuildPoints(lines, parse).Ok? && i < |lines|
    requires parse(lines[i]) == Ok((pid, c))
    requires forall j :: i < j < |lines| && parse(lines[j]).Ok? ==>
      parse(lines[j]).value.0 != pid
    ensures pid in BuildPoints(lines, parse).value && BuildPoints(lines, parse).value[pid] == c
    decreases |lines|
  {
    if i < |lines| - 1 {
      var init := lines[..|lines| - 1];
      assert forall j :: 0 <= j < |init| ==> init[j] == lines[j];
      LastPointWins(init, parse, i, pid, c);
    }
  }

  /** A line written as id, tab, x, tab, y and newline reads back as that
      id and the two floats; a line without a tab raises IndexError. */
  lemma PointLineReadsBack(pid: int, x: string, y: string, toFloat: FloatText)
    requires '\t' !in x && '\t' !in y + "\n"
    requires toFloat(x).Some? && toFloat(y + "\n").Some?
    ensures ParsePoint(IntToString(pid) + "\t" + x + "\t" + y + "\n", toFloat) ==
      Ok((pid, (toFloat(x).value, toFloat(y + "\n").value)))
    ensures ParsePoint(IntToString(pid) + "\n", toFloat) == Err(IndexError)
  {
    var d := IntToString(pid);
    IntToStringAvoids(pid, '\t');
    var parts := [d, x, y + "\n"];
    assert parts[1..][1..] == [y + "\n"];
    assert Join(parts[1..], "\t") == x + "\t" + (y + "\n");
    assert Join(parts, "\t") == d + "\t" + (x + "\t" + (y + "\n"));
    assert d + "\t" + (x + "\t" + (y + "\n")) == d + "\t" + x + "\t" + y + "\n";
    SplitJoin(parts, '\t');
    PyParseIntReadsBack(pid);
    SplitNoSeparator(d + "\n", '\t');
  }

  /** A line that fails ends the loading with its error. */
  lemma PointLineFails(lines: seq<string>, parse: PointParser, i: nat, e: Error)
    requires i < |lines| && BuildPoints(lines[..i], parse).Ok?
    requires parse(lines[i]) == Err(e)
    ensures BuildPoints(lines, parse) == Err(e)
  {
    assert lines[..i + 1][..i] == lines[..i];
    BuildPointsSticky(lines, parse, i + 1);
  }

  lemma PointLineLoads(lines: seq<string>, parse: PointParser, i: nat,
                       points: map<int, Coordinate>, pc: (int, Coordinate))
    requires i < |lines| && BuildPoints(lines[..i], parse) == Ok(points)
    requires parse(lines[i]) == Ok(pc)
    ensures BuildPoints(lines[..i + 1], parse) == Ok(points[pc.0 := pc.1])
  {
    assert lines[..i + 1][..i] == lines[..i];
  }

  /** Lines 24-27 for one line. */
  method ReadPoint(point: string, toFloat: FloatText) returns (r: Result<(int, Coordinate)>)
    ensures r == ParsePoint(point, toFloat)
  {
    var p := Split(point, '\t');
    var pid := PyParseInt(p[0]);
    if pid.None? {
      return Err(ValueError);
    }
    if |p| < 2 {
      return Err(IndexError);
    }
    var x := toFloat(p[1]);
    if x.None? {
      return Err(ValueError);
    }
    if |p| < 3 {
      return Err(IndexError);
    }
    var y := toFloat(p[2]);
    if y.None? {
      return Err(ValueError);
    }
    r := Ok((pid.value, (x.value, y.value)));
  }

  /** The loop of lines 22-28 on the text of the point file. */
  method LoadPoints(content: string, toFloat: FloatText) returns (r: Result<map<int, Coordinate>>)
    ensures r == BuildPoints(FileLines(content), PointLine(toFloat))
  {
    var lines := FileLines(content);
    ghost var parse := PointLine(toFloat);
    var points: map<int, Coordinate> := map[];
    for i := 0 to |lines|
      invariant BuildPoints(lines[..i], parse) == Ok(points)
    {
      var point := ReadPoint(lines[i], toFloat);
      if point.Err? {
        PointLineFails(lines, parse, i, point.error);
        return Err(point.error);
      }
      PointLineLoads(lines, parse, i, points, point.value);
      points := points[point.value.0 := point.value.1];
    }
    assert lines[..|lines|] == lines;
    r := Ok(points);
  }

  // ------------------------------------------------------------ flock file

  /** Line 35: `list(map(int, flock.split(" ")))`. */
  function ParseFlock(line: string): Result<seq<int>>
  {
    ParseInts(Split(line, ' '), PyParseInt)
  }

  /** `list(map(parse, tokens))`, in order; ValueError when one fails. */
  function ParseInts(tokens: seq<string>, parse: string -> Option<int>): (r: Result<seq<int>>)
    ensures r.Ok? <==> forall i :: 0 <= i < |tokens| ==> parse(tokens[i]).Some?
    ensures r.Ok? ==> (|r.value| == |tokens| &&
      forall i :: 0 <= i < |tokens| ==> parse(tokens[i]) == Some(r.value[i]))
    ensures r.Err? ==> r.error == ValueError
    decreases |tokens|
  {
    if |tokens| == 0 then Ok([])
    else
      var init := ParseInts(tokens[..|tokens| - 1], parse);
      var last := parse(tokens[|tokens| - 1]);
      assert forall i :: 0 <= i < |tokens| - 1 ==> tokens[..|tokens| - 1][i] == tokens[i];
      if init.Err? || last.None? then Err(ValueError) else Ok(init.value + [last.value])
  }

  /** Line 40: id, coordinates and a zero, separated by tabs. */
  function Record(pid: int, c: Coordinate): string
  {
    IntToString(pid) + "\t" + c.0 + "\t" + c.1 + "\t0\n"
  }

  /** Records of different ids differ. */
  lemma RecordInjective(p: int, c: Coordinate, q: int, d: Coordinate)
    ensures Record(p, c) == Record(q, d) ==> p == q
  {
    IntToStringAvoids(p, '\t');
    IntToStringAvoids(q, '\t');
    if Record(p, c) == Record(q, d) {
      var b := c.0 + "\t" + c.1 + "\t0\n";
      var b' := d.0 + "\t" + d.1 + "\t0\n";
      assert Record(p, c) == IntToString(p) + "\t" + b;
      assert Record(q, d) == IntToString(q) + "\t" + b';
      SeparatorCut(IntToString(p), b, IntToString(q), b', '\t');
      IntToStringInjective(p, q);
    }
  }

  /** Lines 36-40 for the ids of one flock: a missing id raises KeyError. */
  function AddPids(s: set<string>, f: seq<int>, points: map<int, Coordinate>): (r: Result<set<string>>)
    ensures r.Ok? <==> forall i :: 0 <= i < |f| ==> f[i] in points
    ensures r.Err? ==> r.error == KeyError
    decreases |f|
  {
    if |f| == 0 then Ok(s)
    else
      var init := AddPids(s, f[..|f| - 1], points);
      var pid := f[|f| - 1];
      assert forall i :: 0 <= i < |f| - 1 ==> f[..|f| - 1][i] == f[i];
      if init.Err? then init
      else if pid !in points then Err(KeyError)
      else Ok(init.value + {Record(pid, points[pid])})
  }

  lemma {:induction false} AddPidsSticky(s: set<string>, f: seq<int>, points: map<int, Coordinate>, k: nat)
    requires k <= |f| && AddPids(s, f[..k], points).Err?
    ensures AddPids(s, f, points) == AddPids(s, f[..k], points)
    decreases |f| - k
  {
    if k < |f| {
      assert f[..|f| - 1][..k] == f[..k];
      AddPidsSticky(s, f[..|f| - 1], points, k);
    } else {
      assert f[..k] == f;
    }
  }

  /** The inner loop of lines 36-40. */
  method AddFlock(notfounds: set<string>, f: seq<int>, points: map<int, Coordinate>) returns (r: Result<set<string>>)
    ensures r == AddPids(notfounds, f, points)
  {
    var added := notfounds;
    for j := 0 to |f|
      invariant AddPids(notfounds, f[..j], points) == Ok(added)
    {
      assert f[..j + 1][..j] == f[..j];
      var pid := f[j];
      if pid !in points {
        AddPidsSticky(notfounds, f, points, j + 1);
        return Err(KeyError);
      }
      var coordinate := points[pid];
      added := added + {IntToString(pid) + "\t" + coordinate.0 + "\t" + coordinate.1 + "\t0\n"};
    }
    assert f[..|f|] == f;
    r := Ok(added);
  }

  /** Lines 33-40 for one flock line. */
  function FlockStep(s: set<string>, line: string, points: map<int, Coordinate>): Result<set<string>>
  {
    if line == "" then Ok(s)
    else
      var f := ParseFlock(line);
      if f.Err? then Err(f.error) else AddPids(s, f.value, points)
  }

  /** Lines 30-40: the set after the flock lines, in order. */
  function NotFounds(lines: seq<string>, points: map<int, Coordinate>): Result<set<string>>
    decreases |lines|
  {
    if |lines| == 0 then Ok({})
    else
      var init := NotFounds(lines[..|lines| - 1], points);
      if init.Err? then init else FlockStep(init.value, lines[|lines| - 1], points)
  }

  lemma {:induction false} NotFoundsSticky(lines: seq<string>, points: map<int, Coordinate>, k: nat)
    requires k <= |lines| && NotFounds(lines[..k], points).Err?
    ensures NotFounds(lines, points) == NotFounds(lines[..k], points)
    decreases |lines| - k
  {
    if k < |lines| {
      assert lines[..|lines| - 1][..k] == lines[..k];
      NotFoundsSticky(lines[..|lines| - 1], points, k);
    } else {
      assert lines[..k] == lines;
    }
  }

  lemma NotFoundsSnoc(lines: seq<string>, points: map<int, Coordinate>, k: nat)
    requires k < |lines| && NotFounds(lines[..k], points).Ok?
    ensures NotFounds(lines[..k + 1], points) == FlockStep(NotFounds(lines[..k], points).value, lines[k], points)
  {
    assert lines[..k + 1][..k] == lines[..k];
  }

  /** Lines 33-40 for one flock line. */
  method AddFlockLine(notfounds: set<string>, flock: string, points: map<int, Coordinate>)
    returns (r: Result<set<string>>)
    ensures r == FlockStep(notfounds, flock, points)
  {
    if flock == "" {
      return Ok(notfounds);
    }
    var f := ParseFlock(flock);
    if f.Err? {
      return Err(ValueError);
    }
    r := AddFlock(notfounds, f.value, points);
  }

  /** The loop of lines 30-40 on the text of the flock file. */
  method CollectNotFounds(content: string, points: map<int, Coordinate>) returns (r: Result<set<string>>)
    ensures r == NotFounds(FileLines(content), points)
  {
    var lines := FileLines(content);
    var notfounds: set<string> := {};
    for k := 0 to |lines|
      invariant NotFounds(lines[..k], points) == Ok(notfounds)
    {
      var step := AddFlockLine(notfounds, lines[k], points);
      NotFoundsSnoc(lines, points, k);
      if step.Err? {
        NotFoundsSticky(lines, points, k + 1);
        return step;
      }
      notfounds := step.value;
    }
    assert lines[..|lines|] == lines;
    r := Ok(notfounds);
  }

  /** A flock line the loop gets through: blank, or ids all in the map. */
  predicate FlockLineOk(line: string, points: map<int, Coordinate>)
  {
    line == "" || (ParseFlock(line).Ok? && forall pid :: pid in ParseFlock(line).value ==> pid in points)
  }

  lemma FlockStepOk(s: set<string>, line: string, points: map<int, Coordinate>)
    ensures FlockStep(s, line, points).Ok? <==> FlockLineOk(line, points)
  {
    if line != "" && ParseFlock(line).Ok? {
      var f := ParseFlock(line).value;
      assert (forall i :: 0 <= i < |f| ==> f[i] in points) <==> (forall pid :: pid in f ==> pid in points);
    }
  }

  /** The flocks are saved exactly when every line parses and names only
      ids of the point file. */
  lemma {:induction false} NotFoundsOk(lines: seq<string>, points: map<int, Coordinate>)
    ensures NotFounds(lines, points).Ok? <==> forall i :: 0 <= i < |lines| ==> FlockLineOk(lines[i], points)
    decreases |lines|
  {
    if |lines| > 0 {
      var init := lines[..|lines| - 1];
      NotFoundsOk(init, points);
      AllSnoc(lines, init, l => FlockLineOk(l, points));
      var r := NotFounds(init, points);
      if r.Ok? {
        FlockStepOk(r.value, lines[|lines| - 1], points);
      }
    }
  }

  /** An id of a flock line absent from the point file raises KeyError,
      unless an earlier line already failed. */
  lemma MissingIdRaises(lines: seq<string>, points: map<int, Coordinate>, k: nat, j: nat)
    requires k < |lines| && lines[k] != "" && ParseFlock(lines[k]).Ok?
    requires j < |ParseFlock(lines[k]).value| && ParseFlock(lines[k]).value[j] !in points
    requires NotFounds(lines[..k], points).Ok?
    ensures NotFounds(lines, points) == Err(KeyError)
  {
    assert lines[..k + 1][..k] == lines[..k];
    NotFoundsSticky(lines, points, k + 1);
  }

  /** The records of a set of ids. */
  function Image(ids: set<int>, points: map<int, Coordinate>): set<string>
  {
    set pid | pid in ids && pid in points :: Record(pid, points[pid])
  }

  /** The ids of a flock line, when it parses. */
  function LineIds(line: string): set<int>
  {
    var f := ParseFlock(line);
    if line != "" && f.Ok? then set pid | pid in f.value else {}
  }

  /** The ids of the flock lines that parse. */
  function FlockIds(lines: seq<string>): set<int>
    decreases |lines|
  {
    if |lines| == 0 then {} else FlockIds(lines[..|lines| - 1]) + LineIds(lines[|lines| - 1])
  }

  lemma {:induction false} AddPidsImage(s: set<string>, f: seq<int>, points: map<int, Coordinate>)
    requires AddPids(s, f, points).Ok?
    ensures AddPids(s, f, points).value == s + Image((set pid | pid in f), points)
    decreases |f|
  {
    if |f| > 0 {
      var init := f[..|f| - 1];
      var last := f[|f| - 1];
      AddPidsImage(s, init, points);
      ElementsSnoc(f, init);
      ImageUnion((set pid | pid in init), {last}, points);
      ImageOne(last, points);
    } else {
      assert (set pid | pid in f) == {};
      assert Image({}, points) == {};
    }
  }

  lemma ElementsSnoc(f: seq<int>, init: seq<int>)
    requires |f| > 0 && init == f[..|f| - 1]
    ensures (set pid | pid in f) == (set pid | pid in init) + {f[|f| - 1]}
  {
    assert f == init + [f[|f| - 1]];
  }

  lemma ImageOne(pid: int, points: map<int, Coordinate>)
    requires pid in points
    ensures Image({pid}, points) == {Record(pid, points[pid])}
  {
  }

  lemma FlockStepImage(s: set<string>, line: string, points: map<int, Coordinate>)
    requires FlockStep(s, line, points).Ok?
    ensures LineIds(line) <= points.Keys
    ensures FlockStep(s, line, points).value == s + Image(LineIds(line), points)
  {
    if line != "" {
      var f := ParseFlock(line).value;
      AddPidsImage(s, f, points);
      assert forall pid :: pid in f ==> pid in points;
    } else {
      assert Image({}, points) == {};
    }
  }

  /** The output set holds exactly the records of the ids appearing in the
      flock lines, every one of them in the point map. */
  lemma {:induction false} NotFoundsImage(lines: seq<string>, points: map<int, Coordinate>)
    requires NotFounds(lines, points).Ok?
    ensures FlockIds(lines) <= points.Keys
    ensures NotFounds(lines, points).value == Image(FlockIds(lines), points)
    decreases |lines|
  {
    if |lines| > 0 {
      var init := lines[..|lines| - 1];
      NotFoundsImage(init, points);
      var s := NotFounds(init, points).value;
      var line := lines[|lines| - 1];
      FlockStepImage(s, line, points);
      ImageUnion(FlockIds(init), LineIds(line), points);
    } else {
      assert Image({}, points) == {};
    }
  }

  lemma ImageUnion(a: set<int>, b: set<int>, points: map<int, Coordinate>)
    ensures Image(a + b, points) == Image(a, points) + Image(b, points)
  {
  }

  /** One record per distinct id. */
  lemma {:induction false} ImageSize(ids: set<int>, points: map<int, Coordinate>)
    requires ids <= points.Keys
    ensures |Image(ids, points)| == |ids|
    decreases |ids|
  {
    if x :| x in ids {
      var rest := ids - {x};
      ImageSize(rest, points);
      var r := Record(x, points[x]);
      forall y | y in rest
        ensures Record(y, points[y]) != r
      {
        RecordInjective(y, points[y], x, points[x]);
      }
      assert r !in Image(rest, points);
      assert ids == rest + {x};
      ImageUnion(rest, {x}, points);
      ImageOne(x, points);
    } else {
      assert ids == {};
      assert Image(ids, points) == {};
    }
  }

  /** A line (newline removed) with an empty token, from a doubled, leading
      or trailing space, is not a flock: ValueError. */
  lemma EmptyTokenRaises(parts: seq<string>, k: nat)
    requires |parts| >= 1 && forall i :: 0 <= i < |parts| ==> ' ' !in parts[i]
    requires k < |parts| && parts[k] == ""
    ensures ParseFlock(Join(parts, " ")) == Err(ValueError)
  {
    SplitJoin(parts, ' ');
    PyParseIntBlank(parts[k]);
  }

  /** A blank line, and a doubled space, raise ValueError. */
  lemma FlockQuirks()
    ensures ParseFlock("\n") == Err(ValueError)
    ensures ParseFlock("1  2\n") == Err(ValueError)
  {
    SplitNoSeparator("\n", ' ');
    PyParseIntBlank("\n");
    assert Join(["1", "", "2\n"], " ") == "1  2\n";
    EmptyTokenRaises(["1", "", "2\n"], 1);
  }

  /** Appending text to a join appends it to the last part. */
  lemma {:induction false} JoinLastExtended(parts: seq<string>, t: string, sep: string)
    requires |parts| > 0
    ensures Join(parts, sep) + t == Join(parts[..|parts| - 1] + [parts[|parts| - 1] + t], sep)
    decreases |parts|
  {
    var n := |parts|;
    var q := parts[..n - 1] + [parts[n - 1] + t];
    if n > 1 {
      JoinLastExtended(parts[1..], t, sep);
      assert q[1..] == parts[1..][..n - 2] + [parts[1..][n - 2] + t];
      assert q[0] == parts[0];
    }
  }

  /** The tokens of a line whose ids are written in decimal, separated by
      single spaces, and followed by a newline: the last keeps the newline. */
  function FlockTokens(f: seq<int>): seq<string>
    requires |f| > 0
  {
    Decimals(f[..|f| - 1]) + [IntToString(f[|f| - 1]) + "\n"]
  }

  lemma FlockLineTokens(f: seq<int>)
    requires |f| > 0
    ensures Split(Join(Decimals(f), " ") + "\n", ' ') == FlockTokens(f)
  {
    var d := Decimals(f);
    DecimalsHaveNoSpace(f);
    var parts := d[..|f| - 1] + [d[|f| - 1] + "\n"];
    assert parts == FlockTokens(f);
    assert forall i :: 0 <= i < |parts| ==> ' ' !in parts[i];
    JoinLastExtended(d, "\n", " ");
    SplitJoin(parts, ' ');
  }

  lemma FlockTokensParse(f: seq<int>)
    requires |f| > 0
    ensures forall i :: 0 <= i < |f| ==> PyParseInt(FlockTokens(f)[i]) == Some(f[i])
  {
    var n := |f|;
    var parts := FlockTokens(f);
    forall i | 0 <= i < n
      ensures PyParseInt(parts[i]) == Some(f[i])
    {
      PyParseIntReadsBack(f[i]);
      if i < n - 1 {
        assert parts[i] == IntToString(f[i]);
      } else {
        assert parts[i] == IntToString(f[i]) + "\n";
      }
    }
  }

  lemma ParseIntsPointwise(tokens: seq<string>, g: seq<int>)
    requires |tokens| == |g| && forall i :: 0 <= i < |g| ==> PyParseInt(tokens[i]) == Some(g[i])
    ensures ParseInts(tokens, PyParseInt) == Ok(g)
  {
    var r := ParseInts(tokens, PyParseInt);
    assert r.value == g;
  }

  /** Such a line reads back as its ids: `int` ignores the newline. */
  lemma FlockLineReadsBack(f: seq<int>)
    requires |f| > 0
    ensures ParseFlock(Join(Decimals(f), " ") + "\n") == Ok(f)
  {
    FlockLineTokens(f);
    FlockTokensParse(f);
    ParseIntsPointwise(FlockTokens(f), f);
  }

  // --------------------------------------------------------------- output

  /** Line 41, with `epsilon` as the text `str(float)` prints. */
  function OutputFilename(epsilon: string, mu: int, delta: int): string
  {
    "/tmp/BFENotFounds_E" + epsilon + "_M" + IntToString(mu) + "_D" + IntToString(delta) + ".tsv"
  }

  /** The name tells the parameters apart: a float prints without '_'. */
  lemma OutputFilenameInjective(e: string, mu: int, delta: int, e': string, mu': int, delta': int)
    requires '_' !in e && '_' !in e'
    requires OutputFilename(e, mu, delta) == OutputFilename(e', mu', delta')
    ensures e == e' && mu == mu' && delta == delta'
  {
    IntToStringAvoids(mu, '_');
    IntToStringAvoids(mu', '_');
    NameParts(e, IntToString(mu), IntToString(delta), e', IntToString(mu'), IntToString(delta'));
    IntToStringInjective(mu, mu');
    IntToStringInjective(delta, delta');
  }

  lemma NameParts(e: string, m: string, d: string, e': string, m': string, d': string)
    requires '_' !in e && '_' !in e' && '_' !in m && '_' !in m'
    requires "/tmp/BFENotFounds_E" + e + "_M" + m + "_D" + d + ".tsv" ==
             "/tmp/BFENotFounds_E" + e' + "_M" + m' + "_D" + d' + ".tsv"
    ensures e == e' && m == m' && d == d'
  {
    var pre := "/tmp/BFENotFounds_E";
    var t := "M" + (m + "_" + ("D" + (d + ".tsv")));
    var t' := "M" + (m' + "_" + ("D" + (d' + ".tsv")));
    Regroup(pre, e, m, d);
    Regroup(pre, e', m', d');
    DropPrefix(pre, e + "_" + t, e' + "_" + t');
    SeparatorCut(e, t, e', t', '_');
    DropPrefix("M", m + "_" + ("D" + (d + ".tsv")), m' + "_" + ("D" + (d' + ".tsv")));
    SeparatorCut(m, "D" + (d + ".tsv"), m', "D" + (d' + ".tsv"), '_');
    DropPrefix("D", d + ".tsv", d' + ".tsv");
    DropSuffix(d, d', ".tsv");
  }

  lemma Regroup(pre: string, e: string, m: string, d: string)
    ensures pre + e + "_M" + m + "_D" + d + ".tsv" == pre + (e + "_" + ("M" + (m + "_" + ("D" + (d + ".tsv")))))
  {
  }

  lemma DropPrefix(p: string, x: string, x': string)
    requires p + x == p + x'
    ensures x == x'
  {
    assert x == (p + x)[|p|..];
    assert x' == (p + x')[|p|..];
  }

  lemma DropSuffix(x: string, x': string, t: string)
    requires x + t == x' + t
    ensures x == x'
  {
    assert x == (x + t)[..|x|];
    assert x' == (x' + t)[..|x'|];
  }

  /** The whole script (lines 17-45) on its argument strings and the texts
      of its two input files: the output file's name and the set of lines
      written to it. */
  function SaveSpec(epsilonArg: string, muArg: string, deltaArg: string,
                    pointset: string, flocks: string, toFloat: FloatText): Result<(string, set<string>)>
  {
    match toFloat(epsilonArg)
    case None => Err(ValueError)
    case Some(epsilon) =>
      match PyParseInt(muArg)
      case None => Err(ValueError)
      case Some(mu) =>
        match PyParseInt(deltaArg)
        case None => Err(ValueError)
        case Some(delta) =>
          match BuildPoints(FileLines(pointset), PointLine(toFloat))
          case Err(e) => Err(e)
          case Ok(points) =>
            match NotFounds(FileLines(flocks), points)
            case Err(e) => Err(e)
            case Ok(s) => Ok((OutputFilename(epsilon, mu, delta), s))
  }

  /** What the script writes: one line per distinct id named in the flock
      file, with that id's coordinates. */
  lemma SavedLines(epsilonArg: string, muArg: string, deltaArg: string,
                   pointset: string, flocks: string, toFloat: FloatText)
    requires SaveSpec(epsilonArg, muArg, deltaArg, pointset, flocks, toFloat).Ok?
    ensures var points := BuildPoints(FileLines(pointset), PointLine(toFloat)).value;
      var ids := FlockIds(FileLines(flocks));
      var s := SaveSpec(epsilonArg, muArg, deltaArg, pointset, flocks, toFloat).value.1;
      && ids <= points.Keys
      && s == Image(ids, points)
      && |s| == |ids|
  {
    var points := BuildPoints(FileLines(pointset), PointLine(toFloat)).value;
    NotFoundsImage(FileLines(flocks), points);
    ImageSize(FlockIds(FileLines(flocks)), points);
  }

  method SaveNotFounds(epsilonArg: string, muArg: string, deltaArg: string,
                       pointset: string, flocks: string, toFloat: FloatText)
    returns (r: Result<(string, set<string>)>)
    ensures r == SaveSpec(epsilonArg, muArg, deltaArg, pointset, flocks, toFloat)
  {
    var epsilon := toFloat(epsilonArg);
    if epsilon.None? {
      return Err(ValueError);
    }
    var mu := PyParseInt(muArg);
    if mu.None? {
      return Err(ValueError);
    }
    var delta := PyParseInt(deltaArg);
    if delta.None? {
      return Err(ValueError);
    }
    var points := LoadPoints(pointset, toFloat);
    if points.Err? {
      return Err(points.error);
    }
    var notfounds := CollectNotFounds(flocks, points.value);
    if notfounds.Err? {
      return Err(notfounds.error);
    }
    var filename := OutputFilename(epsilon.value, mu.value, delta.value);
    r := Ok((filename, notfounds.value));
  }
}
