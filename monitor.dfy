/** The interactive dashboard (Scripts/Python/monitor.py): each cycle it
    drops the driver entry, feeds the clamped active-task count of each of the
    first three executors into a rolling series, draws it, trims the series
    back to its window, and shows the last active stage. Drawing is outside
    the model; what is kept is the list handed to the chart, the values the
    labels are drawn at, and the series carried into the next cycle. */
module Monitor {
  import opened Text
  import opened Spark

  /** Window width of every series (`width`). */
  const Width: nat := 125
  /** Screen rows between two executor panels (`gap`). */
  const Gap: nat := 7
  /** Number of executor panels (`series0`, `series1`, `series2`). */
  const Slots: nat := 3

  /** `[0] * width` followed by `1`: how every series starts. */
  function InitialSeries(): (s: seq<int>)
    ensures |s| == Width + 1 && s[Width] == 1
    ensures forall i :: 0 <= i < Width ==> s[i] == 0
  {
    seq(Width, _ => 0) + [1]
  }

  /** The 1 at the end keeps the first chart from being flat: the initial
      series is not constant and its maximum is 1. */
  lemma InitialSeriesNotFlat()
    ensures !Constant(InitialSeries()) && Max(InitialSeries()) == 1
  {
    var s := InitialSeries();
    assert s[0] == 0 && s[Width] == 1;
  }

  /** `set(series)`. */
  function Values(s: seq<int>): set<int>
  {
    set x | x in s
  }

  predicate Constant(s: seq<int>)
  {
    forall i :: 0 <= i < |s| ==> s[i] == s[0]
  }

  lemma TwoValues(S: set<int>, a: int, b: int)
    requires a in S && b in S && a != b
    ensures |S| >= 2
  {
    var T := S - {a};
    assert b in T;
    assert |T| >= 1;
    assert S == T + {a};
  }

  /** `len(set(series)) == 1` holds exactly for a non-empty constant series. */
  lemma SingleValueIffConstant(s: seq<int>)
    ensures |Values(s)| == 1 <==> |s| > 0 && Constant(s)
  {
    if |s| > 0 && Constant(s) {
      assert Values(s) == {s[0]};
    }
    if |s| > 0 && !Constant(s) {
      var i :| 0 <= i < |s| && s[i] != s[0];
      TwoValues(Values(s), s[0], s[i]);
    }
  }

  /** Lines 47-49: `tasks` is `min(activeTasks, totalCores)`. */
  function Clamp(activeTasks: int, totalCores: int): (tasks: int)
    ensures tasks <= activeTasks && tasks <= totalCores
    ensures tasks == activeTasks || tasks == totalCores
  {
    if activeTasks > totalCores then totalCores else activeTasks
  }

  /** Lines 50-57: append the sample; if the series has become constant,
      append one more value, one below the sample when it equals the core
      count and one above otherwise. */
  function AppendSample(s: seq<int>, tasks: int, cores: int): (r: seq<int>)
  {
    var s1 := s + [tasks];
    if |Values(s1)| == 1 then s1 + [if tasks == cores then tasks - 1 else tasks + 1] else s1
  }

  /** Either just the sample is appended, or, exactly when the series became
      constant, the sample and one perturbed value. */
  lemma AppendSampleShape(s: seq<int>, tasks: int, cores: int)
    ensures Constant(s + [tasks]) ==>
      AppendSample(s, tasks, cores) == s + [tasks, if tasks == cores then tasks - 1 else tasks + 1]
    ensures !Constant(s + [tasks]) ==> AppendSample(s, tasks, cores) == s + [tasks]
  {
    SingleValueIffConstant(s + [tasks]);
  }

  /** The list handed to `plot` always holds at least two distinct values. */
  lemma PlottedNotFlat(s: seq<int>, tasks: int, cores: int)
    ensures |Values(AppendSample(s, tasks, cores))| >= 2
  {
    var s1 := s + [tasks];
    var r := AppendSample(s, tasks, cores);
    assert tasks in Values(s1);
    if |Values(s1)| == 1 {
      var v := if tasks == cores then tasks - 1 else tasks + 1;
      assert r == s1 + [v];
      assert tasks in Values(r) && v in Values(r);
      TwoValues(Values(r), tasks, v);
    } else {
      assert |Values(s1)| != 0;
    }
  }

  function Reverse(s: seq<int>): (r: seq<int>)
    ensures |r| == |s|
  {
    if |s| == 0 then [] else Reverse(s[1..]) + [s[0]]
  }

  lemma {:induction false} ReverseAt(s: seq<int>, k: nat)
    requires k < |s|
    ensures Reverse(s)[k] == s[|s| - 1 - k]
  {
    if k < |s| - 1 {
      ReverseAt(s[1..], k);
    }
  }

  /** Python's `s[0:n]`. */
  function Take(s: seq<int>, n: nat): (r: seq<int>)
  {
    if n <= |s| then s[..n] else s
  }

  /** Lines 66-68: `series.reverse(); series = series[0:width]; series.reverse()`. */
  function Trim(s: seq<int>, width: nat): seq<int>
  {
    Reverse(Take(Reverse(s), width))
  }

  /** Reversing, keeping the first `width` and reversing back keeps exactly
      the last `width` samples (all of them when there are fewer). */
  lemma TrimKeepsLast(s: seq<int>, width: nat)
    ensures |s| >= width ==> Trim(s, width) == s[|s| - width..]
    ensures |s| < width ==> Trim(s, width) == s
  {
    var t := Take(Reverse(s), width);
    var r := Reverse(t);
    var keep := if |s| >= width then width else |s|;
    assert |r| == keep;
    forall k | 0 <= k < keep
      ensures r[k] == s[|s| - keep + k]
    {
      ReverseAt(t, k);
      ReverseAt(s, keep - 1 - k);
    }
    assert r == s[|s| - keep..];
  }

  /** Largest element, as Python's `max(series)`. */
  function Max(s: seq<int>): (m: int)
    requires |s| > 0
    ensures m in s
    ensures forall i :: 0 <= i < |s| ==> s[i] <= m
    decreases |s|
  {
    if |s| == 1 then s[0]
    else
      var m := Max(s[..|s| - 1]);
      if s[|s| - 1] > m then s[|s| - 1] else m
  }

  /** What the panel of one executor shows: the list passed to `plot`, the
      sample, and the screen row its label is written at (line 59). */
  datatype Panel = Panel(plotted: seq<int>, tasks: int, labelRow: int)

  /** One slot's work: the series it leaves, its panel, and whether it
      ended the program (ZeroDivisionError at lines 63, 87 and 113 when the
      executor reports no cores; nothing catches it). Slot 0 draws before
      dividing and slots 1 and 2 after; as a crash ends the program and its
      frame is `Crashed`, the panel of a crashing slot is never shown. */
  datatype SlotOutcome = SlotOutcome(series: seq<int>, panel: Panel, crashed: bool)

  /** Lines 45-68 (and their copies at 71-94 and 97-120) for slot `k`. */
  function SlotStep(k: nat, s: seq<int>, e: Executor): SlotOutcome
  {
    var tasks := Clamp(e.activeTasks, e.totalCores);
    var plotted := AppendSample(s, tasks, e.totalCores);
    var panel := Panel(plotted, tasks, k * Gap + 1 + Max(plotted) - tasks);
    if e.totalCores == 0 then SlotOutcome(plotted, panel, true)
    else SlotOutcome(Trim(plotted, Width), panel, false)
  }

  /** The sample drawn for an executor is `min(activeTasks, totalCores)`;
      it is the newest-but-perturbation element of the plotted list, and the
      label sits on or below the first row of the chart because the sample
      is in the plotted list. */
  lemma SlotPanel(k: nat, s: seq<int>, e: Executor)
    ensures var p := SlotStep(k, s, e).panel;
      && p.tasks == (if e.activeTasks < e.totalCores then e.activeTasks else e.totalCores)
      && |p.plotted| > |s| && p.plotted[|s|] == p.tasks && p.plotted[..|s|] == s
      && p.labelRow >= k * Gap + 1
      && |Values(p.plotted)| >= 2
  {
    var tasks := Clamp(e.activeTasks, e.totalCores);
    AppendSampleShape(s, tasks, e.totalCores);
    PlottedNotFlat(s, tasks, e.totalCores);
    var p := SlotStep(k, s, e).panel;
    assert p.plotted[|s|] == tasks;
  }

  /** A series that starts a processed cycle with at least `width` samples
      leaves it with exactly `width`: the last ones of the plotted list. */
  lemma SlotKeepsWindow(k: nat, s: seq<int>, e: Executor)
    requires |s| >= Width
    ensures var o := SlotStep(k, s, e);
      !o.crashed ==> |o.series| == Width && o.series == o.panel.plotted[|o.panel.plotted| - Width..]
  {
    var o := SlotStep(k, s, e);
    TrimKeepsLast(o.panel.plotted, Width);
  }

  /** The work of one slot, as `SlotStep` does it. */
  type SlotFn = (nat, seq<int>, Executor) -> SlotOutcome

  /** Slots `k`, `k + 1`, ... below three and below the number of
      executors, in order, each done by `step` (the dashboard passes
      `SlotStep`); a crash ends the run. Yields the series, the panels drawn
      and whether the program crashed. */
  function SlotsFrom(series: seq<seq<int>>, workers: seq<Executor>, k: nat, step: SlotFn)
    : (r: (seq<seq<int>>, seq<Panel>, bool))
    requires |series| == Slots
    ensures |r.0| == Slots
    decreases Slots - k
  {
    if k >= Slots || k >= |workers| then (series, [], false)
    else
      var o := step(k, series[k], workers[k]);
      if o.crashed then (series[k := o.series], [o.panel], true)
      else
        var rest := SlotsFrom(series[k := o.series], workers, k + 1, step);
        (rest.0, [o.panel] + rest.1, rest.2)
  }

  /** One slot of `SlotsFrom` after the panels of the slots before it,
      in terms of what slot `k`'s step yields. */
  lemma SlotsFromStep(before: seq<seq<int>>, after: seq<seq<int>>, workers: seq<Executor>, k: nat,
                      step: SlotFn, done: seq<Panel>, p: Panel, c: bool)
    requires |before| == Slots && k < Slots && k < |workers|
    requires after == before[k := step(k, before[k], workers[k]).series]
    requires p == step(k, before[k], workers[k]).panel
    requires c == step(k, before[k], workers[k]).crashed
    ensures var r := SlotsFrom(before, workers, k, step);
      c ==> (r.0, done + r.1, r.2) == (after, done + [p], true)
    ensures var r := SlotsFrom(before, workers, k, step);
      var r' := SlotsFrom(after, workers, k + 1, step);
      !c ==> (r.0, done + r.1, r.2) == (r'.0, (done + [p]) + r'.1, r'.2)
  {
    var r' := SlotsFrom(after, workers, k + 1, step);
    assert done + ([p] + r'.1) == (done + [p]) + r'.1;
  }

  /** Lines 123-134: stage id and name start at 0 and "" and take the id and
      name of each active stage in turn; None when looking up an active stage's
      name fails, in which case nothing of the stage section is shown. */
  function StageHeader(stages: seq<Stage>): (r: Option<(int, string)>)
    ensures r.Some? <==>
      forall j :: 0 <= j < |stages| && stages[j].status == "ACTIVE" ==> stages[j].name.Some?
    decreases |stages|
  {
    if |stages| == 0 then Some((0, ""))
    else
      match StageHeader(stages[..|stages| - 1])
      case None => None
      case Some(h) =>
        var st := stages[|stages| - 1];
        if st.status != "ACTIVE" then Some(h)
        else if st.name.None? then None
        else Some((st.stageId, st.name.value))
  }

  /** The stage shown is the last active one, or id 0 and name "" when no
      stage is active; nothing carries over from the previous cycle. */
  lemma {:induction false} HeaderIsLastActive(stages: seq<Stage>)
    requires StageHeader(stages).Some?
    ensures LastActive(stages).None? ==> StageHeader(stages) == Some((0, ""))
    ensures LastActive(stages).Some? ==>
      var st := stages[LastActive(stages).value];
      StageHeader(stages) == Some((st.stageId, st.name.value))
    decreases |stages|
  {
    if |stages| > 0 {
      var pre := stages[..|stages| - 1];
      assert stages == pre + [stages[|stages| - 1]];
      LastActiveSnoc(pre, stages[|stages| - 1]);
      HeaderIsLastActive(pre);
    }
  }

  /** The stage loop of lines 126-134. */
  method SelectStage(stages: seq<Stage>) returns (header: Option<(int, string)>)
    ensures header == StageHeader(stages)
  {
    var stageId := 0;
    var stageName := "";
    for i := 0 to |stages|
      invariant StageHeader(stages[..i]) == Some((stageId, stageName))
    {
      assert stages[..i + 1][..i] == stages[..i];
      var stage := stages[i];
      if stage.status == "ACTIVE" {
        stageId := stage.stageId;
        if stage.name.None? {
          assert !StageHeader(stages).Some?;
          return None;
        }
        stageName := stage.name.value;
      }
    }
    assert stages[..|stages|] == stages;
    header := Some((stageId, stageName));
  }

  /** What `float()` makes of a text at lines 138-139: a ValueError, zero,
      or a number other than zero. */
  datatype FloatValue = NotFloat | Zero | NonZero
  type FloatOf = string -> FloatValue

  /** What the progress scrape at lines 137-147 meets: the text of the
      active-stage counter (None when fetching the page, finding the element,
      indexing the spans or stripping the text raises an error the `except`
      at line 149 lists), and whether `pd.read_html` at line 144 raises
      ValueError (the task table has no table in it). */
  datatype Progress = Progress(counts: Option<string>, tableFails: bool)

  /** How lines 137-147 end: with a caught error before the stage header is
      drawn at line 141, with the header drawn, or with a ValueError that
      the `except` at line 149 does not list, which ends the program. */
  datatype ProgressEnd = Hidden | Shown | Fatal

  /** Lines 137-147: the counter text is stripped and unpacked into exactly
      two `/`-separated parts, both go through `float()`, the header is
      drawn, and a zero total raises ZeroDivisionError (caught) before the
      task table is read. */
  function ProgressStep(p: Progress, floatOf: FloatOf): ProgressEnd
  {
    match p.counts
    case None => Hidden
    case Some(text) =>
      var parts := Split(PyStrip(text), '/');
      if |parts| != 2 then Fatal
      else if floatOf(parts[0]).NotFloat? || floatOf(parts[1]).NotFloat? then Fatal
      else if floatOf(parts[1]).Zero? then Shown
      else if p.tableFails then Fatal
      else Shown
  }

  /** A counter without a `/` cannot be unpacked into two names: the
      ValueError ends the program. */
  lemma CounterWithoutSlashEnds(p: Progress, floatOf: FloatOf)
    requires p.counts.Some? && '/' !in p.counts.value
    ensures ProgressStep(p, floatOf) == Fatal
  {
    var t := PyStrip(p.counts.value);
    assert forall i :: 0 <= i < |t| ==> t[i] in p.counts.value;
    SplitNoSeparator(t, '/');
  }

  /** A counter `complete/total` of two numbers with a non-zero total shows
      the header exactly when the task table can be read without a
      ValueError. */
  lemma CounterShowsHeader(p: Progress, floatOf: FloatOf, complete: string, total: string)
    requires p.counts.Some? && PyStrip(p.counts.value) == complete + "/" + total
    requires '/' !in complete && '/' !in total
    requires !floatOf(complete).NotFloat? && floatOf(total).NonZero?
    ensures ProgressStep(p, floatOf) == Shown <==> !p.tableFails
    ensures ProgressStep(p, floatOf) == Fatal <==> p.tableFails
  {
    assert Join([complete, total], "/") == complete + "/" + total;
    SplitJoin([complete, total], '/');
  }

  /** What one cycle shows: nothing (the executors request failed and the
      cycle was skipped), the end of the program (an uncaught exception), or
      the executor panels and, when line 141 was reached, the stage header. */
  datatype Frame = Skipped | Crashed | Drawn(panels: seq<Panel>, header: Option<(int, string)>)

  /** Lines 29-147 as a function of the series before the cycle. */
  function CycleSpec(series: seq<seq<int>>, spark: Option<seq<Executor>>, stages: Option<seq<Stage>>,
                     progress: Progress, floatOf: FloatOf)
    : (r: (seq<seq<int>>, Frame))
    requires |series| == Slots
    ensures |r.0| == Slots
  {
    match spark
    case None => (series, Skipped)
    case Some(executors) =>
      match RemoveDriver(executors)
      case None => (series, Crashed)
      case Some(workers) =>
        var s := SlotsFrom(series, workers, 0, SlotStep);
        if s.2 then (s.0, Crashed) else (s.0, StageFrame(s.1, stages, progress, floatOf))
  }

  /** Lines 123-147 after the panels were drawn: the stage loop, then the
      progress scrape, which draws the header at line 141. */
  function StageFrame(panels: seq<Panel>, stages: Option<seq<Stage>>, progress: Progress, floatOf: FloatOf): Frame
  {
    match stages
    case None => Drawn(panels, None)
    case Some(st) =>
      match StageHeader(st)
      case None => Drawn(panels, None)
      case Some(h) =>
        match ProgressStep(progress, floatOf)
        case Hidden => Drawn(panels, None)
        case Shown => Drawn(panels, Some(h))
        case Fatal => Crashed
  }

  /** A header on screen is the last ACTIVE stage (or id 0 and name ""), and
      it is there exactly when the stages request, the stage loop and the
      progress scrape all got that far; the panels are kept. */
  lemma ShownHeaderIsLastActive(panels: seq<Panel>, stages: Option<seq<Stage>>, progress: Progress, floatOf: FloatOf)
    ensures var f := StageFrame(panels, stages, progress, floatOf);
      f.Drawn? ==> (f.panels == panels &&
        (f.header.Some? <==> stages.Some? && StageHeader(stages.value).Some? && ProgressStep(progress, floatOf) == Shown))
    ensures var f := StageFrame(panels, stages, progress, floatOf);
      f.Drawn? && f.header.Some? ==>
        match LastActive(stages.value)
        case None => f.header == Some((0, ""))
        case Some(k) => f.header == Some((stages.value[k].stageId, stages.value[k].name.value))
  {
    if stages.Some? && StageHeader(stages.value).Some? {
      HeaderIsLastActive(stages.value);
    }
  }

  /** Every slot at or beyond the number of executors left after removing the
      driver keeps its series; when nothing crashed, every other slot's series
      is that slot's step, which did not crash, applied to its old series. */
  lemma {:induction false} SlotsUpdatedInOrder(series: seq<seq<int>>, workers: seq<Executor>, k: nat, step: SlotFn)
    requires |series| == Slots && k <= Slots
    ensures var r := SlotsFrom(series, workers, k, step);
      && (forall j :: 0 <= j < Slots && (j < k || j >= |workers|) ==> r.0[j] == series[j])
      && (!r.2 ==> forall j :: k <= j < Slots && j < |workers| ==>
            !step(j, series[j], workers[j]).crashed && r.0[j] == step(j, series[j], workers[j]).series)
    decreases Slots - k
  {
    if k < Slots && k < |workers| {
      var o := step(k, series[k], workers[k]);
      if !o.crashed {
        SlotsUpdatedInOrder(series[k := o.series], workers, k + 1, step);
      }
    }
  }

  /** A cycle of the dashboard in which nothing crashed leaves every drawn
      slot, whose series had at least `width` samples, with exactly `width`. */
  lemma SlotsKeepWindow(series: seq<seq<int>>, workers: seq<Executor>, k: nat)
    requires |series| == Slots && k <= Slots
    requires forall j :: k <= j < Slots ==> |series[j]| >= Width
    ensures var r := SlotsFrom(series, workers, k, SlotStep);
      !r.2 ==> forall j :: k <= j < Slots && j < |workers| ==> |r.0[j]| == Width
  {
    SlotsUpdatedInOrder(series, workers, k, SlotStep);
    var r := SlotsFrom(series, workers, k, SlotStep);
    if !r.2 {
      forall j | k <= j < Slots && j < |workers|
        ensures |r.0[j]| == Width
      {
        assert r.0[j] == SlotStep(j, series[j], workers[j]).series;
        SlotKeepsWindow(j, series[j], workers[j]);
      }
    }
  }

  /** Lines 50-57 as written: `append`, then `set(series)`, `pop()` and a
      second `append` when the set has one element. */
  method AppendWithPerturbation(series: seq<int>, tasks: int, cores: int) returns (s: seq<int>)
    ensures s == AppendSample(series, tasks, cores)
    ensures |Values(s)| >= 2
  {
    s := series + [tasks];
    var values := set x | x in s;
    if |values| == 1 {
      assert tasks in values;
      var value :| value in values;
      assert value == tasks by {
        if value != tasks {
          TwoValues(values, value, tasks);
        }
      }
      if value == cores {
        value := value - 1;
      } else {
        value := value + 1;
      }
      s := s + [value];
    }
    PlottedNotFlat(series, tasks, cores);
  }

  /** Lines 46-59 for slot `k`: the sample, the list handed to `plot` and the
      row of the label. */
  method DrawPanel(k: nat, series: seq<int>, e: Executor) returns (panel: Panel)
    ensures panel == SlotStep(k, series, e).panel
  {
    var cores := e.totalCores;
    var tasks := e.activeTasks;
    if tasks > cores {
      tasks := cores;
    }
    assert tasks == Clamp(e.activeTasks, e.totalCores);
    var s := AppendWithPerturbation(series, tasks, cores);
    panel := Panel(s, tasks, k * Gap + 1 + Max(s) - tasks);
  }

  /** Lines 66-68. */
  method TrimToWidth(series: seq<int>) returns (s: seq<int>)
    ensures s == Trim(series, Width)
    ensures |series| >= Width ==> s == series[|series| - Width..]
  {
    s := Reverse(series);
    s := Take(s, Width);
    s := Reverse(s);
    TrimKeepsLast(series, Width);
  }

  /** The dashboard's state across cycles: the three rolling series. */
  class Dashboard {
    var series: seq<seq<int>>

    /** Every series has `width` samples, or `width + 1` while its slot has
        never been drawn. */
    ghost predicate Valid()
      reads this
    {
      |series| == Slots && forall k :: 0 <= k < Slots ==> Width <= |series[k]| <= Width + 1
    }

    constructor ()
      ensures Valid()
      ensures series == [InitialSeries(), InitialSeries(), InitialSeries()]
    {
      series := [InitialSeries(), InitialSeries(), InitialSeries()];
    }

    /** The body of one `if len(spark) > k:` block. */
    method UpdateSlot(k: nat, e: Executor) returns (panel: Panel, crashed: bool)
      requires Valid() && k < Slots
      modifies this
      ensures crashed == SlotStep(k, old(series[k]), e).crashed
      ensures panel == SlotStep(k, old(series[k]), e).panel
      ensures series == old(series)[k := SlotStep(k, old(series[k]), e).series]
      ensures !crashed ==> Valid() && |series[k]| == Width
    {
      SlotKeepsWindow(k, series[k], e);
      panel := DrawPanel(k, series[k], e);
      if e.totalCores == 0 {
        series := series[k := panel.plotted];
        return panel, true;
      }
      var s := TrimToWidth(panel.plotted);
      series := series[k := s];
      crashed := false;
    }

    /** The three `if len(spark) > k:` blocks (lines 44-120), which differ
        only in k: slot k is drawn from executor k while there is one. */
    method DrawSlots(workers: seq<Executor>) returns (panels: seq<Panel>, crashed: bool)
      requires Valid()
      modifies this
      ensures (series, panels, crashed) == SlotsFrom(old(series), workers, 0, SlotStep)
      ensures !crashed ==> Valid()
    {
      panels := [];
      crashed := false;
      var k := 0;
      ghost var target := SlotsFrom(series, workers, 0, SlotStep);
      assert [] + target.1 == target.1;
      while k < Slots && k < |workers|
        invariant k <= Slots && Valid()
        invariant var r := SlotsFrom(series, workers, k, SlotStep);
          target == (r.0, panels + r.1, r.2)
        decreases Slots - k
      {
        ghost var before := series;
        var p, c := UpdateSlot(k, workers[k]);
        SlotsFromStep(before, series, workers, k, SlotStep, panels, p, c);
        if c {
          return panels + [p], true;
        }
        panels := panels + [p];
        k := k + 1;
      }
      assert panels + [] == panels;
    }

    /** One pass of the `while` loop (lines 26-153), given what the
        executors and stages requests return (None: the request or its
        decoding failed) and what the progress scrape meets. */
    method Cycle(spark: Option<seq<Executor>>, stages: Option<seq<Stage>>,
                 progress: Progress, floatOf: FloatOf) returns (frame: Frame)
      requires Valid()
      modifies this
      ensures (series, frame) == CycleSpec(old(series), spark, stages, progress, floatOf)
      ensures !frame.Crashed? ==> Valid()
    {
      if spark.None? {
        return Skipped;
      }
      var executors := spark.value;
      var driverNode := FindDriverNode(executors);
      if driverNode >= |executors| {
        return Crashed;
      }
      executors := executors[..driverNode] + executors[driverNode + 1..];
      assert Some(executors) == RemoveDriver(spark.value);
      var panels, crashed := DrawSlots(executors);
      if crashed {
        return Crashed;
      }
      var header: Option<(int, string)> := None;
      if stages.Some? {
        header := SelectStage(stages.value);
        if header.Some? {
          match ProgressStep(progress, floatOf)
          case Hidden => header := None;
          case Shown =>
          case Fatal => return Crashed;
        }
      }
      frame := Drawn(panels, header);
    }
  }
}
