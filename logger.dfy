/** The telemetry logger: each pass of its endless loop polls the REST API,
    writes one TASKS record per running task of every active stage, one
    NODES record per executor, a TOTAL record and, when there are executors,
    a SCALE record, and then follows the START/END phase lines of a control
    log. Seven variables survive from one pass to the next; a caught error
    ends a pass early and keeps what was already updated and written, and
    the ValueError of a stage page without a task table ends the program. */
module Logger {
  import opened Text
  import opened Spark

  /** The variables `main` carries across passes (lines 27-33). `executorID`
      starts as the integer -1 and later holds executor ids; it is kept as
      the text it prints as. */
  datatype Vars = Vars(
    stageID: int,
    stageName: string,
    executors: int,
    executorID: string,
    hostPort: string,
    myStage: string,
    myInterval: string)

  function Initial(): Vars
  {
    Vars(-1, "", -1, "-1", "", "", "")
  }

  /** The printed text of the float values of one pass: the sums of
      durations and input sizes, and the four averages SCALE prints with
      two decimals. Floating point is not modelled; these are inputs. */
  datatype Floats = Floats(
    tdurat: string,
    tinput: string,
    blocksPerExecutor: string,
    tasksPerExecutor: string,
    duratPerExecutor: string,
    inputPerExecutor: string)

  /** What the requests of one pass return. None stands for a request, a
      decoding or a lookup that raises one of the caught errors: `app` is the
      id of the first application, `stages` the stage list, `spark` the
      executor list, `tail` the text of `str(out.stdout)` of `tail -n1`.
      Every `timer(start)` of the pass prints `elapsed`. */
  datatype Poll = Poll(
    app: Option<string>,
    elapsed: string,
    stages: Option<seq<Stage>>,
    spark: Option<seq<Executor>>,
    floats: Floats,
    tail: Option<string>)

  /** How (part of) a pass ends: it ran to its end; an error the `except`
      of line 111 lists ended it, and the loop goes on with the next pass;
      or an error it does not list ended the program. */
  datatype Verdict = Completed | Caught | Fatal

  /** The variables and the records written by (part of) a pass, and how it
      ended. */
  datatype Outcome = Outcome(vars: Vars, out: seq<string>, verdict: Verdict)

  // ---------------------------------------------------------------- records

  /** `"TAG|{}|...|{}".format(*args)` with `holes` placeholders. Python
      ignores surplus arguments; every template here gets at least as many
      arguments as it has placeholders. */
  function Format(tag: string, holes: nat, args: seq<string>): string
    requires |args| >= holes
  {
    Join([tag] + args[..holes], "|")
  }

  /** A record splits back into its tag and the first `holes` arguments,
      when none of them contains the separator. */
  lemma FormatFields(tag: string, holes: nat, args: seq<string>)
    requires |args| >= holes
    requires '|' !in tag && forall i :: 0 <= i < holes ==> '|' !in args[i]
    ensures Split(Format(tag, holes, args), '|') == [tag] + args[..holes]
    ensures |Split(Format(tag, holes, args), '|')| == holes + 1
  {
    var parts := [tag] + args[..holes];
    forall i | 0 <= i < |parts|
      ensures '|' !in parts[i]
    {
      if i > 0 {
        assert parts[i] == args[i - 1];
      }
    }
    SplitJoin(parts, '|');
  }

  /** Line 61: 15 fields. */
  function TasksRecord(v: Vars, elapsed: string, appID: string, row: TaskRow): string
  {
    Format("TASKS", 15, [v.myStage, elapsed, appID, IntToString(v.executors), v.executorID,
      v.hostPort, IntToString(v.stageID), v.stageName, row.id, row.locality, row.launchTime,
      row.duration, row.gcTime, row.input, row.status])
  }

  /** What every TASKS record of a pass begins with: the phase, the time and
      the application, then the executor count, id and address as they
      stand when the pass reaches the task tables. */
  function TasksPrefix(v: Vars, elapsed: string, appID: string): string
  {
    Join(["TASKS", v.myStage, elapsed, appID, IntToString(v.executors), v.executorID, v.hostPort], "|") + "|"
  }

  lemma TasksRecordPrefix(v: Vars, elapsed: string, appID: string, row: TaskRow)
    ensures TasksPrefix(v, elapsed, appID) <= TasksRecord(v, elapsed, appID, row)
  {
    var args := [v.myStage, elapsed, appID, IntToString(v.executors), v.executorID,
      v.hostPort, IntToString(v.stageID), v.stageName, row.id, row.locality, row.launchTime,
      row.duration, row.gcTime, row.input, row.status];
    var head := ["TASKS", v.myStage, elapsed, appID, IntToString(v.executors), v.executorID, v.hostPort];
    var tail := args[6..];
    assert [ "TASKS"] + args[..15] == head + tail;
    JoinAppend(head, tail, "|");
  }

  /** Line 89: 12 fields, written after `executorID` and `hostPort` took the
      executor's values. */
  function NodesRecord(v: Vars, elapsed: string, appID: string, e: Executor): string
  {
    Format("NODES", 12, [v.myStage, elapsed, appID, IntToString(v.executors), v.executorID,
      v.hostPort, IntToString(v.stageID), v.stageName, IntToString(e.rddBlocks),
      IntToString(e.totalTasks), e.durationText, e.inputText])
  }

  /** Line 91: ten arguments for nine placeholders, so `tinput` is never
      written. */
  function TotalRecord(v: Vars, elapsed: string, appID: string,
                       tblock: string, ttasks: string, tdurat: string, tinput: string): string
  {
    Format("TOTAL", 9, [v.myStage, elapsed, appID, IntToString(v.executors),
      IntToString(v.stageID), v.stageName, tblock, ttasks, tdurat, tinput])
  }

  /** The TOTAL record holds nine fields after its tag, the last of them the
      duration sum: the input sum is dropped. */
  lemma TotalFields(v: Vars, elapsed: string, appID: string,
                    tblock: string, ttasks: string, tdurat: string, tinput: string)
    requires '|' !in v.myStage && '|' !in elapsed && '|' !in appID && '|' !in v.stageName
    requires '|' !in tblock && '|' !in ttasks && '|' !in tdurat
    ensures Split(TotalRecord(v, elapsed, appID, tblock, ttasks, tdurat, tinput), '|') ==
      ["TOTAL", v.myStage, elapsed, appID, IntToString(v.executors), IntToString(v.stageID),
       v.stageName, tblock, ttasks, tdurat]
  {
    IntToStringAvoids(v.executors, '|');
    IntToStringAvoids(v.stageID, '|');
    var args := [v.myStage, elapsed, appID, IntToString(v.executors),
      IntToString(v.stageID), v.stageName, tblock, ttasks, tdurat, tinput];
    FormatFields("TOTAL", 9, args);
  }

  /** Line 94: 10 fields. */
  function ScaleRecord(v: Vars, elapsed: string, appID: string, f: Floats): string
  {
    Format("SCALE", 10, [v.myStage, elapsed, appID, IntToString(v.executors),
      IntToString(v.stageID), v.stageName, f.blocksPerExecutor, f.tasksPerExecutor,
      f.duratPerExecutor, f.inputPerExecutor])
  }

  // ------------------------------------------------------------ task tables

  /** The rows of a task table whose Status is RUNNING, in table order. */
  function RunningRows(rows: seq<TaskRow>): (r: seq<TaskRow>)
    ensures |r| <= |rows|
    ensures forall i :: 0 <= i < |r| ==> r[i].status == "RUNNING" && r[i] in rows
    ensures forall row :: row in rows && row.status == "RUNNING" ==> row in r
    decreases |rows|
  {
    if |rows| == 0 then []
    else
      var row := rows[|rows| - 1];
      var r := RunningRows(rows[..|rows| - 1]);
      assert forall x :: x in rows <==> x in rows[..|rows| - 1] || x == row;
      if row.status == "RUNNING" then r + [row] else r
  }

  /** Lines 57-61: the TASKS records of one table, in table order. */
  function TasksRecords(v: Vars, elapsed: string, appID: string, rows: seq<TaskRow>): seq<string>
    decreases |rows|
  {
    if |rows| == 0 then []
    else
      var row := rows[|rows| - 1];
      TasksRecords(v, elapsed, appID, rows[..|rows| - 1])
        + (if row.status == "RUNNING" then [TasksRecord(v, elapsed, appID, row)] else [])
  }

  /** Exactly one TASKS record per RUNNING row, in table order. */
  lemma {:induction false} TasksPerRunningRow(v: Vars, elapsed: string, appID: string, rows: seq<TaskRow>)
    ensures var rr := RunningRows(rows);
      var r := TasksRecords(v, elapsed, appID, rows);
      |r| == |rr| && forall i :: 0 <= i < |r| ==> r[i] == TasksRecord(v, elapsed, appID, rr[i])
    decreases |rows|
  {
    if |rows| > 0 {
      TasksPerRunningRow(v, elapsed, appID, rows[..|rows| - 1]);
    }
  }

  // ----------------------------------------------------------------- stages

  /** One stage of lines 45-61: an ACTIVE stage sets `stageID`, then its
      name (if that lookup fails the pass ends), then its table is scanned.
      A table that cannot be fetched or parsed ends the pass; one in which
      `pd.read_html` finds no table raises ValueError, which ends the
      program. */
  function StageStep(o: Outcome, elapsed: string, appID: string, st: Stage): Outcome
  {
    if st.status != "ACTIVE" then o
    else
      var v1 := o.vars.(stageID := st.stageId);
      if st.name.None? then Outcome(v1, o.out, Caught)
      else
        var v2 := v1.(stageName := st.name.value);
        match st.taskTable
        case Unreadable => Outcome(v2, o.out, Caught)
        case NoTable => Outcome(v2, o.out, Fatal)
        case Scraped(rows) => Outcome(v2, o.out + TasksRecords(v2, elapsed, appID, rows), Completed)
  }

  /** Lines 45-61 over the stages in list order; only the stage id and name
      change. */
  function StagesSpec(v: Vars, elapsed: string, appID: string, stages: seq<Stage>): (o: Outcome)
    ensures o.vars == v.(stageID := o.vars.stageID, stageName := o.vars.stageName)
    decreases |stages|
  {
    if |stages| == 0 then Outcome(v, [], Completed)
    else
      var o := StagesSpec(v, elapsed, appID, stages[..|stages| - 1]);
      if !o.verdict.Completed? then o else StageStep(o, elapsed, appID, stages[|stages| - 1])
  }

  /** Once a stage has ended the pass, the later stages change nothing. */
  lemma {:induction false} StagesAbortSticky(v: Vars, elapsed: string, appID: string, stages: seq<Stage>, k: nat)
    requires k <= |stages| && !StagesSpec(v, elapsed, appID, stages[..k]).verdict.Completed?
    ensures StagesSpec(v, elapsed, appID, stages) == StagesSpec(v, elapsed, appID, stages[..k])
    decreases |stages| - k
  {
    if k < |stages| {
      assert stages[..|stages| - 1][..k] == stages[..k];
      StagesAbortSticky(v, elapsed, appID, stages[..|stages| - 1], k);
    } else {
      assert stages[..k] == stages;
    }
  }

  /** The stage section runs to its end exactly when every ACTIVE stage's name
      and table can be fetched; the stage id and name are then those of the
      last ACTIVE stage, or unchanged when there is none. */
  lemma {:induction false} LastActiveStageWins(v: Vars, elapsed: string, appID: string, stages: seq<Stage>)
    ensures var o := StagesSpec(v, elapsed, appID, stages);
      o.verdict.Completed? <==> forall j :: 0 <= j < |stages| && stages[j].status == "ACTIVE" ==>
        stages[j].name.Some? && stages[j].taskTable.Scraped?
    ensures var o := StagesSpec(v, elapsed, appID, stages);
      o.verdict.Completed? ==> match LastActive(stages)
        case None => o.vars == v
        case Some(k) => o.vars == v.(stageID := stages[k].stageId, stageName := stages[k].name.value)
    decreases |stages|
  {
    if |stages| > 0 {
      var init := stages[..|stages| - 1];
      var st := stages[|stages| - 1];
      LastActiveStageWins(v, elapsed, appID, init);
      LastActiveSnoc(init, st);
      assert init + [st] == stages;
      assert forall j :: 0 <= j < |init| ==> init[j] == stages[j];
    }
  }

  /** An ACTIVE stage whose name or table cannot be had. */
  predicate Broken(st: Stage)
  {
    st.status == "ACTIVE" && (st.name.None? || !st.taskTable.Scraped?)
  }

  /** The first broken stage, if any. */
  function FirstBroken(stages: seq<Stage>): (r: Option<nat>)
    ensures r.None? ==> forall j :: 0 <= j < |stages| ==> !Broken(stages[j])
    ensures r.Some? ==>
      r.value < |stages| && Broken(stages[r.value]) && forall j :: 0 <= j < r.value ==> !Broken(stages[j])
    decreases |stages|
  {
    if |stages| == 0 then None
    else
      var init := stages[..|stages| - 1];
      var r := FirstBroken(init);
      assert forall j :: 0 <= j < |init| ==> init[j] == stages[j];
      if r.Some? then r
      else if Broken(stages[|stages| - 1]) then Some(|stages| - 1)
      else None
  }

  /** The stage section ends at the first broken stage, with that stage's id:
      it ends the program exactly when the stage has a name and its page
      holds no table. With no broken stage it runs to its end. */
  lemma {:induction false} StagesEnd(v: Vars, elapsed: string, appID: string, stages: seq<Stage>)
    ensures var o := StagesSpec(v, elapsed, appID, stages);
      match FirstBroken(stages)
      case None => o.verdict == Completed
      case Some(k) =>
        && o.verdict == (if stages[k].name.Some? && stages[k].taskTable.NoTable? then Fatal else Caught)
        && o.vars.stageID == stages[k].stageId
        && o == StagesSpec(v, elapsed, appID, stages[..k + 1])
    decreases |stages|
  {
    if |stages| > 0 {
      var init := stages[..|stages| - 1];
      StagesEnd(v, elapsed, appID, init);
      match FirstBroken(init)
      case Some(k) =>
        assert init[..k + 1] == stages[..k + 1];
        StagesAbortSticky(v, elapsed, appID, stages, k + 1);
      case None =>
        assert stages[..|stages|] == stages;
    }
  }

  /** The number of RUNNING rows over the tables of ACTIVE stages. */
  function ActiveRunning(stages: seq<Stage>): nat
    decreases |stages|
  {
    if |stages| == 0 then 0
    else
      var st := stages[|stages| - 1];
      ActiveRunning(stages[..|stages| - 1])
        + (if st.status == "ACTIVE" && st.taskTable.Scraped? then |RunningRows(st.taskTable.rows)| else 0)
  }

  /** A stage section that runs to its end writes one TASKS record per
      RUNNING row of every ACTIVE stage, and every record it writes carries
      the executor count, id and address the pass started with. */
  lemma {:induction false} StagesRecords(v: Vars, elapsed: string, appID: string, stages: seq<Stage>)
    ensures var o := StagesSpec(v, elapsed, appID, stages);
      o.verdict.Completed? ==> |o.out| == ActiveRunning(stages)
    ensures var o := StagesSpec(v, elapsed, appID, stages);
      forall r :: r in o.out ==> TasksPrefix(v, elapsed, appID) <= r
    decreases |stages|
  {
    if |stages| > 0 {
      var init := stages[..|stages| - 1];
      var st := stages[|stages| - 1];
      StagesRecords(v, elapsed, appID, init);
      var o := StagesSpec(v, elapsed, appID, init);
      if o.verdict.Completed? && st.status == "ACTIVE" && st.name.Some? && st.taskTable.Scraped? {
        var v2 := o.vars.(stageID := st.stageId, stageName := st.name.value);
        var rows := st.taskTable.rows;
        TasksPerRunningRow(v2, elapsed, appID, rows);
        var added := TasksRecords(v2, elapsed, appID, rows);
        assert TasksPrefix(v2, elapsed, appID) == TasksPrefix(v, elapsed, appID);
        forall i | 0 <= i < |added|
          ensures TasksPrefix(v, elapsed, appID) <= added[i]
        {
          TasksRecordPrefix(v2, elapsed, appID, RunningRows(rows)[i]);
        }
      }
    }
  }

  // -------------------------------------------------------------- executors

  function SumBlocks(ws: seq<Executor>): int
    decreases |ws|
  {
    if |ws| == 0 then 0 else SumBlocks(ws[..|ws| - 1]) + ws[|ws| - 1].rddBlocks
  }

  function SumTasks(ws: seq<Executor>): int
    decreases |ws|
  {
    if |ws| == 0 then 0 else SumTasks(ws[..|ws| - 1]) + ws[|ws| - 1].totalTasks
  }

  /** The state of the executor loop: variables, records, whether it ran on,
      and the two integer sums. */
  datatype Totals = Totals(vars: Vars, out: seq<string>, ok: bool, tblock: int, ttasks: int)

  /** Lines 77-90 over the executors `ws`: each sets `executorID` and
      `hostPort`, then an executor without cores ends the pass
      (ZeroDivisionError at line 83); otherwise the sums grow and a NODES
      record is written. Only the executor id and address change. */
  function ExecutorsLoop(v: Vars, elapsed: string, appID: string, ws: seq<Executor>): (t: Totals)
    ensures t.vars == v.(executorID := t.vars.executorID, hostPort := t.vars.hostPort)
    decreases |ws|
  {
    if |ws| == 0 then Totals(v, [], true, 0, 0)
    else
      var t := ExecutorsLoop(v, elapsed, appID, ws[..|ws| - 1]);
      if !t.ok then t
      else
        var e := ws[|ws| - 1];
        var v1 := t.vars.(executorID := e.id, hostPort := e.hostPort);
        if e.totalCores == 0 then Totals(v1, t.out, false, t.tblock, t.ttasks)
        else Totals(v1, t.out + [NodesRecord(v1, elapsed, appID, e)], true,
                    t.tblock + e.rddBlocks, t.ttasks + e.totalTasks)
  }

  lemma {:induction false} ExecutorsAbortSticky(v: Vars, elapsed: string, appID: string, ws: seq<Executor>, k: nat)
    requires k <= |ws| && !ExecutorsLoop(v, elapsed, appID, ws[..k]).ok
    ensures ExecutorsLoop(v, elapsed, appID, ws) == ExecutorsLoop(v, elapsed, appID, ws[..k])
    decreases |ws| - k
  {
    if k < |ws| {
      assert ws[..|ws| - 1][..k] == ws[..k];
      ExecutorsAbortSticky(v, elapsed, appID, ws[..|ws| - 1], k);
    } else {
      assert ws[..k] == ws;
    }
  }

  /** The loop runs to its end exactly when every executor has cores;
      `tblock` and `ttasks` are then the sums of `rddBlocks` and
      `totalTasks`, one record is written per executor, and the id and
      address are the last executor's. */
  lemma {:induction false} ExecutorsLoopTotals(v: Vars, elapsed: string, appID: string, ws: seq<Executor>)
    ensures var t := ExecutorsLoop(v, elapsed, appID, ws);
      t.ok <==> forall i :: 0 <= i < |ws| ==> ws[i].totalCores != 0
    ensures var t := ExecutorsLoop(v, elapsed, appID, ws);
      t.ok ==> t.tblock == SumBlocks(ws) && t.ttasks == SumTasks(ws) && |t.out| == |ws|
    ensures var t := ExecutorsLoop(v, elapsed, appID, ws);
      t.ok && |ws| > 0 ==> t.vars == v.(executorID := ws[|ws| - 1].id, hostPort := ws[|ws| - 1].hostPort)
    decreases |ws|
  {
    if |ws| > 0 {
      var init := ws[..|ws| - 1];
      ExecutorsLoopTotals(v, elapsed, appID, init);
      assert forall i :: 0 <= i < |init| ==> init[i] == ws[i];
    }
  }

  /** The NODES records of a loop that runs to its end: one per executor,
      in list order, each written with that executor's id and address. */
  lemma {:induction false} ExecutorsLoopRecords(v: Vars, elapsed: string, appID: string, ws: seq<Executor>)
    ensures var t := ExecutorsLoop(v, elapsed, appID, ws);
      t.ok ==> |t.out| == |ws| && forall i :: 0 <= i < |ws| ==>
        t.out[i] == NodesRecord(v.(executorID := ws[i].id, hostPort := ws[i].hostPort), elapsed, appID, ws[i])
    decreases |ws|
  {
    if |ws| > 0 {
      var init := ws[..|ws| - 1];
      ExecutorsLoopRecords(v, elapsed, appID, init);
      ExecutorsLoopTotals(v, elapsed, appID, ws);
      var t := ExecutorsLoop(v, elapsed, appID, ws);
      if t.ok {
        var t0 := ExecutorsLoop(v, elapsed, appID, init);
        assert t.out == t0.out + [NodesRecord(t.vars, elapsed, appID, ws[|ws| - 1])];
        forall i | 0 <= i < |ws|
          ensures t.out[i] == NodesRecord(v.(executorID := ws[i].id, hostPort := ws[i].hostPort), elapsed, appID, ws[i])
        {
          if i < |init| {
            assert init[i] == ws[i];
          }
        }
      }
    }
  }

  /** Lines 65-95 once the executor list is known: the driver entry is
      deleted (IndexError on an empty list ends the pass), `executors`
      becomes the number left, the loop runs, then TOTAL is written and
      SCALE when there are executors. With no executors the float sums are
      still the integer 0. */
  function ExecutorsSection(v: Vars, elapsed: string, appID: string, spark: seq<Executor>, f: Floats): (o: Outcome)
    ensures o.vars == v.(executors := o.vars.executors, executorID := o.vars.executorID, hostPort := o.vars.hostPort)
  {
    match RemoveDriver(spark)
    case None => Outcome(v, [], Caught)
    case Some(ws) =>
      var t := ExecutorsLoop(v.(executors := |ws|), elapsed, appID, ws);
      if !t.ok then Outcome(t.vars, t.out, Caught)
      else Outcome(t.vars, t.out + TotalsRecords(t.vars, elapsed, appID, t.tblock, t.ttasks, f), Completed)
  }

  /** Lines 91-95: TOTAL, then SCALE when `executors > 0`; with no executors
      the float sums are still the integer 0. */
  function TotalsRecords(v: Vars, elapsed: string, appID: string, tblock: int, ttasks: int, f: Floats): seq<string>
  {
    var n := v.executors;
    [TotalRecord(v, elapsed, appID, IntToString(tblock), IntToString(ttasks),
       if n == 0 then "0" else f.tdurat, if n == 0 then "0" else f.tinput)]
    + (if n > 0 then [ScaleRecord(v, elapsed, appID, f)] else [])
  }

  /** An empty executor list ends the pass with nothing changed. Otherwise
      `executors` is the number of entries minus the driver, whether or not
      the executor loop then ends the pass; when the section runs to its end,
      the NODES records are followed by one TOTAL record holding the sums,
      and a SCALE record follows exactly when `executors > 0`. */
  lemma ExecutorsSectionFacts(v: Vars, elapsed: string, appID: string, spark: seq<Executor>, f: Floats)
    ensures |spark| == 0 ==> ExecutorsSection(v, elapsed, appID, spark, f) == Outcome(v, [], Caught)
    ensures var o := ExecutorsSection(v, elapsed, appID, spark, f);
      (o.verdict.Completed? ==> |spark| > 0) && (|spark| > 0 ==> o.vars.executors == |spark| - 1)
    ensures var o := ExecutorsSection(v, elapsed, appID, spark, f);
      o.verdict.Completed? ==>
        var ws := RemoveDriver(spark).value;
        var n := |ws|;
        && |o.out| == (if n > 0 then n + 2 else n + 1)
        && o.out[n] == TotalRecord(o.vars, elapsed, appID, IntToString(SumBlocks(ws)), IntToString(SumTasks(ws)),
             if n == 0 then "0" else f.tdurat, if n == 0 then "0" else f.tinput)
        && (n > 0 ==> o.out[n + 1] == ScaleRecord(o.vars, elapsed, appID, f))
  {
    if |spark| > 0 {
      var ws := RemoveDriver(spark).value;
      ExecutorsLoopTotals(v.(executors := |ws|), elapsed, appID, ws);
    }
  }

  // ------------------------------------------------------------------ phase

  /** Lines 99-109 on the text of the last control-log line: it is logged
      without its first two and last four characters, split on '|', and
      field 5 stripped gives the status. START takes the stripped field 7 as
      the phase and the first character of field 10 as the interval; END
      resets both; a missing field ends the pass (after START has already
      set the phase when only field 10 is missing or empty). */
  function PhaseSpec(v: Vars, line: string): (o: Outcome)
    ensures o.vars == v.(myStage := o.vars.myStage, myInterval := o.vars.myInterval)
    ensures |o.out| == 1
  {
    var out := [PySlice(line, 2, -4)];
    var arr := Split(line, '|');
    if |arr| < 6 then Outcome(v, out, Caught)
    else
      var status := PyStrip(arr[5]);
      if status == "START" then
        if |arr| < 8 then Outcome(v, out, Caught)
        else
          var v1 := v.(myStage := PyStrip(arr[7]));
          if |arr| < 11 || |arr[10]| == 0 then Outcome(v1, out, Caught)
          else Outcome(v1.(myInterval := arr[10][..1]), out, Completed)
      else if status == "END" then Outcome(v.(myStage := "None", myInterval := "-1"), out, Completed)
      else Outcome(v, out, Completed)
  }

  predicate PipeFree(fields: seq<string>)
  {
    forall i :: 0 <= i < |fields| ==> '|' !in fields[i]
  }

  /** A control line made of fields joined by '|' moves the phase by its
      stripped field 5. START with fields 7 and 10 present (field 10 not
      empty) sets the phase and the interval. */
  lemma PhaseStart(v: Vars, fields: seq<string>)
    requires |fields| >= 11 && PipeFree(fields)
    requires PyStrip(fields[5]) == "START" && fields[10] != ""
    ensures var o := PhaseSpec(v, Join(fields, "|"));
      o.verdict.Completed? && o.vars == v.(myStage := PyStrip(fields[7]), myInterval := [fields[10][0]])
  {
    var line := Join(fields, "|");
    SplitJoin(fields, '|');
    assert fields[10][..1] == [fields[10][0]];
    assert PhaseSpec(v, line) == Outcome(v.(myStage := PyStrip(fields[7]), myInterval := [fields[10][0]]),
      [PySlice(line, 2, -4)], Completed);
  }

  /** END resets the phase to "None" and the interval to "-1". */
  lemma PhaseEnd(v: Vars, fields: seq<string>)
    requires |fields| >= 6 && PipeFree(fields) && PyStrip(fields[5]) == "END"
    ensures var o := PhaseSpec(v, Join(fields, "|"));
      o.verdict.Completed? && o.vars == v.(myStage := "None", myInterval := "-1")
  {
    SplitJoin(fields, '|');
  }

  /** Any other status leaves every variable as it was. */
  lemma PhaseOther(v: Vars, fields: seq<string>)
    requires |fields| >= 6 && PipeFree(fields)
    requires PyStrip(fields[5]) != "START" && PyStrip(fields[5]) != "END"
    ensures var o := PhaseSpec(v, Join(fields, "|"));
      o.verdict.Completed? && o.vars == v
  {
    SplitJoin(fields, '|');
  }

  /** A START line with a field 7 but no usable field 10 ends the pass with
      the phase already taken from field 7 and the interval unchanged. */
  lemma PhasePartialStart(v: Vars, fields: seq<string>)
    requires 8 <= |fields| && PipeFree(fields) && PyStrip(fields[5]) == "START"
    requires |fields| < 11 || fields[10] == ""
    ensures var o := PhaseSpec(v, Join(fields, "|"));
      o.verdict == Caught && o.vars == v.(myStage := PyStrip(fields[7]))
  {
    SplitJoin(fields, '|');
  }

  /** A line with fewer than six fields ends the pass with nothing changed. */
  lemma PhaseShortLine(v: Vars, fields: seq<string>)
    requires 1 <= |fields| < 6 && PipeFree(fields)
    ensures var o := PhaseSpec(v, Join(fields, "|"));
      o.verdict == Caught && o.vars == v
  {
    SplitJoin(fields, '|');
  }

  // ------------------------------------------------------------------- pass

  /** `o` after `first`: the records of both, the variables and the verdict
      of `o`. */
  function Then(first: Outcome, o: Outcome): Outcome
  {
    Outcome(o.vars, first.out + o.out, o.verdict)
  }

  /** Lines 98-109: nothing without `--nohup`; a failing `tail` ends the
      pass. */
  function NohupSpec(v: Vars, nohup: string, tail: Option<string>): (o: Outcome)
    ensures o.verdict != Fatal
  {
    if nohup == "" then Outcome(v, [], Completed)
    else if tail.None? then Outcome(v, [], Caught)
    else PhaseSpec(v, tail.value)
  }

  /** Lines 65-109 given the executor list, if it could be fetched. */
  function RestSpec(v: Vars, nohup: string, p: Poll, appID: string): (o: Outcome)
    ensures o.verdict != Fatal
  {
    if p.spark.None? then Outcome(v, [], Caught)
    else
      var o2 := ExecutorsSection(v, p.elapsed, appID, p.spark.value, p.floats);
      if !o2.verdict.Completed? then o2 else Then(o2, NohupSpec(o2.vars, nohup, p.tail))
  }

  /** One pass of the loop (lines 35-112) with the `--nohup` argument. Only
      the stage section can end the program. */
  function CycleSpec(v: Vars, nohup: string, p: Poll): (o: Outcome)
    ensures o.verdict == Fatal <==>
      p.app.Some? && p.stages.Some? && StagesSpec(v, p.elapsed, p.app.value, p.stages.value).verdict == Fatal
  {
    if p.app.None? || p.stages.None? then Outcome(v, [], Caught)
    else
      var o1 := StagesSpec(v, p.elapsed, p.app.value, p.stages.value);
      if !o1.verdict.Completed? then o1 else Then(o1, RestSpec(o1.vars, nohup, p, p.app.value))
  }

  /** Passes one after the other, from the given variables, until one of
      them ends the program (verdict Fatal); a caught error goes on with the
      next pass. */
  function RunSpec(v: Vars, nohup: string, polls: seq<Poll>): (o: Outcome)
    ensures o.verdict != Caught
    decreases |polls|
  {
    if |polls| == 0 then Outcome(v, [], Completed)
    else
      var o := RunSpec(v, nohup, polls[..|polls| - 1]);
      if o.verdict == Fatal then o
      else
        var c := CycleSpec(o.vars, nohup, polls[|polls| - 1]);
        Outcome(c.vars, o.out + c.out, if c.verdict == Fatal then Fatal else Completed)
  }

  /** The run up to pass `i` followed by that pass. */
  lemma RunStep(v: Vars, nohup: string, polls: seq<Poll>, i: nat)
    requires i < |polls| && RunSpec(v, nohup, polls[..i]).verdict == Completed
    ensures var o := RunSpec(v, nohup, polls[..i]);
      var c := CycleSpec(o.vars, nohup, polls[i]);
      RunSpec(v, nohup, polls[..i + 1]) == Outcome(c.vars, o.out + c.out, if c.verdict == Fatal then Fatal else Completed)
  {
    assert polls[..i + 1][..i] == polls[..i];
  }

  lemma AppendAssoc<T>(a: seq<T>, b: seq<T>, c: seq<T>)
    ensures a + b + c == a + (b + c)
  {
  }

  /** Once a pass has ended the program, the later passes change no variable
      and write no record. */
  lemma {:induction false} RunStopsAtFatal(v: Vars, nohup: string, polls: seq<Poll>, k: nat)
    requires k <= |polls| && RunSpec(v, nohup, polls[..k]).verdict == Fatal
    ensures RunSpec(v, nohup, polls) == RunSpec(v, nohup, polls[..k])
    decreases |polls| - k
  {
    if k < |polls| {
      assert polls[..|polls| - 1][..k] == polls[..k];
      RunStopsAtFatal(v, nohup, polls[..|polls| - 1], k);
    } else {
      assert polls[..k] == polls;
    }
  }

  /** A page without a task table for an ACTIVE stage whose name was found,
      with every earlier ACTIVE stage readable, ends the program in that
      pass: the run writes what that pass wrote up to that stage and
      nothing more. */
  lemma FatalStageEndsRun(v: Vars, nohup: string, p: Poll, rest: seq<Poll>, k: nat)
    requires p.app.Some? && p.stages.Some? && FirstBroken(p.stages.value) == Some(k)
    requires p.stages.value[k].name.Some? && p.stages.value[k].taskTable.NoTable?
    ensures var o := StagesSpec(v, p.elapsed, p.app.value, p.stages.value[..k + 1]);
      o.verdict == Fatal && RunSpec(v, nohup, [p] + rest) == o
  {
    var o1 := StagesSpec(v, p.elapsed, p.app.value, p.stages.value);
    StagesEnd(v, p.elapsed, p.app.value, p.stages.value);
    assert o1.verdict == Fatal;
    assert CycleSpec(v, nohup, p) == o1;
    var polls := [p] + rest;
    assert polls[..1][..0] == [] && polls[..1][0] == p;
    assert RunSpec(v, nohup, polls[..1]) == Outcome(o1.vars, [] + o1.out, Fatal);
    assert [] + o1.out == o1.out;
    RunStopsAtFatal(v, nohup, polls, 1);
  }

  predicate NoActiveStage(p: Poll)
  {
    p.stages.Some? ==> forall j :: 0 <= j < |p.stages.value| ==> p.stages.value[j].status != "ACTIVE"
  }

  /** A pass that sees no ACTIVE stage leaves the stage id and name alone. */
  lemma QuietPassKeepsStage(v: Vars, nohup: string, p: Poll)
    requires NoActiveStage(p)
    ensures CycleSpec(v, nohup, p).vars.stageID == v.stageID
    ensures CycleSpec(v, nohup, p).vars.stageName == v.stageName
  {
    if p.app.Some? && p.stages.Some? {
      LastActiveStageWins(v, p.elapsed, p.app.value, p.stages.value);
      assert LastActive(p.stages.value).None?;
    }
  }

  /** The stage id and name persist across passes that see no ACTIVE stage,
      whatever else those passes do. */
  lemma {:induction false} StagePersists(v: Vars, nohup: string, polls: seq<Poll>)
    requires forall i :: 0 <= i < |polls| ==> NoActiveStage(polls[i])
    ensures RunSpec(v, nohup, polls).vars.stageID == v.stageID
    ensures RunSpec(v, nohup, polls).vars.stageName == v.stageName
    decreases |polls|
  {
    if |polls| > 0 {
      var init := polls[..|polls| - 1];
      assert forall i :: 0 <= i < |init| ==> init[i] == polls[i];
      StagePersists(v, nohup, init);
      QuietPassKeepsStage(RunSpec(v, nohup, init).vars, nohup, polls[|polls| - 1]);
    }
  }

  /** In every pass, the TASKS records come first and carry the executor
      count, id and address left by the previous pass: -1, "-1" and "" in
      the first one. */
  lemma TasksUsePreviousExecutor(v: Vars, nohup: string, p: Poll)
    requires p.app.Some? && p.stages.Some?
    ensures var c := CycleSpec(v, nohup, p);
      var o1 := StagesSpec(v, p.elapsed, p.app.value, p.stages.value);
      o1.out <= c.out && forall r :: r in o1.out ==> TasksPrefix(v, p.elapsed, p.app.value) <= r
  {
    StagesRecords(v, p.elapsed, p.app.value, p.stages.value);
  }

  /** In the first pass the executor count and id print as -1 and the
      address is empty. */
  lemma FirstPassTasksPrefix(elapsed: string, appID: string)
    ensures TasksPrefix(Initial(), elapsed, appID) == "TASKS||" + elapsed + "|" + appID + "|-1|-1||"
  {
    assert IntToString(-1) == "-1";
    var parts := ["TASKS", "", elapsed, appID, "-1", "-1", ""];
    assert Join(parts[6..], "|") == "";
    assert Join(parts[5..], "|") == "-1" + "|" + "";
    assert Join(parts[4..], "|") == "-1" + "|" + Join(parts[5..], "|");
    assert Join(parts[3..], "|") == appID + "|" + Join(parts[4..], "|");
    assert Join(parts[2..], "|") == elapsed + "|" + Join(parts[3..], "|");
    assert Join(parts[1..], "|") == "" + "|" + Join(parts[2..], "|");
    assert Join(parts, "|") == "TASKS" + "|" + Join(parts[1..], "|");
  }

  // ---------------------------------------------------------------- program

  /** The loop-carried variables of `main` and the records written so far. */
  class TelemetryLogger {
    var stageID: int
    var stageName: string
    var executors: int
    var executorID: string
    var hostPort: string
    var myStage: string
    var myInterval: string
    var log: seq<string>

    function State(): Vars
      reads this
    {
      Vars(stageID, stageName, executors, executorID, hostPort, myStage, myInterval)
    }

    /** Lines 27-33. */
    constructor ()
      ensures State() == Initial() && log == []
    {
      stageID := -1;
      stageName := "";
      executors := -1;
      executorID := "-1";
      hostPort := "";
      myStage := "";
      myInterval := "";
      log := [];
    }

    /** Lines 57-61: the task table of the current stage. */
    method ScanTaskTable(elapsed: string, appID: string, rows: seq<TaskRow>)
      modifies this
      ensures State() == old(State())
      ensures log == old(log) + TasksRecords(old(State()), elapsed, appID, rows)
    {
      for j := 0 to |rows|
        invariant State() == old(State())
        invariant log == old(log) + TasksRecords(State(), elapsed, appID, rows[..j])
      {
        assert rows[..j + 1][..j] == rows[..j];
        if rows[j].status == "RUNNING" {
          log := log + [TasksRecord(State(), elapsed, appID, rows[j])];
        }
      }
      assert rows[..|rows|] == rows;
    }

    /** Lines 45-61. */
    method ScanStages(elapsed: string, appID: string, stages: seq<Stage>) returns (verdict: Verdict)
      modifies this
      ensures var o := StagesSpec(old(State()), elapsed, appID, stages);
        State() == o.vars && log == old(log) + o.out && verdict == o.verdict
    {
      ghost var v0 := State();
      for i := 0 to |stages|
        invariant var o := StagesSpec(v0, elapsed, appID, stages[..i]);
          o.verdict.Completed? && State() == o.vars && log == old(log) + o.out
      {
        assert stages[..i + 1][..i] == stages[..i];
        var stage := stages[i];
        if stage.status == "ACTIVE" {
          stageID := stage.stageId;
          if stage.name.None? {
            StagesAbortSticky(v0, elapsed, appID, stages, i + 1);
            return Caught;
          }
          stageName := stage.name.value;
          match stage.taskTable {
            case Unreadable =>
              StagesAbortSticky(v0, elapsed, appID, stages, i + 1);
              return Caught;
            case NoTable =>
              StagesAbortSticky(v0, elapsed, appID, stages, i + 1);
              return Fatal;
            case Scraped(rows) =>
              ScanTaskTable(elapsed, appID, rows);
          }
        }
      }
      assert stages[..|stages|] == stages;
      verdict := Completed;
    }

    /** Lines 77-90 over the executors left after deleting the driver. */
    method ScanExecutors(elapsed: string, appID: string, workers: seq<Executor>)
      returns (ok: bool, tblock: int, ttasks: int)
      modifies this
      ensures var t := ExecutorsLoop(old(State()), elapsed, appID, workers);
        State() == t.vars && log == old(log) + t.out && ok == t.ok
        && (ok ==> tblock == t.tblock && ttasks == t.ttasks)
    {
      ghost var v0 := State();
      tblock := 0;
      ttasks := 0;
      for i := 0 to |workers|
        invariant var t := ExecutorsLoop(v0, elapsed, appID, workers[..i]);
          t.ok && State() == t.vars && log == old(log) + t.out && tblock == t.tblock && ttasks == t.ttasks
      {
        assert workers[..i + 1][..i] == workers[..i];
        var cores := workers[i].totalCores;
        executorID := workers[i].id;
        hostPort := workers[i].hostPort;
        var rddBlocks := workers[i].rddBlocks;
        var totalTasks := workers[i].totalTasks;
        if cores == 0 {
          ExecutorsAbortSticky(v0, elapsed, appID, workers, i + 1);
          return false, tblock, ttasks;
        }
        tblock := tblock + rddBlocks;
        ttasks := ttasks + totalTasks;
        log := log + [NodesRecord(State(), elapsed, appID, workers[i])];
      }
      assert workers[..|workers|] == workers;
      ok := true;
    }

    /** Lines 91-95: the TOTAL record, then SCALE when there are executors. */
    method WriteTotals(elapsed: string, appID: string, tblock: int, ttasks: int, f: Floats)
      modifies this
      ensures State() == old(State())
      ensures log == old(log) + TotalsRecords(State(), elapsed, appID, tblock, ttasks, f)
    {
      var tdurat := if executors == 0 then "0" else f.tdurat;
      var tinput := if executors == 0 then "0" else f.tinput;
      log := log + [TotalRecord(State(), elapsed, appID, IntToString(tblock), IntToString(ttasks), tdurat, tinput)];
      if executors > 0 {
        log := log + [ScaleRecord(State(), elapsed, appID, f)];
      }
    }

    /** Lines 65-95 given the decoded executor list. */
    method AggregateExecutors(elapsed: string, appID: string, spark: seq<Executor>, f: Floats) returns (ok: bool)
      modifies this
      ensures var o := ExecutorsSection(old(State()), elapsed, appID, spark, f);
        State() == o.vars && log == old(log) + o.out && ok == o.verdict.Completed?
    {
      ghost var v0 := State();
      var driverNode := FindDriverNode(spark);
      if |spark| == 0 {
        assert ExecutorsSection(v0, elapsed, appID, spark, f) == Outcome(v0, [], Caught);
        return false;
      }
      var workers := spark[..driverNode] + spark[driverNode + 1..];
      assert RemoveDriver(spark) == Some(workers);
      executors := |workers|;
      ghost var v1 := v0.(executors := |workers|);
      assert State() == v1;
      ghost var log0 := log;
      var tblock, ttasks;
      ok, tblock, ttasks := ScanExecutors(elapsed, appID, workers);
      ghost var t := ExecutorsLoop(v1, elapsed, appID, workers);
      if !ok {
        assert ExecutorsSection(v0, elapsed, appID, spark, f) == Outcome(t.vars, t.out, Caught);
        return;
      }
      WriteTotals(elapsed, appID, tblock, ttasks, f);
      ghost var totals := TotalsRecords(t.vars, elapsed, appID, t.tblock, t.ttasks, f);
      assert ExecutorsSection(v0, elapsed, appID, spark, f) == Outcome(t.vars, t.out + totals, Completed);
      AppendAssoc(log0, t.out, totals);
    }

    /** Lines 99-109 given the text of `str(out.stdout)`. */
    method TrackPhase(line: string) returns (ok: bool)
      modifies this
      ensures var o := PhaseSpec(old(State()), line);
        State() == o.vars && log == old(log) + o.out && ok == o.verdict.Completed?
    {
      log := log + [PySlice(line, 2, -4)];
      var arr := Split(line, '|');
      if |arr| < 6 {
        return false;
      }
      var myStatus := PyStrip(arr[5]);
      if myStatus == "START" {
        if |arr| < 8 {
          return false;
        }
        myStage := PyStrip(arr[7]);
        if |arr| < 11 || |arr[10]| == 0 {
          return false;
        }
        myInterval := arr[10][..1];
      }
      if myStatus == "END" {
        myStage := "None";
        myInterval := "-1";
      }
      ok := true;
    }

    /** Lines 98-109. */
    method FollowPhase(nohup: string, tail: Option<string>) returns (ok: bool)
      modifies this
      ensures var o := NohupSpec(old(State()), nohup, tail);
        State() == o.vars && log == old(log) + o.out && ok == o.verdict.Completed?
    {
      if nohup == "" {
        return true;
      }
      if tail.None? {
        return false;
      }
      ok := TrackPhase(tail.value);
    }

    /** Lines 65-109. */
    method AfterStages(nohup: string, p: Poll, appID: string) returns (ok: bool)
      modifies this
      ensures var o := RestSpec(old(State()), nohup, p, appID);
        State() == o.vars && log == old(log) + o.out && ok == o.verdict.Completed?
    {
      if p.spark.None? {
        return false;
      }
      ok := AggregateExecutors(p.elapsed, appID, p.spark.value, p.floats);
      if !ok {
        return;
      }
      ghost var log1 := log;
      ok := FollowPhase(nohup, p.tail);
      assert log == log1 + NohupSpec(ExecutorsSection(old(State()), p.elapsed, appID, p.spark.value, p.floats).vars, nohup, p.tail).out;
    }

    /** One pass of the loop (lines 35-112). */
    method Cycle(nohup: string, p: Poll) returns (verdict: Verdict)
      modifies this
      ensures var o := CycleSpec(old(State()), nohup, p);
        State() == o.vars && log == old(log) + o.out && verdict == o.verdict
    {
      if p.app.None? || p.stages.None? {
        return Caught;
      }
      ghost var o1 := StagesSpec(old(State()), p.elapsed, p.app.value, p.stages.value);
      verdict := ScanStages(p.elapsed, p.app.value, p.stages.value);
      if verdict != Completed {
        assert CycleSpec(old(State()), nohup, p) == o1;
        return;
      }
      ghost var log1 := log;
      var ok := AfterStages(nohup, p, p.app.value);
      ghost var o2 := RestSpec(o1.vars, nohup, p, p.app.value);
      assert CycleSpec(old(State()), nohup, p) == Then(o1, o2);
      assert log == log1 + o2.out;
      verdict := if ok then Completed else Caught;
    }

    /** Pass `i` of a run that has not ended. */
    method Pass(ghost v0: Vars, ghost log0: seq<string>, nohup: string, polls: seq<Poll>, i: nat)
      returns (ended: bool)
      requires i < |polls|
      requires var o := RunSpec(v0, nohup, polls[..i]);
        o.verdict == Completed && State() == o.vars && log == log0 + o.out
      modifies this
      ensures var o := RunSpec(v0, nohup, polls[..i + 1]);
        State() == o.vars && log == log0 + o.out && ended == (o.verdict == Fatal)
    {
      ghost var o := RunSpec(v0, nohup, polls[..i]);
      ghost var c := CycleSpec(o.vars, nohup, polls[i]);
      var verdict := Cycle(nohup, polls[i]);
      assert State() == c.vars && log == log0 + o.out + c.out && verdict == c.verdict;
      RunStep(v0, nohup, polls, i);
      ghost var n := RunSpec(v0, nohup, polls[..i + 1]);
      assert n == Outcome(c.vars, o.out + c.out, if c.verdict == Fatal then Fatal else Completed);
      AppendAssoc(log0, o.out, c.out);
      ended := verdict == Fatal;
    }

    /** The `while True` loop over a finite run of passes: a caught error
        goes on with the next pass, an uncaught one ends the program, and
        `ended` says whether one did. */
    method Run(nohup: string, polls: seq<Poll>) returns (ended: bool)
      modifies this
      ensures var o := RunSpec(old(State()), nohup, polls);
        State() == o.vars && log == old(log) + o.out && ended == (o.verdict == Fatal)
    {
      ghost var v0 := State();
      ended := false;
      var i := 0;
      while i < |polls| && !ended
        invariant 0 <= i <= |polls|
        invariant var o := RunSpec(v0, nohup, polls[..i]);
          State() == o.vars && log == old(log) + o.out && ended == (o.verdict == Fatal)
      {
        ended := Pass(v0, old(log), nohup, polls, i);
        i := i + 1;
      }
      if ended {
        RunStopsAtFatal(v0, nohup, polls, i);
      }
      assert polls[..|polls|] == polls;
    }
  }
}
