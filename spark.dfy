/** What the two pollers read from the job-tracking REST API and web UI,
    after JSON decoding or HTML table scraping (both outside the model), and
    the steps both pollers take in the same way: finding and deleting the
    driver entry of the executor list, and finding the last active stage. */
module Spark {
  import opened Text

  /** One entry of `.../applications/{id}/executors`. The two float values
      the pollers derive from it are kept as the text Python prints for them. */
  datatype Executor = Executor(
    id: string,
    hostPort: string,
    totalCores: int,
    activeTasks: int,
    totalTasks: int,
    rddBlocks: int,
    durationText: string,  // round(totalDuration / (float(totalCores) * 1000.0), 2)
    inputText: string)     // round(totalInputBytes / (1024.0 * 1024.0), 2)

  /** One row of the "task-table" of a stage page, with the columns the
      logger prints. */
  datatype TaskRow = TaskRow(
    id: string,
    locality: string,
    launchTime: string,
    duration: string,
    gcTime: string,
    input: string,
    status: string)

  /** What scraping the "task-table" of a stage page gives: its rows;
      `Unreadable` when fetching or parsing the page, finding the element,
      dropping columns 2, 5 and 6 or reading the Status column raises an
      OSError, KeyError or IndexError; `NoTable` when `pd.read_html` finds no
      table in the element and raises ValueError. */
  datatype TaskTable = Scraped(rows: seq<TaskRow>) | Unreadable | NoTable

  /** One entry of `.../applications/{id}/stages`, with what the pollers fetch
      for it when it is active: `name` is `tasks[0]['name']` of
      `.../stages/{stageId}` (None when that request, its decoding or the
      lookup fails) and `taskTable` the scraped task table. */
  datatype Stage = Stage(
    stageId: int,
    status: string,
    name: Option<string>,
    taskTable: TaskTable)

  predicate IsDriver(e: Executor)
  {
    e.id == "driver"
  }

  /** The index the driver search loop leaves in `driver_node`: the last
      entry whose id is "driver", or 0 when there is none. */
  function DriverIndex(spark: seq<Executor>): (d: nat)
    ensures |spark| == 0 ==> d == 0
    ensures |spark| > 0 ==> d < |spark|
    ensures d > 0 ==> IsDriver(spark[d])
    ensures forall j :: d < j < |spark| ==> !IsDriver(spark[j])
    decreases |spark|
  {
    if |spark| == 0 then 0
    else if IsDriver(spark[|spark| - 1]) then |spark| - 1
    else DriverIndex(spark[..|spark| - 1])
  }

  /** The three properties of the search pin its result down. */
  lemma DriverIndexUnique(spark: seq<Executor>, d: nat)
    requires |spark| == 0 ==> d == 0
    requires |spark| > 0 ==> d < |spark|
    requires d > 0 ==> IsDriver(spark[d])
    requires forall j :: d < j < |spark| ==> !IsDriver(spark[j])
    ensures d == DriverIndex(spark)
  {
  }

  /** The index loop that looks for the driver entry. */
  method FindDriverNode(spark: seq<Executor>) returns (driverNode: nat)
    ensures |spark| > 0 ==> driverNode < |spark|
    ensures |spark| == 0 ==> driverNode == 0
    ensures driverNode > 0 ==> IsDriver(spark[driverNode])
    ensures forall j :: driverNode < j < |spark| ==> !IsDriver(spark[j])
    ensures driverNode == DriverIndex(spark)
  {
    driverNode := 0;
    for node := 0 to |spark|
      invariant driverNode == 0 || driverNode < node
      invariant driverNode > 0 ==> IsDriver(spark[driverNode])
      invariant forall j :: driverNode < j < node ==> !IsDriver(spark[j])
    {
      if IsDriver(spark[node]) {
        driverNode := node;
      }
    }
    DriverIndexUnique(spark, driverNode);
  }

  /** `del spark[driver_node]`: the list without the entry at DriverIndex,
      or None where Python raises IndexError (an empty list). */
  function RemoveDriver(spark: seq<Executor>): (r: Option<seq<Executor>>)
    ensures r.None? <==> |spark| == 0
    ensures r.Some? ==> |r.value| == |spark| - 1
  {
    if |spark| == 0 then None
    else
      var d := DriverIndex(spark);
      Some(spark[..d] + spark[d + 1..])
  }

  /** Exactly the driver entry goes: the others stay, in their order, and the
      whole list is the remainder plus that one entry. */
  lemma RemoveDriverKeepsOthers(spark: seq<Executor>)
    requires |spark| > 0
    ensures var d := DriverIndex(spark);
      var r := RemoveDriver(spark).value;
      && (forall i :: 0 <= i < d ==> r[i] == spark[i])
      && (forall i :: d <= i < |r| ==> r[i] == spark[i + 1])
      && multiset(r) + multiset{spark[d]} == multiset(spark)
  {
    var d := DriverIndex(spark);
    assert spark == spark[..d] + [spark[d]] + spark[d + 1..];
  }

  /** With exactly one driver entry, none remains after removal. */
  lemma SoleDriverExcluded(spark: seq<Executor>, i: nat)
    requires i < |spark| && IsDriver(spark[i])
    requires forall j :: 0 <= j < |spark| && j != i ==> !IsDriver(spark[j])
    ensures RemoveDriver(spark).Some?
    ensures forall e :: e in RemoveDriver(spark).value ==> !IsDriver(e)
  {
    var d := DriverIndex(spark);
    assert d == i;
    var r := RemoveDriver(spark).value;
    forall e | e in r
      ensures !IsDriver(e)
    {
      var k :| 0 <= k < |r| && r[k] == e;
      if k < d {
        assert e == spark[k];
      } else {
        assert e == spark[k + 1];
      }
    }
  }

  /** Without a driver entry the first executor is deleted instead. */
  lemma NoDriverDropsFirst(spark: seq<Executor>)
    requires |spark| > 0
    requires forall j :: 0 <= j < |spark| ==> !IsDriver(spark[j])
    ensures RemoveDriver(spark) == Some(spark[1..])
  {
    assert DriverIndex(spark) == 0;
    assert spark[..0] + spark[1..] == spark[1..];
  }

  /** The index of the last stage whose status is "ACTIVE", if any. */
  function LastActive(stages: seq<Stage>): (r: Option<nat>)
    ensures r.Some? ==> r.value < |stages| && stages[r.value].status == "ACTIVE"
    ensures r.Some? ==> forall j :: r.value < j < |stages| ==> stages[j].status != "ACTIVE"
    ensures r.None? ==> forall j :: 0 <= j < |stages| ==> stages[j].status != "ACTIVE"
    decreases |stages|
  {
    if |stages| == 0 then None
    else if stages[|stages| - 1].status == "ACTIVE" then Some(|stages| - 1)
    else LastActive(stages[..|stages| - 1])
  }

  lemma LastActiveSnoc(stages: seq<Stage>, st: Stage)
    ensures LastActive(stages + [st]) ==
      if st.status == "ACTIVE" then Some(|stages|) else LastActive(stages)
  {
    assert (stages + [st])[..|stages|] == stages;
  }
}
