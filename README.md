# Flock-workflow helper scripts, modelled in Dafny

The repository's runnable code is a handful of operational scripts that
support a flock-detection workflow on a Spark cluster. This project models
four of them and proves what their code does:

- **The dashboard** (`Scripts/Python/monitor.py`). Each cycle it polls the
  executor list of the running application and deletes the driver entry. For
  each of the first three executors it clamps the active-task count to the
  core count and appends it to a rolling series of width 125. When that series
  has become constant it appends one perturbed value, then draws the series
  and trims it back to its window. Finally it shows the last active stage. The
  model is a `Dashboard` class whose field holds the three series. Its methods
  are proved against the pure step functions `SlotStep`, `SlotsFrom` and
  `CycleSpec`.
- **The telemetry logger** (`Scripts/Python/pflock_logger.py`). Its endless
  loop writes pipe-separated records:
  - TASKS: one per RUNNING task of every ACTIVE stage;
  - NODES: one per executor;
  - TOTAL: one per pass;
  - SCALE: one per pass when there are executors.

  It then follows the START/END phase lines of a control log. Seven variables
  live across passes. A caught error ends a pass early, and whatever was
  already updated or written stays. A ValueError from `pd.read_html` on a
  stage page without a table is not caught and ends the program. Each pass
  therefore ends with a verdict: `Completed`, `Caught` or `Fatal`. The model is a `TelemetryLogger` class
  with those seven variables and the records written so far. Each method is
  proved against a function (`StagesSpec`, `ExecutorsLoop`,
  `ExecutorsSection`, `PhaseSpec`, `CycleSpec`, `RunSpec`).
- **The pattern miner's own code** (`PFlock/src/main/scala/SPMF/LCM.java`).
  - `readFile` splits each line on single spaces, Java-style, and parses
    every token as a 32-bit integer.
  - `getSortedPatternsAsStrings` builds each itemset's line with a
    StringBuilder, trims it, and sorts the lines in String order. An in-place
    insertion sort on an array stands in for the JDK's merge sort behind
    `Collections.sort`. Any sort into that order gives the same list
    (`SortedUnique`).
- **The not-found point saver** (`Scripts/Python/NotFoundFlockSaver.py`).
  - It reads a tab-separated point file into a dict; a later line wins.
  - It reads flock lines of space-separated point ids.
  - It collects the set of `pid\tx\ty\t0\n` records of every id in any flock.
  - It names the output file after epsilon, mu and delta.

  Python, Java and Spark primitives the scripts rely on are written out once
  in module `Text` (`text.dfy`):
  - `str.split`, `str.strip`, `String.trim` and Java's `split(" ")`;
  - `str(int)`, `int()` and `Integer.parseInt` with its 32-bit range;
  - Java's `String.compareTo` order.

  The executor and stage records, and the two steps both pollers share
  (finding and deleting the driver entry, finding the last ACTIVE stage), are
  in module `Spark` (`spark.dfy`).

What the REST calls, JSON decoding and HTML scraping return is an input to
the model. `None` stands for a request, decoding or lookup that raises an
error.

## Behaviour worth noting

- The dashboard resets the stage id and name to `0` and `""` on every cycle.
  It does not keep the previous cycle's values.
- An empty executor list, or an executor without cores, ends the dashboard
  program. Both errors come from code outside any `try` (lines 42 and 63).
- The dashboard's progress scrape (lines 137-147) can also end the program.
  The ValueErrors come from unpacking the counter into two names, from
  `float()`, and from `pd.read_html`, and the `except` at line 149 does not
  list ValueError. The stage header at line 141 appears only once the
  counter has been read.
- The logger catches the errors listed at line 111, but ValueError is not
  among them. When `pd.read_html` at line 54 finds no table in an active
  stage's "task-table" element, the logger ends. The records already
  written stay, and no later pass runs.
- A logger pass that stops at a caught error keeps the variables it had
  already updated. Examples: the stage id at line 48 before a failing name
  lookup, and the phase at line 105 before a missing field 10. State is not
  left untouched.

## Model

| member | source | states |
|---|---|---|
| Spark.DriverIndex | Scripts/Python/monitor.py:38-41 | The index picked is the last entry whose id is "driver", or 0 when there is none; every entry after it is not the driver |
| Spark.DriverIndexUnique | Scripts/Python/pflock_logger.py:67-70 | Those properties determine the index uniquely |
| Spark.FindDriverNode | Scripts/Python/pflock_logger.py:67-70 | The index loop ends with the last driver position (0 without one); it equals DriverIndex |
| Spark.RemoveDriver | Scripts/Python/monitor.py:42 | `del spark[driver_node]` fails (IndexError) exactly on an empty list; otherwise one element fewer |
| Spark.RemoveDriverKeepsOthers | Scripts/Python/pflock_logger.py:71 | Entries before the driver stay in place, later ones shift down by one, and the multiset loses exactly that one entry |
| Spark.SoleDriverExcluded | Scripts/Python/pflock_logger.py:67-71 | With exactly one driver entry, no driver remains after removal |
| Spark.NoDriverDropsFirst | Scripts/Python/monitor.py:38-42 | Without a driver entry the first executor is deleted instead |
| Spark.LastActive | Scripts/Python/pflock_logger.py:45-48 | The index found is that of an ACTIVE stage with no ACTIVE stage after it; None means no stage is ACTIVE |
| Monitor.InitialSeriesNotFlat | Scripts/Python/monitor.py:16-22 | The 1 appended to the zeros makes the first chart non-flat: the initial series is not constant and its maximum is 1 |
| Monitor.Clamp | Scripts/Python/monitor.py:46-49 | The sample is `min(activeTasks, totalCores)`: at most both, equal to one |
| Monitor.SingleValueIffConstant | Scripts/Python/monitor.py:51 | `len(set(series)) == 1` holds exactly for a non-empty constant series |
| Monitor.AppendSampleShape | Scripts/Python/monitor.py:50-57 | If the series became constant, exactly one more value is appended, one below the sample when it equals the core count and one above otherwise; else only the sample |
| Monitor.PlottedNotFlat | Scripts/Python/monitor.py:50-58 | The list handed to `plot` always holds at least two distinct values |
| Monitor.AppendWithPerturbation | Scripts/Python/monitor.py:50-57 | The append, `set`, `pop` and second append give AppendSample's list, with at least two distinct values |
| Monitor.TrimKeepsLast | Scripts/Python/monitor.py:66-68 | Reverse, `[0:width]`, reverse keeps exactly the last `width` samples, or all of them when fewer |
| Monitor.Max | Scripts/Python/monitor.py:59 | `max(series)` is an element and bounds every element |
| Monitor.SlotPanel | Scripts/Python/monitor.py:46-59 | The drawn sample is the clamp, it follows the old series in the plotted list, the label row is never above the chart's first row, and the plot is not flat |
| Monitor.SlotKeepsWindow | Scripts/Python/monitor.py:50-68 | A series with at least `width` samples leaves a processed slot with exactly `width`, the last ones of the plotted list |
| Monitor.SlotsFromStep | Scripts/Python/monitor.py:44-120 | Doing slot k and then the later slots gives the same series, panels and crash verdict as doing them all from slot k |
| Monitor.SlotsUpdatedInOrder | Scripts/Python/monitor.py:44-120 | Slots at or beyond the executor count keep their series; without a crash every other slot got its own step, which did not crash |
| Monitor.SlotsKeepWindow | Scripts/Python/monitor.py:66-68 | Without a crash every drawn slot leaves with exactly `width` samples |
| Monitor.StageHeader | Scripts/Python/monitor.py:123-134 | The stage section gets past its loop exactly when every ACTIVE stage's name lookup succeeds |
| Monitor.HeaderIsLastActive | Scripts/Python/monitor.py:126-134 | After the stage loop, `stageId` and `stageName` are those of the last ACTIVE stage, or 0 and "" when none is active |
| Monitor.SelectStage | Scripts/Python/monitor.py:126-134 | The stage loop yields StageHeader |
| Monitor.DrawPanel | Scripts/Python/monitor.py:46-59 | The clamp, append and label row give the slot step's panel |
| Monitor.TrimToWidth | Scripts/Python/monitor.py:66-68 | The three statements give Trim, i.e. the last `width` samples |
| Monitor.CycleSpec | Scripts/Python/monitor.py:29-147 | A cycle keeps exactly three series |
| Monitor.ProgressStep | Scripts/Python/monitor.py:137-147 | Definition of how the progress scrape ends: a caught error before the header, the header drawn, or a fatal ValueError |
| Monitor.CounterWithoutSlashEnds | Scripts/Python/monitor.py:137 | A counter text without `/` cannot be unpacked into `complete, total`, and the ValueError ends the program |
| Monitor.CounterShowsHeader | Scripts/Python/monitor.py:137-144 | For a counter `complete/total` of two numbers with a non-zero total, the header is shown exactly when the task table reads without ValueError and the program ends exactly when it does not |
| Monitor.StageFrame | Scripts/Python/monitor.py:123-147 | Definition of the stage section and progress scrape after the panels: header shown, hidden, or program ended |
| Monitor.ShownHeaderIsLastActive | Scripts/Python/monitor.py:123-147 | In a drawn frame the panels are kept, and the header is present exactly when the stages request, the stage loop and the progress scrape reach line 141; it is then the last ACTIVE stage, or 0 and "" |
| Monitor.Dashboard.constructor | Scripts/Python/monitor.py:16-22 | Three series of width zeros and a 1; the window invariant holds |
| Monitor.Dashboard.UpdateSlot | Scripts/Python/monitor.py:44-68 | Slot k's series becomes its step's series, the others are unchanged, and without a crash the window invariant holds with exactly `width` samples in slot k |
| Monitor.Dashboard.DrawSlots | Scripts/Python/monitor.py:44-120 | The three `if len(spark) > k` blocks give SlotsFrom's series, panels and crash verdict |
| Monitor.Dashboard.Cycle | Scripts/Python/monitor.py:25-150 | One pass of the loop gives CycleSpec's series and frame; the window invariant survives every cycle that does not crash |
| Logger.FormatFields | Scripts/Python/pflock_logger.py:61 | A record splits back on '\|' into its tag and exactly its first `holes` arguments |
| Logger.TasksRecordPrefix | Scripts/Python/pflock_logger.py:61 | A TASKS record starts with the phase, time, application, executor count, id and address |
| Logger.TotalFields | Scripts/Python/pflock_logger.py:91 | TOTAL holds nine fields after its tag, the duration sum last; the tenth argument `tinput` is dropped |
| Logger.RunningRows | Scripts/Python/pflock_logger.py:57-59 | The rows kept are RUNNING rows of the table, and every RUNNING row is kept |
| Logger.TasksPerRunningRow | Scripts/Python/pflock_logger.py:57-61 | Exactly one TASKS record per RUNNING row, in table order |
| Logger.StagesSpec | Scripts/Python/pflock_logger.py:45-61 | The stage section changes only the stage id and name |
| Logger.StagesAbortSticky | Scripts/Python/pflock_logger.py:111 | Once a stage ends the pass, the later stages change nothing |
| Logger.LastActiveStageWins | Scripts/Python/pflock_logger.py:45-54 | The section runs to its end exactly when every ACTIVE stage's name and table can be read; the id and name are then the last ACTIVE stage's, or unchanged without one |
| Logger.FirstBroken | Scripts/Python/pflock_logger.py:47-58 | The first ACTIVE stage whose name or table cannot be read; with none, every stage is readable |
| Logger.StagesEnd | Scripts/Python/pflock_logger.py:45-61 | The section stops at the first such stage, with that stage's id. It ends the program exactly when the name was found and `read_html` finds no table, and otherwise the pass. Without one it runs to its end |
| Logger.StagesRecords | Scripts/Python/pflock_logger.py:45-61 | A completed section writes one record per RUNNING row of every ACTIVE stage, and every record carries the executor fields the pass started with |
| Logger.ExecutorsLoop | Scripts/Python/pflock_logger.py:77-90 | The executor loop changes only the executor id and address |
| Logger.ExecutorsAbortSticky | Scripts/Python/pflock_logger.py:83 | After an executor without cores ends the pass, later executors change nothing |
| Logger.ExecutorsLoopTotals | Scripts/Python/pflock_logger.py:72-90 | The loop completes exactly when every executor has cores; `tblock` and `ttasks` are then the sums, one record per executor, and the id and address are the last executor's |
| Logger.ExecutorsLoopRecords | Scripts/Python/pflock_logger.py:79-90 | The NODES records are one per executor, in list order, each with that executor's id and address |
| Logger.ExecutorsSection | Scripts/Python/pflock_logger.py:65-95 | The executor section changes only the executor count, id and address |
| Logger.ExecutorsSectionFacts | Scripts/Python/pflock_logger.py:71-95 | An empty list ends the pass with nothing changed; otherwise `executors` is the list length minus the driver, even when the loop then ends the pass; a completed section has one record per executor, then one TOTAL holding the block and task sums ("0" for the float sums without executors), then SCALE exactly when `executors > 0` |
| Logger.PhaseSpec | Scripts/Python/pflock_logger.py:101-109 | Phase tracking logs one line and changes only the phase and interval |
| Logger.PhaseStart | Scripts/Python/pflock_logger.py:103-106 | START sets the phase to stripped field 7 and the interval to the first character of field 10 |
| Logger.PhaseEnd | Scripts/Python/pflock_logger.py:107-109 | END sets "None" and "-1" |
| Logger.PhaseOther | Scripts/Python/pflock_logger.py:103-109 | Any other status leaves every variable alone |
| Logger.PhasePartialStart | Scripts/Python/pflock_logger.py:105-106 | START without a usable field 10 ends the pass with the phase already set and the interval unchanged |
| Logger.PhaseShortLine | Scripts/Python/pflock_logger.py:103 | A line with fewer than six fields ends the pass with nothing changed |
| Logger.QuietPassKeepsStage | Scripts/Python/pflock_logger.py:45-48 | A pass that sees no ACTIVE stage keeps the stage id and name |
| Logger.StagePersists | Scripts/Python/pflock_logger.py:27-28 | Stage id and name persist across any number of passes that see no ACTIVE stage |
| Logger.TasksUsePreviousExecutor | Scripts/Python/pflock_logger.py:61 | TASKS records come first in a pass and carry the executor count, id and address left by the previous pass |
| Logger.FirstPassTasksPrefix | Scripts/Python/pflock_logger.py:29-31 | In the first pass they print as -1, -1 and an empty address |
| Logger.TelemetryLogger.constructor | Scripts/Python/pflock_logger.py:27-33 | The seven variables start as in `main`; nothing is logged |
| Logger.TelemetryLogger.ScanTaskTable | Scripts/Python/pflock_logger.py:57-61 | The table loop appends TasksRecords and changes no variable |
| Logger.TelemetryLogger.ScanStages | Scripts/Python/pflock_logger.py:45-61 | The stage loop gives StagesSpec's variables, records and verdict |
| Logger.TelemetryLogger.ScanExecutors | Scripts/Python/pflock_logger.py:77-90 | The executor loop gives ExecutorsLoop's variables, records, verdict and sums |
| Logger.TelemetryLogger.WriteTotals | Scripts/Python/pflock_logger.py:91-95 | TOTAL, then SCALE exactly when `executors > 0`, and no variable changes |
| Logger.TelemetryLogger.AggregateExecutors | Scripts/Python/pflock_logger.py:65-95 | Lines 65-95 give ExecutorsSection's variables, records and verdict |
| Logger.TelemetryLogger.TrackPhase | Scripts/Python/pflock_logger.py:101-109 | The phase parser gives PhaseSpec's variables, record and verdict |
| Logger.TelemetryLogger.FollowPhase | Scripts/Python/pflock_logger.py:98-109 | Lines 98-109 give NohupSpec's variables, records and verdict |
| Logger.TelemetryLogger.AfterStages | Scripts/Python/pflock_logger.py:65-109 | Executors then phase, as RestSpec |
| Logger.TelemetryLogger.Cycle | Scripts/Python/pflock_logger.py:35-112 | One pass gives CycleSpec's variables, records and verdict |
| Logger.TelemetryLogger.Pass | Scripts/Python/pflock_logger.py:34-112 | A pass of a run that has not ended gives RunSpec's variables, records and verdict one pass further |
| Logger.TelemetryLogger.Run | Scripts/Python/pflock_logger.py:34-112 | Any run of passes gives RunSpec's variables and records, and reports whether the program ended: a caught error goes on with the next pass, a fatal one stops the loop |
| Logger.RestSpec | Scripts/Python/pflock_logger.py:65-111 | Nothing after the stage section ends the program |
| Logger.CycleSpec | Scripts/Python/pflock_logger.py:35-112 | A pass ends the program exactly when its application and stage requests succeed and its stage section does |
| Logger.RunSpec | Scripts/Python/pflock_logger.py:34-112 | A run either goes through every pass or ends the program; a caught error never ends it |
| Logger.RunStopsAtFatal | Scripts/Python/pflock_logger.py:34-112 | Once a pass has ended the program, the later passes change no variable and write no record |
| Logger.FatalStageEndsRun | Scripts/Python/pflock_logger.py:35-54 | A first broken stage whose page has no table ends the run in that pass: it writes exactly what the stage section wrote up to that stage |
| Lcm.DropTrailingEmpty | PFlock/src/main/scala/SPMF/LCM.java:17 | Java's split drops exactly the trailing empty strings: a prefix, ending in a non-empty one |
| Lcm.ParseEach | PFlock/src/main/scala/SPMF/LCM.java:15-25 | The result exists exactly when every text parses, and then holds each text's value in order |
| Lcm.ParseItems | PFlock/src/main/scala/SPMF/LCM.java:19-24 | The item loop yields ParseTokens: None as soon as `parseInt` throws |
| Lcm.ReadLine | PFlock/src/main/scala/SPMF/LCM.java:17-24 | Split then item loop yields ParseLine |
| Lcm.ReadFile | PFlock/src/main/scala/SPMF/LCM.java:10-29 | `readFile` yields ReadTransactions: one transaction per line in order, None when a token is not an integer |
| Lcm.BuilderIsPatternAndSpace | PFlock/src/main/scala/SPMF/LCM.java:34-37 | For a non-empty itemset the builder holds the pattern and one trailing space |
| Lcm.BuilderTrim | PFlock/src/main/scala/SPMF/LCM.java:38 | Trimming the builder gives the pattern; an empty itemset gives "" |
| Lcm.PatternString | PFlock/src/main/scala/SPMF/LCM.java:34-38 | The StringBuilder loop and `trim()` give the items in decimal joined by single spaces |
| Lcm.SortInPlace | PFlock/src/main/scala/SPMF/LCM.java:40 | The array ends sorted in String order and a permutation of what it held |
| Lcm.InsertAt | PFlock/src/main/scala/SPMF/LCM.java:40 | One insertion pass extends the sorted prefix by one element; the elements after it stay where they were, and the prefix and the whole array keep their multisets |
| Lcm.SinkDown | PFlock/src/main/scala/SPMF/LCM.java:40 | The swap loop leaves the moved element after a neighbour that does not exceed it and before every later prefix element, with the elements after the prefix untouched and the multiset kept |
| Lcm.SwapAdjacent | PFlock/src/main/scala/SPMF/LCM.java:40 | Two neighbours trade places and nothing else changes |
| Lcm.PatternStrings | PFlock/src/main/scala/SPMF/LCM.java:33-39 | The outer loop gives one pattern line per itemset, in order |
| Lcm.GetSortedPatternsAsStrings | PFlock/src/main/scala/SPMF/LCM.java:31-43 | As many lines as itemsets, a permutation of their pattern lines (duplicates kept), sorted |
| Lcm.SortedUnique | PFlock/src/main/scala/SPMF/LCM.java:40 | Two sorted permutations of one list are equal, so the result is determined |
| Lcm.TextualOrder | PFlock/src/main/scala/SPMF/LCM.java:40 | The itemsets [2] and [10] come out as "10" before "2" |
| Lcm.ParseDecimals | PFlock/src/main/scala/SPMF/LCM.java:22 | `parseInt` reads back the decimals of 32-bit items |
| Lcm.SplitPattern | PFlock/src/main/scala/SPMF/LCM.java:17 | Splitting a non-empty pattern line gives the items' decimals |
| Lcm.PatternReadsBack | PFlock/src/main/scala/SPMF/LCM.java:17-24 | Reading a non-empty itemset's line gives the itemset back |
| Lcm.PatternsReadBack | PFlock/src/main/scala/SPMF/LCM.java:10-29 | A file of pattern lines of non-empty itemsets reads back as those itemsets |
| Lcm.EmptyPatternUnreadable | PFlock/src/main/scala/SPMF/LCM.java:17-22 | The empty itemset's line is "", and reading "" throws |
| Lcm.TrailingSpaceTolerated | PFlock/src/main/scala/SPMF/LCM.java:17 | A trailing space after a pattern line is harmless |
| Lcm.SplitSpaceOfJoin | PFlock/src/main/scala/SPMF/LCM.java:17 | A line joined from space-free tokens, the last non-empty, splits back into them |
| Lcm.EmptyTokenRejected | PFlock/src/main/scala/SPMF/LCM.java:17-22 | An empty token anywhere (leading or doubled space) makes the line unreadable |
| Lcm.SplitQuirks | PFlock/src/main/scala/SPMF/LCM.java:17-22 | "" and " 1" and "1  2" throw; " " is an empty transaction |
| Text.Split | Scripts/Python/NotFoundFlockSaver.py:24 | `str.split(c)` gives at least one part, none containing `c`, that join back to the text |
| Text.SplitJoin | Scripts/Python/pflock_logger.py:102 | Splitting fields joined by a separator they avoid gives the fields back |
| Text.JavaParseInt | PFlock/src/main/scala/SPMF/LCM.java:22 | `Integer.parseInt` succeeds only within the 32-bit range, and only on text that neither starts nor ends with a space |
| Text.JavaParseIntOfToString | PFlock/src/main/scala/SPMF/LCM.java:22 | It reads back every 32-bit decimal |
| Text.IntToStringInjective | Scripts/Python/NotFoundFlockSaver.py:40 | Distinct integers print differently |
| Text.PyParseIntReadsBack | Scripts/Python/NotFoundFlockSaver.py:25 | `int()` reads back `str(i)`, also with a trailing newline |
| Text.PyParseIntBlank | Scripts/Python/NotFoundFlockSaver.py:35 | `int()` of an empty or all-whitespace token raises ValueError |
| Text.IntToStringReadsBack | Scripts/Python/NotFoundFlockSaver.py:40 | The decimal rendering reads back as its integer |
| Text.PyParseIntOfStripped | Scripts/Python/NotFoundFlockSaver.py:35 | `int()` ignores surrounding whitespace around a decimal |
| Text.PyStripAround | Scripts/Python/pflock_logger.py:103-105 | `strip()` removes whitespace around text whose ends are not whitespace, and nothing else |
| Text.LexLeReflexive | PFlock/src/main/scala/SPMF/LCM.java:40 | String order is reflexive |
| Text.LexLeTotal | PFlock/src/main/scala/SPMF/LCM.java:40 | String order is total |
| Text.LexLeTransitive | PFlock/src/main/scala/SPMF/LCM.java:40 | String order is transitive |
| Text.LexLeAntisymmetric | PFlock/src/main/scala/SPMF/LCM.java:40 | String order is antisymmetric |
| Text.TenBeforeTwo | PFlock/src/main/scala/SPMF/LCM.java:40 | "10" precedes "2" and not the reverse |
| NotFound.FileLines | Scripts/Python/NotFoundFlockSaver.py:23 | Iterating a file gives lines that concatenate back to its content |
| NotFound.FileLinesShape | Scripts/Python/NotFoundFlockSaver.py:32-33 | Every line is non-empty with a newline only at its end, present unless it is the last, so `flock == ""` never holds |
| NotFound.BuildPointsOk | Scripts/Python/NotFoundFlockSaver.py:22-28 | The point file loads exactly when every line parses |
| NotFound.BuildPointsSticky | Scripts/Python/NotFoundFlockSaver.py:24-27 | The first failing line decides the error |
| NotFound.PointKeys | Scripts/Python/NotFoundFlockSaver.py:28 | The dict's keys are exactly the ids of the lines |
| NotFound.LastPointWins | Scripts/Python/NotFoundFlockSaver.py:28 | An id maps to the coordinate of its last line |
| NotFound.PointLineReadsBack | Scripts/Python/NotFoundFlockSaver.py:24-27 | A tab-separated `pid x y` line parses to its id and coordinate; a line with only an id raises IndexError |
| NotFound.ReadPoint | Scripts/Python/NotFoundFlockSaver.py:24-27 | The statements give ParsePoint: ValueError or IndexError at the first failing field |
| NotFound.LoadPoints | Scripts/Python/NotFoundFlockSaver.py:22-28 | The loop gives BuildPoints over the file's lines |
| NotFound.ParseInts | Scripts/Python/NotFoundFlockSaver.py:35 | `map(int, …)` succeeds exactly when every token parses, then holds each value in order; otherwise ValueError |
| NotFound.RecordInjective | Scripts/Python/NotFoundFlockSaver.py:40 | Records with different ids differ |
| NotFound.AddPids | Scripts/Python/NotFoundFlockSaver.py:36-40 | Adding a flock's records succeeds exactly when every id is a key; otherwise KeyError |
| NotFound.AddPidsSticky | Scripts/Python/NotFoundFlockSaver.py:37 | The first missing id ends the script |
| NotFound.AddFlock | Scripts/Python/NotFoundFlockSaver.py:36-40 | The inner loop gives AddPids |
| NotFound.NotFoundsSticky | Scripts/Python/NotFoundFlockSaver.py:32-40 | After a failing line, later lines change nothing |
| NotFound.NotFoundsSnoc | Scripts/Python/NotFoundFlockSaver.py:32-40 | One more line is one more FlockStep |
| NotFound.AddFlockLine | Scripts/Python/NotFoundFlockSaver.py:33-40 | One loop body gives FlockStep |
| NotFound.CollectNotFounds | Scripts/Python/NotFoundFlockSaver.py:30-40 | The loop gives NotFounds over the file's lines |
| NotFound.FlockStepOk | Scripts/Python/NotFoundFlockSaver.py:33-37 | A flock line succeeds exactly when it is empty, or its tokens parse and every id is a key |
| NotFound.NotFoundsOk | Scripts/Python/NotFoundFlockSaver.py:32-40 | The flock file succeeds exactly when every line does |
| NotFound.MissingIdRaises | Scripts/Python/NotFoundFlockSaver.py:37 | An id absent from the points ends the script with KeyError |
| NotFound.AddPidsImage | Scripts/Python/NotFoundFlockSaver.py:36-40 | The set grows by the records of the flock's distinct ids |
| NotFound.FlockStepImage | Scripts/Python/NotFoundFlockSaver.py:33-40 | A successful line's ids are keys and it adds their records |
| NotFound.NotFoundsImage | Scripts/Python/NotFoundFlockSaver.py:30-40 | On success every flock id is a key, and the set is exactly the records of the distinct ids |
| NotFound.ImageSize | Scripts/Python/NotFoundFlockSaver.py:31-40 | One record per distinct id: the set has as many records as ids |
| NotFound.EmptyTokenRaises | Scripts/Python/NotFoundFlockSaver.py:35 | An empty token (doubled or leading space) raises ValueError |
| NotFound.FlockQuirks | Scripts/Python/NotFoundFlockSaver.py:33-35 | A blank line "\n" and "1  2\n" raise ValueError |
| NotFound.FlockLineTokens | Scripts/Python/NotFoundFlockSaver.py:35 | Splitting a written flock line gives the decimals, the last one with the newline |
| NotFound.FlockTokensParse | Scripts/Python/NotFoundFlockSaver.py:35 | Each of those tokens reads back as its id |
| NotFound.ParseIntsPointwise | Scripts/Python/NotFoundFlockSaver.py:35 | Tokens that each read back give the list of their values |
| NotFound.FlockLineReadsBack | Scripts/Python/NotFoundFlockSaver.py:35 | A non-empty flock written as space-separated decimals with a newline parses back to itself |
| NotFound.OutputFilenameInjective | Scripts/Python/NotFoundFlockSaver.py:41 | Different parameters (epsilon text without '_') give different file names |
| NotFound.NameParts | Scripts/Python/NotFoundFlockSaver.py:41 | When epsilon and mu avoid '_', the name determines all three of its parts |
| NotFound.SavedLines | Scripts/Python/NotFoundFlockSaver.py:17-45 | When the script succeeds, every flock id is in the point file and the output is one record per distinct flock id |
| NotFound.SaveNotFounds | Scripts/Python/NotFoundFlockSaver.py:17-41 | The script gives SaveSpec: parameter errors first, then the point file, then the flocks, then the file name and the set |
| Monitor.AppendSample | Scripts/Python/monitor.py:50-57 | Definition of the append and perturbation, characterized by AppendSampleShape and PlottedNotFlat |
| Monitor.Trim | Scripts/Python/monitor.py:66-68 | Definition of reverse, slice and reverse, characterized by TrimKeepsLast |
| Monitor.SlotStep | Scripts/Python/monitor.py:45-68 | Definition of one executor panel's block, characterized by SlotPanel and SlotKeepsWindow |
| Monitor.SlotsFrom | Scripts/Python/monitor.py:44-120 | Definition of the three guarded panel blocks in order; three series come out |
| Logger.TasksRecord | Scripts/Python/pflock_logger.py:61 | Definition of the TASKS record, characterized by FormatFields and TasksRecordPrefix |
| Logger.NodesRecord | Scripts/Python/pflock_logger.py:89 | Definition of the NODES record |
| Logger.TotalRecord | Scripts/Python/pflock_logger.py:91 | Definition of the TOTAL record, characterized by TotalFields |
| Logger.ScaleRecord | Scripts/Python/pflock_logger.py:94 | Definition of the SCALE record |
| Logger.TotalsRecords | Scripts/Python/pflock_logger.py:91-95 | Definition of the TOTAL and guarded SCALE records |
| Logger.StageStep | Scripts/Python/pflock_logger.py:46-61 | Definition of one stage of the stage loop: a failing name lookup or an unreadable table is caught, and a page without a table is fatal |
| Logger.NohupSpec | Scripts/Python/pflock_logger.py:98-109 | Definition of the control-log step: nothing without `--nohup`, a failing `tail` ends the pass |
| Lcm.JavaSplitSpace | PFlock/src/main/scala/SPMF/LCM.java:17 | Definition of `split(" ")`, characterized by SplitSpaceOfJoin and SplitQuirks |
| Lcm.Pattern | PFlock/src/main/scala/SPMF/LCM.java:34-38 | Definition of an itemset's line, characterized by BuilderTrim and PatternReadsBack |
| Lcm.ParseLine | PFlock/src/main/scala/SPMF/LCM.java:17-24 | Definition of reading one line |
| Lcm.ReadTransactions | PFlock/src/main/scala/SPMF/LCM.java:15-26 | Definition of reading every line |
| NotFound.ParsePoint | Scripts/Python/NotFoundFlockSaver.py:24-27 | Definition of reading one point line, characterized by PointLineReadsBack |
| NotFound.BuildPoints | Scripts/Python/NotFoundFlockSaver.py:22-28 | Definition of the point dictionary, characterized by BuildPointsOk, PointKeys and LastPointWins |
| NotFound.ParseFlock | Scripts/Python/NotFoundFlockSaver.py:35 | Definition of `list(map(int, flock.split(" ")))`, characterized by FlockLineReadsBack and FlockQuirks |
| NotFound.Record | Scripts/Python/NotFoundFlockSaver.py:40 | Definition of one output record, characterized by RecordInjective |
| NotFound.FlockStep | Scripts/Python/NotFoundFlockSaver.py:33-40 | Definition of one flock line's step |
| NotFound.NotFounds | Scripts/Python/NotFoundFlockSaver.py:30-40 | Definition of the collected set, characterized by NotFoundsOk and NotFoundsImage |
| NotFound.OutputFilename | Scripts/Python/NotFoundFlockSaver.py:41 | Definition of the output file name, characterized by OutputFilenameInjective |
| NotFound.SaveSpec | Scripts/Python/NotFoundFlockSaver.py:17-41 | Definition of the whole script's result, characterized by SavedLines |
| Text.PyStrip | Scripts/Python/pflock_logger.py:103 | Definition of `str.strip()`, characterized by PyStripAround |
| Text.JavaTrim | PFlock/src/main/scala/SPMF/LCM.java:38 | Definition of `String.trim()` |
| Text.PySlice | Scripts/Python/pflock_logger.py:101 | Definition of `s[i:j]` with negative bounds |
| Text.IntToString | Scripts/Python/NotFoundFlockSaver.py:40 | Definition of `str(int)`, characterized by IntToStringReadsBack and IntToStringInjective |
| Text.PyParseInt | Scripts/Python/NotFoundFlockSaver.py:25 | Definition of `int(str)`, characterized by PyParseIntReadsBack and PyParseIntBlank |
| Text.LexLe | PFlock/src/main/scala/SPMF/LCM.java:40 | Definition of `compareTo(b) <= 0`, characterized by the LexLe order lemmas |

## Left out

- HTTP requests, JSON decoding and the lxml/pandas scraping of task tables
  are not modelled. Their results are inputs:
  - decoded executor and stage records;
  - `None` for a request, decoding or lookup that raises;
  - for a task table, its rows, `Unreadable` for a caught OSError, KeyError
    or IndexError, or `NoTable` for the ValueError of `pd.read_html`.
- Errors that only JSON values of unexpected types could raise are not
  modelled. Examples: a ValueError or TypeError from `int()` of
  `startTimeEpoch` at line 39, or from a non-numeric executor field.
  Decoded records are well-typed.
- The curses screen, `plot`, the progress bar, `getch`/`flushinp` and
  `time.sleep` are UI and timing. The model keeps the list handed to `plot`,
  the sample and the label row. The `q` key that ends the dashboard loop is
  not modelled; a cycle is one call to `Dashboard.Cycle`.
- The dashboard's progress bar and ten-task table (monitor.py lines
  137-147) are not drawn in the model. What is kept is how the scrape ends.
  A caught error before line 141 hides the stage header. The ValueErrors of
  lines 137-139 and 144 end the program, since ValueError is not in the
  `except` tuple at line 149. A zero total's ZeroDivisionError at line 142
  is caught after the header is drawn. The scraped counter text and whether
  `pd.read_html` finds a table are inputs. What `float()` makes of a text
  (an error, zero, or another number) is a parameter.
- Floating point is not modelled:
  - `totalDuration / (cores * 1000)` and bytes to MB;
  - the float sums `tdurat` and `tinput` and the SCALE averages;
  - `timer(start)`;
  - `float()` of coordinates and epsilon.

  Each is opaque text: `Executor.durationText`, `Floats`, `Poll.elapsed` and
  the `toFloat` parameter. Only the ZeroDivisionError of an executor without
  cores is modelled.
- `spark[0]`-style lookups of missing JSON keys are not modelled. A decoded
  record always has its fields.
- `subprocess.run(["tail", …])` is not modelled; its `str(out.stdout)` text
  is an input. The logged slice `line[2:-4]` is computed on that text.
- The file `/tmp/SparkAppID` and the dashboard's application id are not
  modelled.
- argparse is not modelled, including a missing argument making
  `float(None)` raise TypeError. Logging is not modelled; the logger's
  records are the `log` sequence, without the timestamp `logging` puts in
  front.
- `isTimeToLog` and the `--time` argument are not modelled; they are never
  used.
- `AlgoLCM`, `Transactions`, `Itemsets`, `savePatterns` and LCM's `main` are
  not modelled. `getSortedPatternsAsStrings` takes the itemsets as a
  sequence.
- File I/O is not modelled. `readFile` takes the lines `readLine` delivers.
  NotFoundFlockSaver takes the files' contents and splits them as Python's
  file iteration does, after universal-newline translation, which is not
  modelled. `open()` errors are not modelled.
- The order in which the output file's lines are written is not modelled.
  It is Python's set iteration order, so the model keeps only the set.
- `int()` accepting non-ASCII Unicode digits is not modelled.
- `Character` values beyond UTF-16 code units in `compareTo` are not
  modelled.
- Other scripts of the repository are not part of this model.
- Lcm.ReadFile: `Integer.parseInt` is modelled for ASCII decimal text with
  an optional sign. Java's other accepted digit characters are not modelled.
