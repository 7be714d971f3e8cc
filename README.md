# JDBC connection registry

A model of `JdbcConnectionService`, the service of the Connection Module that
keeps a registry of named JDBC connections. The registry is four maps keyed by
connection name: the live connection handles, the connection configurations,
the last test result of each name, and the auto-test timers. Beside the maps
the model keeps the multiset of every timer started so far: the code never
cancels a timer, so one whose map entry was replaced, or whose connection was
stopped, keeps firing. The service
starts a connection (resolve the driver from the URL prefix, load it, open
the connection, register it, schedule periodic tests, run an initial test),
stops one, updates or lists configurations, tests a configuration on a fresh
connection and renders the probe query's result set as a fixed-width text
table, reports the last test result, and runs a sweep that schedules every
configuration with a positive interval that has no timer yet.

The JDBC driver, the database and `java.util.Timer` are not modelled; they
are values the operations receive:

- `Class.forName` is a set `classpath` of the driver classes that load; a
  missing one raises ClassNotFoundException whose message is the class name.
- `DriverManager.getConnection` in `startConnection` is an `Open` value: a
  `Connection` handle (a class with a `closed` flag, updated in place by
  `Close`) or the message of an SQLException.
- What the handle's `isClosed` and `close` throw in `stopConnection` are
  inputs too: for each call, nothing, an SQLException, or an unchecked
  exception, each with its message.
- A test's short-lived connection and its query are a `Probe`: whether the
  connection opened (and whether it reports itself closed), or the message of
  the SQLException or unchecked exception thrown while opening it or asking
  `isClosed`, and for each query
  either a result set (column names, rows of cells, `None` for SQL NULL, one
  cell per column in every row), an SQLException, or an unchecked exception
  from the driver (`Crashed`).
- `LocalDateTime.now()` is a `now` parameter, the timestamp's text.
- A timer is a value `Timer(task, periodMillis)` that holds the configuration
  captured when it was scheduled; one firing of a running timer is the `Fire`
  operation, and it tests that captured configuration.

Files: `model.dfy` (records and the values standing for the driver),
`drivers.dfy` (`getDriverClass`), `result_format.dfy` (`formatResultSet`),
`connection_test.dfy` (`testConnection`, `executeCustomQuery`),
`registry.dfy` (the registry as a value and what each operation makes of it,
with the lemmas), `service.dfy` (the class `JdbcConnectionService` with the
four maps as fields and the started timers as a ghost field; each method is proved against the function of
`Registry` that specifies it, and keeps `Registry.Valid`).

Behaviour of the code worth knowing:

- `stopConnection` removes only the live handle and the configuration; the
  timer keeps running and the last test result stays (`Registry.OrphanedTimer`).
- `scheduleAutoTest` replaces the name's map entry without cancelling the timer
  filed there before, so restarting a connection leaves two timers running
  (`Registry.RestartLeavesFirstTimerRunning`).
- `testConnection` catches only ClassNotFoundException and SQLException, so an
  unsupported URL makes it throw instead of returning a failure text
  (`ConnectionTest.UnsupportedUrlPropagates`).
- `startConnection` registers and schedules before the initial test; when that
  test throws, it reports failure yet the handle, configuration and timer stay
  registered (`Registry.ScheduledBeforeInitialTest`).
- A firing whose test throws records nothing; the exception is only logged
  (`Registry.FireRecords`).
- `updateConnection` does not reschedule: the name's timer keeps testing the
  configuration it captured, and the sweep does not replace it
  (`Registry.UpdateLeavesTimerStale`).
- `stopConnection` catches only SQLException: an unchecked exception from
  `isClosed` or `close` leaves it with every map unchanged
  (`Registry.StopOutcomes`).
- `getAllConnections` lists the configurations in the map's iteration order,
  which the model leaves unspecified.

## Model

| member | source | states |
|---|---|---|
| Drivers.GetDriverClass | connection/src/main/java/com/example/gotatva/service/JdbcConnectionService.java:168-179 | succeeds only with the driver class paired with a supported prefix the URL starts with; fails only with "Unsupported database URL: " + url when no supported prefix matches |
| Drivers.FirstMatch | connection/src/main/java/com/example/gotatva/service/JdbcConnectionService.java:168-179 | reference definition of driver resolution as "first prefix in the table that matches": succeeds exactly when some supported prefix matches, else fails with "Unsupported database URL: " + url |
| Drivers.GetDriverClassIsFirstMatch | connection/src/main/java/com/example/gotatva/service/JdbcConnectionService.java:168-179 | the if-chain tries h2, oracle, mysql, postgresql in that order and agrees with the first-match reference on every URL |
| Drivers.PrefixesExclusive | connection/src/main/java/com/example/gotatva/service/JdbcConnectionService.java:169-175 | no URL starts with two of the four supported prefixes, so the order of the checks never matters |
| Drivers.DriverOfPrefix | connection/src/main/java/com/example/gotatva/service/JdbcConnectionService.java:168-177 | a URL with a supported prefix resolves to that prefix's driver class |
| Drivers.UnsupportedUrl | connection/src/main/java/com/example/gotatva/service/JdbcConnectionService.java:178 | any other URL fails with "Unsupported database URL: " + url |
| ResultFormat.PadShape | connection/src/main/java/com/example/gotatva/service/JdbcConnectionService.java:153 | `%-20s` yields the cell followed only by spaces, exactly 20 characters unless the cell is longer, never truncated |
| ResultFormat.FormatCells | connection/src/main/java/com/example/gotatva/service/JdbcConnectionService.java:152-154 | the loop over columns appends each padded cell left to right, giving the specified line |
| ResultFormat.FormatResultSet | connection/src/main/java/com/example/gotatva/service/JdbcConnectionService.java:146-166 | the header loop and the row loop produce exactly the header line, a newline, and one line plus newline per row; a NULL cell renders as "null" |
| ResultFormat.CellsAligned | connection/src/main/java/com/example/gotatva/service/JdbcConnectionService.java:152-161 | when every cell fits in 20 characters, a line is 20 characters per cell and cell j sits at columns 20j to 20(j+1) |
| ResultFormat.ColumnsLineUp | connection/src/main/java/com/example/gotatva/service/JdbcConnectionService.java:149-163 | when every row has one cell per column and nothing is wider than 20 characters, each row line is as long as the header line and the cell of column j sits exactly under the header of column j |
| ResultFormat.PaddedCellsNoNewline | connection/src/main/java/com/example/gotatva/service/JdbcConnectionService.java:153 | padding adds no line break: a line of cells without newlines is one line |
| ResultFormat.RowLinesAreLines | connection/src/main/java/com/example/gotatva/service/JdbcConnectionService.java:158-163 | the row part splits into exactly one line per row, in result order |
| ResultFormat.FormattedLines | connection/src/main/java/com/example/gotatva/service/JdbcConnectionService.java:146-166 | unless a cell holds a newline, the table is exactly the header line followed by one line per row, in result order |
| ConnectionTest.TestQuery | connection/src/main/java/com/example/gotatva/service/JdbcConnectionService.java:117-119 | the test runs the custom query when one is set, otherwise "SELECT 1 as test_value" |
| ConnectionTest.ExecuteCustomQuery | connection/src/main/java/com/example/gotatva/service/JdbcConnectionService.java:134-144 | returns the "Query Results" banner and the formatted table, or lets the query's SQLException or unchecked exception through |
| ConnectionTest.TestConnection | connection/src/main/java/com/example/gotatva/service/JdbcConnectionService.java:100-132 | the StringBuilder version computes the specified outcome on every path: driver missing, connection failed, closed connection, query failed, success, thrown exception |
| ConnectionTest.TestConnected | connection/src/main/java/com/example/gotatva/service/JdbcConnectionService.java:108-123 | the try-with-resources block builds, on every path (connection failed or crashed, closed connection, query failed or crashed, success), the outcome the connected part of the test specifies |
| ConnectionTest.UnsupportedUrlPropagates | connection/src/main/java/com/example/gotatva/service/JdbcConnectionService.java:124-130 | an unsupported URL is not turned into text: the test throws with the "Unsupported database URL" message |
| ConnectionTest.AnswerColumnsLineUp | connection/src/main/java/com/example/gotatva/service/JdbcConnectionService.java:149-163 | every result set a driver answers has one cell per column in every row, so when nothing is wider than 20 characters each row's cell j sits exactly under header j |
| ConnectionTest.ThrowsExactly | connection/src/main/java/com/example/gotatva/service/JdbcConnectionService.java:104-130 | a test throws if and only if the URL is unsupported or the driver throws an unchecked exception while opening the connection, asking `isClosed` or running the test query |
| ConnectionTest.OnlyTestQueryMatters | connection/src/main/java/com/example/gotatva/service/JdbcConnectionService.java:116-121 | a test runs only its one query: two databases that answer that query alike give the same outcome |
| ConnectionTest.DefaultQueryUsed | connection/src/main/java/com/example/gotatva/service/JdbcConnectionService.java:117-119 | without a custom query the test runs "SELECT 1 as test_value" and reports its table |
| ConnectionTest.SuccessText | connection/src/main/java/com/example/gotatva/service/JdbcConnectionService.java:113-122 | a successful test's text is the success line with the URL, the results banner, then the table of the test query |
| Registry.PeriodMillis | connection/src/main/java/com/example/gotatva/service/JdbcConnectionService.java:55 | minutes times 60000 computed as a long never overflows, and is positive exactly for a positive interval |
| Registry.Sweep | connection/src/main/java/com/example/gotatva/service/JdbcConnectionService.java:189-196 | after the sweep every configuration with a positive interval has a timer, existing timers are kept as they were, only missing positive-interval configurations gain one, and the other maps are unchanged |
| Registry.SweepIdempotent | connection/src/main/java/com/example/gotatva/service/JdbcConnectionService.java:189-196 | a second sweep right after a first adds nothing |
| Registry.SweepPeriods | connection/src/main/java/com/example/gotatva/service/JdbcConnectionService.java:53-55 | every timer the sweep adds runs at the configuration's interval times 60000 ms, a positive period |
| Registry.StartPreservesValid | connection/src/main/java/com/example/gotatva/service/JdbcConnectionService.java:23-51 | a start keeps the registry invariant: handles have configurations, entries and timers are filed under their own names, timers only for positive intervals, every filed timer is running |
| Registry.RegisterPreservesValid | connection/src/main/java/com/example/gotatva/service/JdbcConnectionService.java:33-38 | registering and scheduling a connection keeps the registry invariant |
| Registry.StopPreservesValid | connection/src/main/java/com/example/gotatva/service/JdbcConnectionService.java:75-89 | a stop keeps the registry invariant |
| Registry.UpdatePreservesValid | connection/src/main/java/com/example/gotatva/service/JdbcConnectionService.java:95-98 | an update keeps the registry invariant |
| Registry.FirePreservesValid | connection/src/main/java/com/example/gotatva/service/JdbcConnectionService.java:57-69 | a firing of a running timer keeps the registry invariant |
| Registry.SweepPreservesValid | connection/src/main/java/com/example/gotatva/service/JdbcConnectionService.java:189-196 | a sweep keeps the registry invariant |
| Registry.StartFailsBeforeRegistering | connection/src/main/java/com/example/gotatva/service/JdbcConnectionService.java:25-50 | when driver resolution, driver loading or opening fails, all four maps are unchanged and the reply is "Failed to start connection: " + the exception's message |
| Registry.StartSucceeds | connection/src/main/java/com/example/gotatva/service/JdbcConnectionService.java:33-46 | a start whose initial test returns stores handle and request under the name (overwriting), files and starts a timer only for a positive interval while every earlier timer keeps running, records the text at `now`, and reports name and text |
| Registry.ScheduledBeforeInitialTest | connection/src/main/java/com/example/gotatva/service/JdbcConnectionService.java:36-50 | an initial test that throws leaves handle, configuration and timer registered and the timer running, records no result, and reports failure with the exception's message; only a driver's unchecked exception, while connecting or querying, gets there |
| Registry.StartThenLastTestResult | connection/src/main/java/com/example/gotatva/service/JdbcConnectionService.java:41-43 | after a start, the name's last result reports the initial test's text stamped `now` |
| Registry.StopNotFound | connection/src/main/java/com/example/gotatva/service/JdbcConnectionService.java:77-84 | with no handle under the name, or one that answers it is closed, stop changes nothing and says so |
| Registry.StopRemoves | connection/src/main/java/com/example/gotatva/service/JdbcConnectionService.java:78-82 | a stop that closes the handle removes exactly that name from the handle and configuration maps and touches nothing else |
| Registry.StopCloseFails | connection/src/main/java/com/example/gotatva/service/JdbcConnectionService.java:78-88 | when `isClosed` or `close` throws, nothing changes; an SQLException replies "Failed to stop connection: " + its message, any other exception propagates with its message |
| Registry.StopOutcomes | connection/src/main/java/com/example/gotatva/service/JdbcConnectionService.java:75-89 | stop changes the registry exactly when the handle exists, answers it is open and closes without an exception, and throws exactly when one of those calls throws an unchecked exception |
| Registry.StopKeepsTimersAndResults | connection/src/main/java/com/example/gotatva/service/JdbcConnectionService.java:75-89 | stop never cancels a timer, neither its map entry nor the running timer, and never changes a last test result |
| Registry.OrphanedTimer | connection/src/main/java/com/example/gotatva/service/JdbcConnectionService.java:36-38 | starting with a positive interval and then stopping leaves a filed, running timer with no configuration and no handle |
| Registry.StartRegisters | connection/src/main/java/com/example/gotatva/service/JdbcConnectionService.java:33-46 | once the connection is open, a start leaves the state exactly as registering and scheduling made it, apart from the test result it may record |
| Registry.RestartLeavesFirstTimerRunning | connection/src/main/java/com/example/gotatva/service/JdbcConnectionService.java:33-73 | starting a name twice with positive intervals files only the second timer, yet both timers run: the first is never cancelled |
| Registry.TimersOnlyAccumulate | connection/src/main/java/com/example/gotatva/service/JdbcConnectionService.java:23-98 | no operation stops a timer: start and sweep only add running timers, stop, update and a firing leave them as they were |
| Registry.UpdateOverwrites | connection/src/main/java/com/example/gotatva/service/JdbcConnectionService.java:95-98 | update overwrites only the name's configuration, whether or not it existed, returns the request, and touches no other map |
| Registry.UpdateThenList | connection/src/main/java/com/example/gotatva/service/JdbcConnectionService.java:91-98 | after an update, listing shows the new record and no other record under that name |
| Registry.FireRecords | connection/src/main/java/com/example/gotatva/service/JdbcConnectionService.java:57-69 | a firing tests the configuration its timer captured, and changes only the last result of that configuration's name, and only when the test returned |
| Registry.UpdateLeavesTimerStale | connection/src/main/java/com/example/gotatva/service/JdbcConnectionService.java:53-73 | after an update and a sweep, the name's timer is still the one filed before, still running, and tests the captured configuration even when the update changed it |
| Registry.LastTestResultTells | connection/src/main/java/com/example/gotatva/service/JdbcConnectionService.java:181-187 | the reply starts with "Last test at " exactly when a result is recorded for the name |
| Registry.EnumerationLists | connection/src/main/java/com/example/gotatva/service/JdbcConnectionService.java:91-93 | a list that takes each configuration once under its own name holds every configuration once and nothing else |
| Service.CopyValues | connection/src/main/java/com/example/gotatva/service/JdbcConnectionService.java:92 | copying the map's values gives every configuration exactly once and nothing else |
| Service.JdbcConnectionService.constructor | connection/src/main/java/com/example/gotatva/service/JdbcConnectionService.java:18-21 | the four maps start empty and valid |
| Service.JdbcConnectionService.StartConnection | connection/src/main/java/com/example/gotatva/service/JdbcConnectionService.java:23-51 | the new maps and the reply are those of the start function, the invariant is kept, and a replaced handle is not closed |
| Service.JdbcConnectionService.RegisterConnection | connection/src/main/java/com/example/gotatva/service/JdbcConnectionService.java:33-38 | the puts and the conditional scheduling of a start give the registration function's state |
| Service.JdbcConnectionService.ScheduleAutoTest | connection/src/main/java/com/example/gotatva/service/JdbcConnectionService.java:53-73 | starts a timer for the configuration at its period and files it under the name, replacing the map entry while the timer filed there before keeps running |
| Service.JdbcConnectionService.Fire | connection/src/main/java/com/example/gotatva/service/JdbcConnectionService.java:57-69 | a firing of a running timer tests the configuration the timer captured; its new state is the firing function's, and the invariant is kept |
| Service.JdbcConnectionService.StopConnection | connection/src/main/java/com/example/gotatva/service/JdbcConnectionService.java:75-89 | the new maps and the reply, or the propagated exception, are the stop function's for what the handle's `isClosed` answers and what its close throws; a successful close leaves the handle closed, and a failed or skipped close leaves its flag as it was |
| Service.JdbcConnectionService.GetAllConnections | connection/src/main/java/com/example/gotatva/service/JdbcConnectionService.java:91-93 | the list holds every configuration exactly once and nothing else |
| Service.JdbcConnectionService.GetLastTestResult | connection/src/main/java/com/example/gotatva/service/JdbcConnectionService.java:181-187 | reads the result map only and replies as the specification function says |
| Service.JdbcConnectionService.UpdateConnection | connection/src/main/java/com/example/gotatva/service/JdbcConnectionService.java:95-98 | the new maps and the returned record are the update function's, and the invariant is kept |
| Service.JdbcConnectionService.AutoTestConnections | connection/src/main/java/com/example/gotatva/service/JdbcConnectionService.java:189-196 | the loop over configurations yields exactly the sweep function's state, and the invariant is kept |
| Service.JdbcConnectionService.SweepConfigs | connection/src/main/java/com/example/gotatva/service/JdbcConnectionService.java:191-195 | after visiting every configured name, the timers filed and the timers running are those of the sweep |
| Service.JdbcConnectionService.VisitConfig | connection/src/main/java/com/example/gotatva/service/JdbcConnectionService.java:192-194 | one visit schedules the name exactly when its interval is positive and it has no timer, adding one running timer |

## Left out

- The REST controller (`JdbcController`): routing and response wrapping only.
- Concurrency: the maps are `ConcurrentHashMap`s shared with timer threads; the model runs every operation and every firing sequentially, one at a time.
- Timing: when timers fire and the once-a-minute `@Scheduled` sweep are not modelled; a firing and a sweep are operations called explicitly.
- Logging, and the rendering of `LocalDateTime` (the timestamp enters as text).
- The JDBC driver itself: whether a driver loads, whether a connection opens, what a query returns and what `isClosed` and `close` throw are inputs, not behaviour.
- `DriverManager.getConnection` returning null in `startConnection`: outside the handle model.
- The close of a test's short-lived connection, of its statement and of its result set (the try-with-resources blocks): a failure while closing them is not modelled.
- Java `null` in strings other than `customQuery` and result cells: names, URLs and column names are always present text.
- ResultFormat.Pad: counts characters as Dafny characters, not the UTF-16 code units Java's `%-20s` counts.
- Service.JdbcConnectionService.GetAllConnections: states the list's contents but not its order, which is the map's iteration order.

