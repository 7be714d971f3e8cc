/**
 * The connection registry as a value: the four maps keyed by connection
 * name, and what each operation of the service makes of them. The service
 * class proves its methods against these functions.
 */
module Registry {
  import opened Model
  import opened Drivers
  import opened ConnectionTest

  /**
   * A `java.util.Timer` running the auto-test `TimerTask`, which tests the
   * configuration captured when it was scheduled, every `periodMillis`.
   */
  datatype Timer = Timer(task: JdbcConnection, periodMillis: int)

  /** `(long) interval * 60 * 1000`: minutes to milliseconds, computed as a Java long. */
  function PeriodMillis(interval: Int32): (ms: int)
    ensures -0x8000_0000_0000_0000 <= ms < 0x8000_0000_0000_0000
    ensures ms > 0 <==> interval > 0
    ensures ms == 0 <==> interval == 0
  {
    interval * 60 * 1000
  }

  function TimerFor(config: JdbcConnection): Timer
  {
    Timer(config, PeriodMillis(config.autoTestInterval))
  }

  /**
   * The four maps, and `running`: every timer started so far. The code never
   * cancels a timer, so a timer keeps firing after its map entry is replaced
   * or its connection stopped; `running` only ever grows.
   */
  datatype State = State(
    activeConnections: map<string, Connection>,
    connectionConfigs: map<string, JdbcConnection>,
    lastTestResults: map<string, AutoTester>,
    scheduledTests: map<string, Timer>,
    running: multiset<Timer>)

  const Empty: State := State(map[], map[], map[], map[], multiset{})

  /** Every configuration is filed under its own connection name. */
  predicate FiledByName(configs: map<string, JdbcConnection>)
  {
    forall n :: n in configs ==> configs[n].connectionName == n
  }

  /**
   * What every operation keeps: live connections have a configuration, each
   * configuration and each timer is filed under its own connection name, and
   * only configurations with a positive interval have timers, running at that
   * interval, and every filed timer is running. Test results and timers may
   * outlive the configuration.
   */
  predicate Valid(s: State)
  {
    && s.activeConnections.Keys <= s.connectionConfigs.Keys
    && FiledByName(s.connectionConfigs)
    && (forall n :: n in s.scheduledTests ==>
          && s.scheduledTests[n].task.connectionName == n
          && s.scheduledTests[n].task.autoTestInterval > 0
          && s.scheduledTests[n] == TimerFor(s.scheduledTests[n].task)
          && s.scheduledTests[n] in s.running)
  }

  /**
   * `scheduleAutoTest`: start a new timer for the configuration and file it
   * under the name. Only the map entry is replaced: a timer the name had
   * before is not cancelled and keeps running.
   */
  function Schedule(s: State, config: JdbcConnection): State
  {
    s.(scheduledTests := s.scheduledTests[config.connectionName := TimerFor(config)],
       running := s.running + multiset{TimerFor(config)})
  }

  function StartFailure(message: string): string
  {
    "Failed to start connection: " + message
  }

  /** The part of `startConnection` after the connection opened: file it, then schedule it when its interval is positive. */
  function Register(s: State, request: JdbcConnection, connection: Connection): State
  {
    var name := request.connectionName;
    var registered := s.(activeConnections := s.activeConnections[name := connection],
                         connectionConfigs := s.connectionConfigs[name := request]);
    if request.autoTestInterval > 0 then Schedule(registered, request) else registered
  }

  /**
   * `startConnection`: resolve and load the driver, open the connection,
   * register it with its configuration, schedule it when its interval is
   * positive, and only then run the initial test and record its text.
   */
  function Start(s: State, request: JdbcConnection, now: string, classpath: set<string>, open: Open, probe: Probe): (State, string)
  {
    match GetDriverClass(request.url)
    case Err(m) => (s, StartFailure(m))
    case Ok(driver) =>
      if driver !in classpath then (s, StartFailure(driver))
      else
        match open
        case OpenFailed(m) => (s, StartFailure(m))
        case Opened(connection) =>
          Initial(Register(s, request, connection), request, now, TestReport(request, classpath, probe))
  }

  /** The end of `startConnection`: record the initial test's text, or report the exception it threw. */
  function Initial(registered: State, request: JdbcConnection, now: string, outcome: Outcome): (r: (State, string))
    ensures r.0 == registered.(lastTestResults := r.0.lastTestResults)
  {
    match outcome
    case Threw(m) => (registered, StartFailure(m))
    case Returned(text) =>
      (registered.(lastTestResults := registered.lastTestResults[request.connectionName := AutoTester(now, text)]),
       "Connection started successfully: " + request.connectionName + "\nInitial test result: " + text)
  }

  /**
   * `stopConnection`: `isClosed` is what the name's live handle answers when
   * asked (or the exception it throws), and `closeFailure` the exception its
   * close throws, if any. An SQLException from either call becomes the
   * failure text; any other exception propagates. Either way nothing changes.
   */
  function Stop(s: State, name: string, isClosed: Result<bool, Thrown>, closeFailure: Option<Thrown>): (State, Outcome)
  {
    if name !in s.activeConnections then (s, Returned(NotFound(name)))
    else
      match isClosed
      case Err(e) => (s, StopFailure(e))
      case Ok(true) => (s, Returned(NotFound(name)))
      case Ok(false) =>
        match closeFailure
        case Some(e) => (s, StopFailure(e))
        case None =>
          (s.(activeConnections := s.activeConnections - {name}, connectionConfigs := s.connectionConfigs - {name}),
           Returned("Connection stopped successfully: " + name))
  }

  function NotFound(name: string): string
  {
    "Connection not found or already closed: " + name
  }

  /** The `catch (SQLException e)` of `stopConnection`: only an SQLException is turned into text. */
  function StopFailure(e: Thrown): Outcome
  {
    match e
    case SqlException(m) => Returned("Failed to stop connection: " + m)
    case RuntimeException(m) => Threw(m)
  }

  /** `updateConnection`: overwrite the configuration filed under the request's name. */
  function Update(s: State, request: JdbcConnection): (State, JdbcConnection)
  {
    (s.(connectionConfigs := s.connectionConfigs[request.connectionName := request]), request)
  }

  /**
   * One firing of a running timer: it tests the configuration it captured
   * when it was scheduled; a returned text is recorded, an exception only logged.
   */
  function Fire(s: State, timer: Timer, now: string, classpath: set<string>, probe: Probe): State
    requires timer in s.running
  {
    var config := timer.task;
    match TestReport(config, classpath, probe)
    case Threw(_) => s
    case Returned(text) => s.(lastTestResults := s.lastTestResults[config.connectionName := AutoTester(now, text)])
  }

  /** The timers `autoTestConnections` adds: one per configuration with a positive interval and no timer yet. */
  function Missing(s: State): map<string, Timer>
  {
    map n | n in s.connectionConfigs && s.connectionConfigs[n].autoTestInterval > 0 && n !in s.scheduledTests
      :: TimerFor(s.connectionConfigs[n])
  }

  /**
   * `autoTestConnections`: afterwards every configuration with a positive
   * interval has a timer; timers already there are kept as they were, and
   * nothing else gains one.
   */
  function Sweep(s: State): (r: State)
    ensures r.activeConnections == s.activeConnections && r.connectionConfigs == s.connectionConfigs
    ensures r.lastTestResults == s.lastTestResults
    ensures forall n :: n in s.scheduledTests ==> n in r.scheduledTests && r.scheduledTests[n] == s.scheduledTests[n]
    ensures forall n :: n in s.connectionConfigs && s.connectionConfigs[n].autoTestInterval > 0 ==> n in r.scheduledTests
    ensures forall n :: n in r.scheduledTests && n !in s.scheduledTests ==>
      n in s.connectionConfigs && s.connectionConfigs[n].autoTestInterval > 0 && r.scheduledTests[n] == TimerFor(s.connectionConfigs[n])
  {
    s.(scheduledTests := s.scheduledTests + Missing(s), running := s.running + multiset(Missing(s).Values))
  }

  /** The timers after a sweep that has still to visit the names in `pending`. */
  function SweptSoFar(s: State, pending: set<string>): map<string, Timer>
  {
    s.scheduledTests + (Missing(s) - pending)
  }

  /** The timers running after a sweep that has still to visit the names in `pending`. */
  function RunningSoFar(s: State, pending: set<string>): multiset<Timer>
  {
    s.running + multiset((Missing(s) - pending).Values)
  }

  /** Visiting one more name of the sweep schedules it exactly when it is missing. */
  lemma SweepStep(s: State, pending: set<string>, n: string)
    requires n in pending && n in s.connectionConfigs
    ensures n in Missing(s) <==> s.connectionConfigs[n].autoTestInterval > 0 && n !in SweptSoFar(s, pending)
    ensures SweptSoFar(s, pending - {n}) ==
      if n in Missing(s) then SweptSoFar(s, pending)[n := TimerFor(s.connectionConfigs[n])] else SweptSoFar(s, pending)
  {
    var m := Missing(s);
    if n in m {
      assert m - (pending - {n}) == (m - pending)[n := m[n]];
      assert n !in s.scheduledTests;
      assert s.scheduledTests + (m - pending)[n := m[n]] == (s.scheduledTests + (m - pending))[n := m[n]];
    } else {
      assert m - (pending - {n}) == m - pending;
    }
  }

  /** Filing a value that no other key holds under a new key adds exactly that value to the map's values. */
  lemma ValuesGrow<K, V>(m: map<K, V>, k: K, v: V)
    requires k !in m && v !in m.Values
    ensures multiset(m[k := v].Values) == multiset(m.Values) + multiset{v}
  {
    forall x | x in m[k := v].Values ensures x in m.Values + {v} {
      var j :| j in m[k := v] && m[k := v][j] == x;
    }
    forall x | x in m.Values + {v} ensures x in m[k := v].Values {
      if x != v {
        var j :| j in m && m[j] == x;
        assert m[k := v][j] == x;
      } else {
        assert m[k := v][k] == x;
      }
    }
    assert m[k := v].Values == m.Values + {v};
  }

  /**
   * Among timers each filed under its own connection name, taking one more
   * name out of `pending` adds its timer once to the values left.
   */
  lemma ValuesLeaving(m: map<string, Timer>, pending: set<string>, n: string)
    requires forall k :: k in m ==> m[k].task.connectionName == k
    requires n in pending && n in m
    ensures multiset((m - (pending - {n})).Values) == multiset((m - pending).Values) + multiset{m[n]}
  {
    var done := m - pending;
    assert m - (pending - {n}) == done[n := m[n]];
    forall k | k in done ensures done[k] != m[n] {
      assert done[k].task.connectionName == k != n == m[n].task.connectionName;
    }
    ValuesGrow(done, n, m[n]);
  }

  /** A timer the sweep starts is one more running timer, distinct from those it started before. */
  lemma SweepStepRuns(s: State, pending: set<string>, n: string)
    requires FiledByName(s.connectionConfigs)
    requires n in pending && n in s.connectionConfigs
    ensures RunningSoFar(s, pending - {n}) ==
      if n in Missing(s) then RunningSoFar(s, pending) + multiset{TimerFor(s.connectionConfigs[n])} else RunningSoFar(s, pending)
  {
    var m := Missing(s);
    if n in m {
      forall k | k in m ensures m[k].task.connectionName == k {
      }
      ValuesLeaving(m, pending, n);
    } else {
      assert m - (pending - {n}) == m - pending;
    }
  }

  /** Before the sweep visits any name, nothing has been added. */
  lemma SweepBegins(s: State)
    ensures SweptSoFar(s, s.connectionConfigs.Keys) == s.scheduledTests
    ensures RunningSoFar(s, s.connectionConfigs.Keys) == s.running
  {
    assert Missing(s) - s.connectionConfigs.Keys == map[];
    assert (Missing(s) - s.connectionConfigs.Keys).Values == {};
  }

  lemma SweptAll(s: State)
    ensures SweptSoFar(s, {}) == Sweep(s).scheduledTests
    ensures RunningSoFar(s, {}) == Sweep(s).running
  {
    assert Missing(s) - {} == Missing(s);
  }

  /** `getAllConnections`: `list` holds every configuration once, in some order. */
  ghost predicate ListsConfigs(list: seq<JdbcConnection>, configs: map<string, JdbcConnection>)
  {
    && |list| == |configs|
    && (forall c :: c in list <==> c in configs.Values)
    && (forall i, j :: 0 <= i < j < |list| ==> list[i] != list[j])
  }

  /** The loop invariant of the copy `getAllConnections` makes: `list` holds the entries of the names in `done`, each once. */
  ghost predicate CopiedSoFar(configs: map<string, JdbcConnection>, list: seq<JdbcConnection>, done: set<string>)
  {
    && done <= configs.Keys
    && |list| == |done|
    && (forall i :: 0 <= i < |list| ==> list[i].connectionName in done && list[i] == configs[list[i].connectionName])
    && (forall n :: n in done ==> configs[n] in list)
    && (forall i, j :: 0 <= i < j < |list| ==> list[i].connectionName != list[j].connectionName)
  }

  /** Copying the entry of one more name keeps the invariant. */
  lemma CopyStep(configs: map<string, JdbcConnection>, list: seq<JdbcConnection>, done: set<string>, n: string)
    requires FiledByName(configs)
    requires CopiedSoFar(configs, list, done)
    requires n in configs && n !in done
    ensures CopiedSoFar(configs, list + [configs[n]], done + {n})
  {
    var list', done' := list + [configs[n]], done + {n};
    assert |done'| == |done| + 1;
    assert list'[|list|] == configs[n] && configs[n].connectionName == n;
    forall i | 0 <= i < |list'|
      ensures list'[i].connectionName in done' && list'[i] == configs[list'[i].connectionName]
    {
      if i < |list| {
        assert list'[i] == list[i];
      }
    }
    forall k | k in done' ensures configs[k] in list' {
      if k != n {
        var i :| 0 <= i < |list| && list[i] == configs[k];
        assert list'[i] == configs[k];
      }
    }
    forall i, j | 0 <= i < j < |list'| ensures list'[i].connectionName != list'[j].connectionName {
      assert list'[i] == list[i] && list[i].connectionName in done;
      if j < |list| {
        assert list'[j] == list[j];
      }
    }
    assert CopiedSoFar(configs, list', done');
  }

  /** A list of the configurations, each taken once under its own name, lists them all. */
  lemma EnumerationLists(configs: map<string, JdbcConnection>, list: seq<JdbcConnection>)
    requires CopiedSoFar(configs, list, configs.Keys - {})
    ensures ListsConfigs(list, configs)
  {
    assert configs.Keys - {} == configs.Keys;
    assert |configs| == |configs.Keys|;
    forall c | c in configs.Values ensures c in list {
      var k :| k in configs && configs[k] == c;
    }
  }

  /** `getLastTestResult`. */
  function LastTestResult(s: State, name: string): string
  {
    if name in s.lastTestResults then
      "Last test at " + s.lastTestResults[name].timestamp + ":\n" + s.lastTestResults[name].result
    else "No test results available for " + name
  }

  lemma StartPreservesValid(s: State, request: JdbcConnection, now: string, classpath: set<string>, open: Open, probe: Probe)
    requires Valid(s)
    ensures Valid(Start(s, request, now, classpath, open, probe).0)
  {
    if GetDriverClass(request.url).Ok? && GetDriverClass(request.url).value in classpath && open.Opened? {
      RegisterPreservesValid(s, request, open.connection);
    }
  }

  lemma RegisterPreservesValid(s: State, request: JdbcConnection, connection: Connection)
    requires Valid(s)
    ensures Valid(Register(s, request, connection))
  {
    var name := request.connectionName;
    var registered := s.(activeConnections := s.activeConnections[name := connection],
                         connectionConfigs := s.connectionConfigs[name := request]);
    assert Valid(registered);
  }

  lemma StopPreservesValid(s: State, name: string, isClosed: Result<bool, Thrown>, closeFailure: Option<Thrown>)
    requires Valid(s)
    ensures Valid(Stop(s, name, isClosed, closeFailure).0)
  {
  }

  lemma UpdatePreservesValid(s: State, request: JdbcConnection)
    requires Valid(s)
    ensures Valid(Update(s, request).0)
  {
  }

  lemma FirePreservesValid(s: State, timer: Timer, now: string, classpath: set<string>, probe: Probe)
    requires Valid(s) && timer in s.running
    ensures Valid(Fire(s, timer, now, classpath, probe))
  {
  }

  lemma SweepPreservesValid(s: State)
    requires Valid(s)
    ensures Valid(Sweep(s))
  {
  }

  /** Driver resolution, driver loading and opening all happen before anything is registered. */
  lemma StartFailsBeforeRegistering(s: State, request: JdbcConnection, now: string, classpath: set<string>, open: Open, probe: Probe)
    requires GetDriverClass(request.url).Err? || GetDriverClass(request.url).value !in classpath || open.OpenFailed?
    ensures Start(s, request, now, classpath, open, probe).0 == s
    ensures Start(s, request, now, classpath, open, probe).1 == "Failed to start connection: " +
      (if GetDriverClass(request.url).Err? then "Unsupported database URL: " + request.url
       else if GetDriverClass(request.url).value !in classpath then GetDriverClass(request.url).value
       else open.message)
  {
  }

  /**
   * A start whose initial test returns `text` files the handle and the request
   * under the request's name (overwriting what was there), schedules it only
   * for a positive interval, records `text` at `now`, and reports both.
   */
  lemma StartSucceeds(s: State, request: JdbcConnection, now: string, classpath: set<string>, connection: Connection, probe: Probe, text: string)
    requires GetDriverClass(request.url).Ok? && GetDriverClass(request.url).value in classpath
    requires TestReport(request, classpath, probe) == Returned(text)
    ensures var (r, message) := Start(s, request, now, classpath, Opened(connection), probe);
      var name := request.connectionName;
      && r.activeConnections == s.activeConnections[name := connection]
      && r.connectionConfigs == s.connectionConfigs[name := request]
      && r.lastTestResults == s.lastTestResults[name := AutoTester(now, text)]
      && r.scheduledTests == (if request.autoTestInterval > 0 then s.scheduledTests[name := Timer(request, request.autoTestInterval * 60000)]
                              else s.scheduledTests)
      && r.running == (if request.autoTestInterval > 0 then s.running + multiset{Timer(request, request.autoTestInterval * 60000)}
                       else s.running)
      && message == "Connection started successfully: " + name + "\nInitial test result: " + text
  {
  }

  /**
   * The timer is scheduled before the initial test runs: when that test
   * throws, the start reports failure yet the handle, the configuration and
   * the timer stay registered and running, and no result is recorded. Only
   * an unchecked exception from the driver, while connecting or while running
   * the test query, gets there, never the URL check.
   */
  lemma ScheduledBeforeInitialTest(s: State, request: JdbcConnection, now: string, classpath: set<string>, connection: Connection, probe: Probe)
    requires GetDriverClass(request.url).Ok? && GetDriverClass(request.url).value in classpath
    requires TestReport(request, classpath, probe).Threw?
    ensures || probe.connect.ConnectCrashed?
            || (probe.connect == Connected(false) && probe.execute(TestQuery(request)).Crashed?)
    ensures var (r, message) := Start(s, request, now, classpath, Opened(connection), probe);
      var name := request.connectionName;
      && r.activeConnections == s.activeConnections[name := connection]
      && r.connectionConfigs == s.connectionConfigs[name := request]
      && r.lastTestResults == s.lastTestResults
      && (request.autoTestInterval > 0 ==>
            name in r.scheduledTests && r.scheduledTests[name].task == request && r.scheduledTests[name] in r.running)
      && message == "Failed to start connection: " +
           (if probe.connect.ConnectCrashed? then probe.connect.message else probe.execute(TestQuery(request)).message)
  {
    ThrowsExactly(request, classpath, probe);
  }

  /** After a start whose initial test returned `text`, the last result of that name reports it, stamped `now`. */
  lemma StartThenLastTestResult(s: State, request: JdbcConnection, now: string, classpath: set<string>, connection: Connection, probe: Probe, text: string)
    requires GetDriverClass(request.url).Ok? && GetDriverClass(request.url).value in classpath
    requires TestReport(request, classpath, probe) == Returned(text)
    ensures LastTestResult(Start(s, request, now, classpath, Opened(connection), probe).0, request.connectionName) ==
      "Last test at " + now + ":\n" + text
  {
  }

  /** Without a live, open handle under the name, stop reports so and changes nothing. */
  lemma StopNotFound(s: State, name: string, isClosed: Result<bool, Thrown>, closeFailure: Option<Thrown>)
    requires name !in s.activeConnections || isClosed == Ok(true)
    ensures Stop(s, name, isClosed, closeFailure) == (s, Returned("Connection not found or already closed: " + name))
  {
  }

  /** A stop that closes the handle removes the name from the live and configuration maps, and from nothing else. */
  lemma StopRemoves(s: State, name: string)
    requires name in s.activeConnections
    ensures var (r, outcome) := Stop(s, name, Ok(false), None);
      && r.activeConnections.Keys == s.activeConnections.Keys - {name}
      && (forall n :: n in r.activeConnections ==> r.activeConnections[n] == s.activeConnections[n])
      && r.connectionConfigs.Keys == s.connectionConfigs.Keys - {name}
      && (forall n :: n in r.connectionConfigs ==> r.connectionConfigs[n] == s.connectionConfigs[n])
      && r.lastTestResults == s.lastTestResults
      && r.scheduledTests == s.scheduledTests
      && r.running == s.running
      && outcome == Returned("Connection stopped successfully: " + name)
  {
  }

  /**
   * When asking the handle or closing it throws, nothing changes: an
   * SQLException is reported as "Failed to stop connection: " and its
   * message, any other exception leaves `stopConnection` with its message.
   */
  lemma StopCloseFails(s: State, name: string, isClosed: Result<bool, Thrown>, closeFailure: Option<Thrown>, e: Thrown)
    requires name in s.activeConnections
    requires isClosed == Err(e) || (isClosed == Ok(false) && closeFailure == Some(e))
    ensures Stop(s, name, isClosed, closeFailure).0 == s
    ensures e.SqlException? ==> Stop(s, name, isClosed, closeFailure).1 == Returned("Failed to stop connection: " + e.message)
    ensures e.RuntimeException? ==> Stop(s, name, isClosed, closeFailure).1 == Threw(e.message)
  {
  }

  /**
   * Stop changes the registry exactly when the name has a handle that
   * answers it is open and closes without an exception, and it throws exactly
   * when one of those two calls throws an unchecked exception.
   */
  lemma StopOutcomes(s: State, name: string, isClosed: Result<bool, Thrown>, closeFailure: Option<Thrown>)
    ensures var (r, outcome) := Stop(s, name, isClosed, closeFailure);
      && (r != s <==> name in s.activeConnections && isClosed == Ok(false) && closeFailure.None?)
      && (outcome.Threw? <==>
            name in s.activeConnections
            && (|| (isClosed.Err? && isClosed.error.RuntimeException?)
                || (isClosed == Ok(false) && closeFailure.Some? && closeFailure.value.RuntimeException?)))
  {
    if name in s.activeConnections && isClosed == Ok(false) && closeFailure.None? {
      assert name !in Stop(s, name, isClosed, closeFailure).0.activeConnections;
    }
  }

  /** Stop never cancels a timer and never drops a test result, whatever happens. */
  lemma StopKeepsTimersAndResults(s: State, name: string, isClosed: Result<bool, Thrown>, closeFailure: Option<Thrown>)
    ensures Stop(s, name, isClosed, closeFailure).0.scheduledTests == s.scheduledTests
    ensures Stop(s, name, isClosed, closeFailure).0.running == s.running
    ensures Stop(s, name, isClosed, closeFailure).0.lastTestResults == s.lastTestResults
    ensures forall n :: LastTestResult(Stop(s, name, isClosed, closeFailure).0, n) == LastTestResult(s, n)
  {
  }

  /**
   * Starting a connection with a positive interval and then stopping it
   * leaves its timer filed and running with no configuration behind it.
   */
  lemma {:induction false} OrphanedTimer(s: State, request: JdbcConnection, now: string, classpath: set<string>, connection: Connection, probe: Probe, text: string)
    requires GetDriverClass(request.url).Ok? && GetDriverClass(request.url).value in classpath
    requires TestReport(request, classpath, probe) == Returned(text)
    requires request.autoTestInterval > 0
    ensures var started := Start(s, request, now, classpath, Opened(connection), probe).0;
      var stopped := Stop(started, request.connectionName, Ok(false), None).0;
      && request.connectionName in stopped.scheduledTests
      && TimerFor(request) in stopped.running
      && request.connectionName !in stopped.connectionConfigs
      && request.connectionName !in stopped.activeConnections
  {
    StartSucceeds(s, request, now, classpath, connection, probe, text);
    var started := Start(s, request, now, classpath, Opened(connection), probe).0;
    StopRemoves(started, request.connectionName);
  }

  /**
   * Starting the same name twice, both times with a positive interval, files
   * only the second timer, but both keep running: the first is never cancelled.
   */
  lemma {:induction false} RestartLeavesFirstTimerRunning(s: State, first: JdbcConnection, second: JdbcConnection, now: string,
                                                          classpath: set<string>, c1: Connection, c2: Connection, probe: Probe)
    requires first.connectionName == second.connectionName
    requires first.autoTestInterval > 0 && second.autoTestInterval > 0
    requires GetDriverClass(first.url).Ok? && GetDriverClass(first.url).value in classpath
    requires GetDriverClass(second.url).Ok? && GetDriverClass(second.url).value in classpath
    ensures var once := Start(s, first, now, classpath, Opened(c1), probe).0;
      var twice := Start(once, second, now, classpath, Opened(c2), probe).0;
      && twice.scheduledTests[second.connectionName] == TimerFor(second)
      && twice.running == s.running + multiset{TimerFor(first), TimerFor(second)}
      && TimerFor(first) in twice.running
  {
    var once := Start(s, first, now, classpath, Opened(c1), probe).0;
    StartRegisters(s, first, now, classpath, c1, probe);
    StartRegisters(once, second, now, classpath, c2, probe);
  }

  /**
   * Once the connection is open, starting leaves the state exactly as the
   * registration made it, apart from the test result it may record.
   */
  lemma StartRegisters(s: State, request: JdbcConnection, now: string, classpath: set<string>, connection: Connection, probe: Probe)
    requires GetDriverClass(request.url).Ok? && GetDriverClass(request.url).value in classpath
    ensures var r := Start(s, request, now, classpath, Opened(connection), probe).0;
      r == Register(s, request, connection).(lastTestResults := r.lastTestResults)
  {
  }

  /** No operation ever stops a timer: the running timers only accumulate. */
  lemma TimersOnlyAccumulate(s: State, request: JdbcConnection, name: string, isClosed: Result<bool, Thrown>, closeFailure: Option<Thrown>,
                             timer: Timer, now: string, classpath: set<string>, open: Open, probe: Probe)
    ensures s.running <= Start(s, request, now, classpath, open, probe).0.running
    ensures Stop(s, name, isClosed, closeFailure).0.running == s.running
    ensures Update(s, request).0.running == s.running
    ensures timer in s.running ==> Fire(s, timer, now, classpath, probe).running == s.running
    ensures s.running <= Sweep(s).running
  {
    if open.Opened? {
      assert Register(s, request, open.connection).running >= s.running;
    }
  }

  /** Update overwrites the one configuration entry, whether or not the name existed, and returns the request. */
  lemma UpdateOverwrites(s: State, request: JdbcConnection)
    ensures var (r, returned) := Update(s, request);
      && returned == request
      && r.connectionConfigs == s.connectionConfigs[request.connectionName := request]
      && r.activeConnections == s.activeConnections
      && r.lastTestResults == s.lastTestResults
      && r.scheduledTests == s.scheduledTests
      && r.running == s.running
  {
  }

  /** After an update, listing the configurations shows the new record and no other record under that name. */
  lemma UpdateThenList(s: State, request: JdbcConnection, list: seq<JdbcConnection>)
    requires Valid(s)
    requires ListsConfigs(list, Update(s, request).0.connectionConfigs)
    ensures request in list
    ensures forall c :: c in list && c.connectionName == request.connectionName ==> c == request
  {
    var r := Update(s, request).0;
    UpdatePreservesValid(s, request);
    assert request == r.connectionConfigs[request.connectionName];
    forall c | c in list && c.connectionName == request.connectionName
      ensures c == request
    {
      var n :| n in r.connectionConfigs && r.connectionConfigs[n] == c;
      assert n == c.connectionName;
    }
  }

  /**
   * A firing tests the configuration its timer captured, whatever the
   * registry now holds under that name, and touches only the test result of
   * that name, and only when the test returned.
   */
  lemma FireRecords(s: State, timer: Timer, now: string, classpath: set<string>, probe: Probe)
    requires timer in s.running
    ensures var r := Fire(s, timer, now, classpath, probe);
      && r.activeConnections == s.activeConnections
      && r.connectionConfigs == s.connectionConfigs
      && r.scheduledTests == s.scheduledTests
      && r.running == s.running
      && r.lastTestResults == match TestReport(timer.task, classpath, probe)
           case Threw(_) => s.lastTestResults
           case Returned(text) => s.lastTestResults[timer.task.connectionName := AutoTester(now, text)]
  {
  }

  /**
   * `updateConnection` does not reach the timer: the name's timer stays filed
   * and running with the configuration it captured, a sweep afterwards does
   * not replace it, and so its firings go on testing the old configuration.
   */
  lemma UpdateLeavesTimerStale(s: State, request: JdbcConnection)
    requires Valid(s) && request.connectionName in s.scheduledTests
    ensures var timer := s.scheduledTests[request.connectionName];
      var r := Sweep(Update(s, request).0);
      && r.connectionConfigs[request.connectionName] == request
      && r.scheduledTests[request.connectionName] == timer
      && timer in r.running
      && (request != timer.task ==> r.scheduledTests[request.connectionName].task != r.connectionConfigs[request.connectionName])
  {
    var updated := Update(s, request).0;
    assert s.scheduledTests[request.connectionName] in updated.running;
  }

  /** A second sweep right after a first one adds nothing. */
  lemma SweepIdempotent(s: State)
    ensures Sweep(Sweep(s)) == Sweep(s)
  {
    assert Missing(Sweep(s)) == map[];
    assert Sweep(s).scheduledTests + map[] == Sweep(s).scheduledTests;
    assert Missing(Sweep(s)).Values == {};
  }

  /** Every timer the sweep adds runs at its configuration's interval, in milliseconds. */
  lemma SweepPeriods(s: State, n: string)
    requires n in Sweep(s).scheduledTests && n !in s.scheduledTests
    ensures Sweep(s).scheduledTests[n].periodMillis == s.connectionConfigs[n].autoTestInterval * 60 * 1000 > 0
  {
  }

  /** The two texts of `getLastTestResult` cannot be confused: one starts "Last test at " exactly when a result is stored. */
  lemma LastTestResultTells(s: State, name: string)
    ensures var text := LastTestResult(s, name);
      (|text| >= 13 && text[..13] == "Last test at ") <==> name in s.lastTestResults
  {
    var text := LastTestResult(s, name);
    if name !in s.lastTestResults {
      assert text[0] == 'N';
    } else {
      assert text[..13] == "Last test at ";
    }
  }
}
