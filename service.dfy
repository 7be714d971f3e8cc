/**
 * `JdbcConnectionService`: the registry's four maps as fields, updated in
 * place, and a ghost record of the timer threads started so far. Every method
 * is proved against the function of module Registry that says what it does
 * to the state, and keeps Registry.Valid.
 */
module Service {
  import opened Model
  import opened Drivers
  import opened ConnectionTest
  import opened Registry

  class JdbcConnectionService {
    var activeConnections: map<string, Connection>
    var connectionConfigs: map<string, JdbcConnection>
    var lastTestResults: map<string, AutoTester>
    var scheduledTests: map<string, Timer>
    /** Every timer started and not cancelled: the threads behind the map entries and those no entry refers to any more. */
    ghost var running: multiset<Timer>

    ghost function Model(): State
      reads this
    {
      State(activeConnections, connectionConfigs, lastTestResults, scheduledTests, running)
    }

    ghost predicate Valid()
      reads this
    {
      Registry.Valid(Model())
    }

    constructor ()
      ensures Valid() && Model() == Empty
    {
      activeConnections, connectionConfigs, lastTestResults, scheduledTests := map[], map[], map[], map[];
      running := multiset{};
    }

    /** `startConnection`. A handle it replaces is left as it was: not closed. */
    method StartConnection(request: JdbcConnection, now: string, classpath: set<string>, open: Open, probe: Probe)
      returns (message: string)
      requires Valid()
      modifies this
      ensures Valid()
      ensures (Model(), message) == Start(old(Model()), request, now, classpath, open, probe)
      ensures request.connectionName in old(activeConnections) ==>
        old(activeConnections[request.connectionName]).closed == old(activeConnections[request.connectionName].closed)
    {
      ghost var before := Model();
      StartPreservesValid(before, request, now, classpath, open, probe);
      var driver := GetDriverClass(request.url);
      if driver.Err? || driver.value !in classpath || open.OpenFailed? {
        StartFailsBeforeRegistering(before, request, now, classpath, open, probe);
        if driver.Err? {
          return StartFailure(driver.error);
        }
        if driver.value !in classpath {
          return StartFailure(driver.value);
        }
        return StartFailure(open.message);
      }
      var name := request.connectionName;
      RegisterConnection(request, open.connection);
      ghost var registered := Model();
      var initial := TestConnection(request, classpath, probe);
      match initial
      case Threw(m) =>
        message := StartFailure(m);
      case Returned(text) =>
        lastTestResults := lastTestResults[name := AutoTester(now, text)];
        message := "Connection started successfully: " + name + "\nInitial test result: " + text;
      assert (Model(), message) == Initial(registered, request, now, initial);
    }

    /** The registration step of `startConnection`: file the handle and the configuration, then schedule. */
    method RegisterConnection(request: JdbcConnection, connection: Connection)
      modifies this
      ensures Model() == Register(old(Model()), request, connection)
    {
      var name := request.connectionName;
      activeConnections := activeConnections[name := connection];
      connectionConfigs := connectionConfigs[name := request];
      if request.autoTestInterval > 0 {
        ScheduleAutoTest(request);
      }
    }

    /**
     * `scheduleAutoTest`: start a timer for the configuration and file it
     * under its name. A timer filed there before is not cancelled.
     */
    method ScheduleAutoTest(config: JdbcConnection)
      requires config.autoTestInterval > 0
      modifies this
      ensures Model() == Schedule(old(Model()), config)
    {
      var intervalMillis := PeriodMillis(config.autoTestInterval);
      var timer := Timer(config, intervalMillis);
      scheduledTests := scheduledTests[config.connectionName := timer];
      running := running + multiset{timer};
    }

    /**
     * One run of a running timer's task: test the configuration the timer
     * captured and record the text at `now`; an exception is only logged.
     */
    method Fire(timer: Timer, now: string, classpath: set<string>, probe: Probe)
      requires Valid() && timer in running
      modifies this
      ensures Valid()
      ensures Model() == Registry.Fire(old(Model()), timer, now, classpath, probe)
    {
      var config := timer.task;
      var outcome := TestConnection(config, classpath, probe);
      match outcome
      case Threw(_) =>
      case Returned(text) =>
        lastTestResults := lastTestResults[config.connectionName := AutoTester(now, text)];
    }

    /**
     * `stopConnection`: asks the live handle whether it is closed, closes it
     * when it is open, then drops it and its configuration. `isClosedFailure`
     * and `closeFailure` are the exceptions the driver throws from those calls.
     */
    method StopConnection(name: string, isClosedFailure: Option<Thrown>, closeFailure: Option<Thrown>) returns (outcome: Outcome)
      requires Valid()
      modifies this, if name in activeConnections then {activeConnections[name]} else {}
      ensures Valid()
      ensures (Model(), outcome) ==
        Stop(old(Model()), name,
             old(if name in activeConnections then ClosedAnswer(activeConnections[name].closed, isClosedFailure) else Ok(true)),
             closeFailure)
      ensures old(name in activeConnections && !activeConnections[name].closed) && isClosedFailure.None? && closeFailure.None? ==>
        old(activeConnections[name]).closed
      ensures old(name in activeConnections) && (isClosedFailure.Some? || old(activeConnections[name].closed) || closeFailure.Some?) ==>
        old(activeConnections[name]).closed == old(activeConnections[name].closed)
    {
      if name !in activeConnections {
        return Returned(NotFound(name));
      }
      var connection := activeConnections[name];
      var answer := connection.IsClosed(isClosedFailure);
      StopPreservesValid(Model(), name, answer, closeFailure);
      match answer
      case Err(e) =>
        return StopFailure(e);
      case Ok(closed) =>
        if closed {
          return Returned(NotFound(name));
        }
        var error := connection.Close(closeFailure);
        if error.Some? {
          return StopFailure(error.value);
        }
        activeConnections := activeConnections - {name};
        connectionConfigs := connectionConfigs - {name};
        return Returned("Connection stopped successfully: " + name);
    }

    /** `getAllConnections`: a copy of the configurations, in the map's iteration order. */
    method GetAllConnections() returns (list: seq<JdbcConnection>)
      requires Valid()
      ensures ListsConfigs(list, connectionConfigs)
    {
      list := CopyValues(connectionConfigs);
    }

    /** `getLastTestResult`: reads the result map and changes nothing. */
    method GetLastTestResult(name: string) returns (text: string)
      ensures text == LastTestResult(Model(), name)
    {
      if name in lastTestResults {
        var result := lastTestResults[name];
        return "Last test at " + result.timestamp + ":\n" + result.result;
      }
      return "No test results available for " + name;
    }

    /** `updateConnection`. */
    method UpdateConnection(request: JdbcConnection) returns (updated: JdbcConnection)
      requires Valid()
      modifies this
      ensures Valid()
      ensures (Model(), updated) == Update(old(Model()), request)
    {
      connectionConfigs := connectionConfigs[request.connectionName := request];
      return request;
    }

    /** `autoTestConnections`: schedule every configuration with a positive interval that has no timer. */
    method AutoTestConnections()
      requires Valid()
      modifies this
      ensures Valid()
      ensures Model() == Sweep(old(Model()))
    {
      ghost var before := Model();
      SweepConfigs(before);
      SweptAll(before);
      SweepPreservesValid(before);
    }

    /** The loop of `autoTestConnections`: visit every configured name once. */
    method SweepConfigs(ghost before: State)
      requires FiledByName(before.connectionConfigs)
      requires Model() == before
      modifies this
      ensures activeConnections == before.activeConnections && connectionConfigs == before.connectionConfigs
      ensures lastTestResults == before.lastTestResults
      ensures scheduledTests == SweptSoFar(before, {})
      ensures running == RunningSoFar(before, {})
    {
      var pending := connectionConfigs.Keys;
      SweepBegins(before);
      while pending != {}
        invariant pending <= before.connectionConfigs.Keys
        invariant activeConnections == before.activeConnections && connectionConfigs == before.connectionConfigs
        invariant lastTestResults == before.lastTestResults
        invariant scheduledTests == SweptSoFar(before, pending)
        invariant running == RunningSoFar(before, pending)
        decreases pending
      {
        var n :| n in pending;
        VisitConfig(before, pending, n);
        pending := pending - {n};
      }
    }

    /** One pass of the sweep's loop: schedule the configuration under `n` when it has a positive interval and no timer. */
    method VisitConfig(ghost before: State, pending: set<string>, n: string)
      requires FiledByName(before.connectionConfigs)
      requires n in pending && pending <= before.connectionConfigs.Keys
      requires connectionConfigs == before.connectionConfigs
      requires scheduledTests == SweptSoFar(before, pending)
      requires running == RunningSoFar(before, pending)
      modifies this
      ensures activeConnections == old(activeConnections) && connectionConfigs == old(connectionConfigs)
      ensures lastTestResults == old(lastTestResults)
      ensures scheduledTests == SweptSoFar(before, pending - {n})
      ensures running == RunningSoFar(before, pending - {n})
    {
      var config := connectionConfigs[n];
      assert config.connectionName == n;
      SweepStep(before, pending, n);
      SweepStepRuns(before, pending, n);
      if config.autoTestInterval > 0 && config.connectionName !in scheduledTests {
        ScheduleAutoTest(config);
      }
    }
  }

  /** `new ArrayList<>(configs.values())`: visits the entries in an order the map chooses. */
  method CopyValues(configs: map<string, JdbcConnection>) returns (list: seq<JdbcConnection>)
    requires FiledByName(configs)
    ensures ListsConfigs(list, configs)
  {
    list := [];
    var pending := configs.Keys;
    while pending != {}
      invariant pending <= configs.Keys
      invariant CopiedSoFar(configs, list, configs.Keys - pending)
      decreases pending
    {
      var n :| n in pending;
      CopyStep(configs, list, configs.Keys - pending, n);
      assert configs.Keys - (pending - {n}) == (configs.Keys - pending) + {n};
      list := list + [configs[n]];
      pending := pending - {n};
    }
    EnumerationLists(configs, list);
  }
}
