/**
 * `testConnection` and `executeCustomQuery`: a health check on a fresh,
 * short-lived connection, reported as text. Only ClassNotFoundException and
 * SQLException become text; anything else the check meets propagates.
 */
module ConnectionTest {
  import opened Model
  import opened Drivers
  import opened ResultFormat

  /** The probe query used when the configuration has no custom query. */
  const DefaultQuery: string := "SELECT 1 as test_value"

  /** The query a test runs: the custom query when there is one. */
  function TestQuery(config: JdbcConnection): (query: string)
    ensures config.customQuery.Some? ==> query == config.customQuery.value
    ensures config.customQuery.None? ==> query == "SELECT 1 as test_value"
  {
    match config.customQuery
    case Some(q) => q
    case None => DefaultQuery
  }

  /** The text `executeCustomQuery` returns for a query outcome, or the exception it lets through. */
  function QueryReport(outcome: QueryOutcome): Result<string, Thrown>
  {
    match outcome
    case ResultSet(columns, rows) => Ok("\nQuery Results:\n" + Formatted(columns, rows))
    case SqlFailed(m) => Err(SqlException(m))
    case Crashed(m) => Err(RuntimeException(m))
  }

  /** The outcome of `testConnection` for a configuration, the drivers on the classpath and the database's behaviour. */
  function TestReport(config: JdbcConnection, classpath: set<string>, probe: Probe): Outcome
  {
    match GetDriverClass(config.url)
    case Err(m) => Threw(m)
    case Ok(driver) =>
      if driver !in classpath then Returned("JDBC Driver not found: " + driver)
      else ConnectedReport(config, probe)
  }

  /** The part of `testConnection` after the driver loaded: connect, ask `isClosed`, run the test query. */
  function ConnectedReport(config: JdbcConnection, probe: Probe): Outcome
  {
    match probe.connect
    case ConnectFailed(m) => Returned("Connection failed: " + m)
    case ConnectCrashed(m) => Threw(m)
    case Connected(closed) =>
      if closed then Returned("")
      else
        match QueryReport(probe.execute(TestQuery(config)))
        case Ok(text) => Returned("Connection successful to " + config.url + "\n" + text)
        case Err(SqlException(m)) => Returned("Connection failed: " + m)
        case Err(RuntimeException(m)) => Threw(m)
  }

  /** `executeCustomQuery`: runs the query, then formats the result set. */
  method ExecuteCustomQuery(probe: Probe, query: string) returns (r: Result<string, Thrown>)
    ensures r == QueryReport(probe.execute(query))
  {
    var outcome := probe.execute(query);
    match outcome
    case SqlFailed(m) => r := Err(SqlException(m));
    case Crashed(m) => r := Err(RuntimeException(m));
    case ResultSet(columns, rows) =>
      var table := FormatResultSet(columns, rows);
      r := Ok("\nQuery Results:\n" + table);
  }

  /** `testConnection`: resolve and load the driver, then test on a fresh connection. */
  method TestConnection(config: JdbcConnection, classpath: set<string>, probe: Probe) returns (outcome: Outcome)
    ensures outcome == TestReport(config, classpath, probe)
  {
    var driver := GetDriverClass(config.url);
    if driver.Err? {
      return Threw(driver.error);
    }
    if driver.value !in classpath {
      return Returned("JDBC Driver not found: " + driver.value);
    }
    outcome := TestConnected(config, probe);
  }

  /** The try-with-resources block of `testConnection`, building its text the way the source's StringBuilder does. */
  method TestConnected(config: JdbcConnection, probe: Probe) returns (outcome: Outcome)
    ensures outcome == ConnectedReport(config, probe)
  {
    var result := "";
    match probe.connect
    case ConnectFailed(m) =>
      return Returned("Connection failed: " + m);
    case ConnectCrashed(m) =>
      return Threw(m);
    case Connected(closed) =>
      if !closed {
        result := result + "Connection successful to " + config.url + "\n";
        var query := TestQuery(config);
        var part := ExecuteCustomQuery(probe, query);
        match part
        case Err(SqlException(m)) =>
          return Returned("Connection failed: " + m);
        case Err(RuntimeException(m)) =>
          return Threw(m);
        case Ok(text) =>
          result := result + text;
      }
      return Returned(result);
  }

  /** An unsupported URL is not turned into text: the IllegalArgumentException propagates. */
  lemma UnsupportedUrlPropagates(config: JdbcConnection, classpath: set<string>, probe: Probe)
    requires forall i :: 0 <= i < |Supported| ==> !StartsWith(config.url, Supported[i].0)
    ensures TestReport(config, classpath, probe) == Threw("Unsupported database URL: " + config.url)
  {
    UnsupportedUrl(config.url);
  }

  /**
   * A test propagates an exception exactly when the URL is unsupported or the
   * driver throws an unchecked exception while connecting or while running
   * the test query.
   */
  lemma ThrowsExactly(config: JdbcConnection, classpath: set<string>, probe: Probe)
    ensures TestReport(config, classpath, probe).Threw? <==>
      || GetDriverClass(config.url).Err?
      || (&& GetDriverClass(config.url).value in classpath
          && probe.connect.ConnectCrashed?)
      || (&& GetDriverClass(config.url).value in classpath
          && probe.connect == Connected(false)
          && probe.execute(TestQuery(config)).Crashed?)
  {
  }

  /** A test runs exactly one query, the custom one or else the default: nothing else the database answers matters. */
  lemma OnlyTestQueryMatters(config: JdbcConnection, classpath: set<string>, p: Probe, q: Probe)
    requires p.connect == q.connect
    requires p.execute(TestQuery(config)) == q.execute(TestQuery(config))
    ensures TestReport(config, classpath, p) == TestReport(config, classpath, q)
  {
  }

  /** The query a configuration without a custom query runs is the fixed probe query. */
  lemma DefaultQueryUsed(config: JdbcConnection, classpath: set<string>, probe: Probe, columns: seq<string>, rows: seq<seq<Option<string>>>)
    requires config.customQuery.None?
    requires GetDriverClass(config.url).Ok? && GetDriverClass(config.url).value in classpath
    requires probe.connect == Connected(false)
    requires probe.execute("SELECT 1 as test_value") == ResultSet(columns, rows)
    ensures TestReport(config, classpath, probe) ==
      Returned("Connection successful to " + config.url + "\n" + "\nQuery Results:\n" + Formatted(columns, rows))
  {
  }

  /** A successful test's text: the success line, the results banner, then the formatted table of the test query. */
  lemma SuccessText(config: JdbcConnection, classpath: set<string>, probe: Probe)
    requires GetDriverClass(config.url).Ok? && GetDriverClass(config.url).value in classpath
    requires probe.connect == Connected(false)
    requires probe.execute(TestQuery(config)).ResultSet?
    ensures var table := probe.execute(TestQuery(config));
      TestReport(config, classpath, probe) ==
        Returned("Connection successful to " + config.url + "\n" + "\nQuery Results:\n" + Formatted(table.columns, table.rows))
  {
  }

  /**
   * Every result set the driver answers is rectangular, so when its names and
   * cells fit the field width, each row's cell sits under its column's header.
   */
  lemma AnswerColumnsLineUp(probe: Probe, query: string, k: nat, j: nat)
    requires probe.execute(query).ResultSet?
    requires forall c :: c in probe.execute(query).columns ==> |c| <= Width
    requires forall r, c :: r in probe.execute(query).rows && c in r ==> |Render(c)| <= Width
    requires k < |probe.execute(query).rows| && j < |probe.execute(query).columns|
    ensures var table := probe.execute(query);
      && |RowText(table.rows[k])| == |PaddedCells(table.columns)| == Width * |table.columns|
      && RowText(table.rows[k])[Width * j .. Width * (j + 1)] == Pad(Render(table.rows[k][j]))
  {
    var table := probe.execute(query);
    ColumnsLineUp(table.columns, table.rows, k, j);
  }
}
