/**
 * The records the connection registry stores, and the values that stand for
 * what the JDBC driver reports back (which this model does not implement).
 */
module Model {

  datatype Option<+T> = None | Some(value: T)

  datatype Result<+T, +E> = Ok(value: T) | Err(error: E)

  /** Java `int`. */
  type Int32 = x: int | -0x8000_0000 <= x < 0x8000_0000

  /**
   * The connection configuration record. `email`, the four `bp*` routing tags
   * and `active` are carried along but never read by the registry.
   * `customQuery` is the only field whose absence (Java `null`) the code tests.
   */
  datatype JdbcConnection = JdbcConnection(
    connectionName: string,
    email: string,
    bpIncoming: string,
    bpOutgoing: string,
    bpAcknowledgement: string,
    bpSyncResponse: string,
    url: string,
    username: string,
    password: string,
    customQuery: Option<string>,
    active: bool,
    autoTestInterval: Int32)

  /** The last test result kept per connection: when it ran, and its text. */
  datatype AutoTester = AutoTester(timestamp: string, result: string)

  /** An exception a driver call throws: a checked SQLException, or an unchecked exception. */
  datatype Thrown = SqlException(message: string) | RuntimeException(message: string)

  /** What a service call does: return a text, or let an exception with this message propagate. */
  datatype Outcome = Returned(text: string) | Threw(message: string)

  /** What `isClosed` answers for a handle whose flag is `closed`, unless the driver throws `failure` instead. */
  function ClosedAnswer(closed: bool, failure: Option<Thrown>): Result<bool, Thrown>
  {
    match failure
    case Some(e) => Err(e)
    case None => Ok(closed)
  }

  /** A live JDBC connection handle; the registry only ever asks whether it is closed, and closes it. */
  class Connection {
    var closed: bool

    constructor ()
      ensures !closed
    {
      closed := false;
    }

    /** `Connection.isClosed()`: the flag, or the exception `failure` the driver throws instead; nothing changes. */
    method IsClosed(failure: Option<Thrown>) returns (answer: Result<bool, Thrown>)
      ensures answer.Ok? <==> failure.None?
      ensures answer.Ok? ==> answer.value == closed
      ensures answer.Err? ==> answer.error == failure.value
    {
      if failure.Some? {
        return Err(failure.value);
      }
      return Ok(closed);
    }

    /**
     * `Connection.close()`: `failure` is the exception the driver throws, if
     * it does; a failed close leaves the handle as it was.
     */
    method Close(failure: Option<Thrown>) returns (error: Option<Thrown>)
      modifies this
      ensures error == failure
      ensures closed == (failure.None? || old(closed))
    {
      error := failure;
      if failure.None? {
        closed := true;
      }
    }
  }

  /** Outcome of `DriverManager.getConnection` for a connection that the registry keeps. */
  datatype Open = Opened(connection: Connection) | OpenFailed(message: string)

  /**
   * Outcome of opening the short-lived connection of a test and asking it
   * `isClosed`: the answer, the message of an SQLException thrown by either
   * call, or the message of an unchecked exception thrown by either.
   */
  datatype Connect = Connected(closed: bool) | ConnectFailed(message: string) | ConnectCrashed(message: string)

  /**
   * Outcome of running one query: the result set (column names, then each row
   * as its cells in column order, `None` for SQL NULL), an SQLException, or an
   * unchecked exception thrown by the driver.
   */
  datatype QueryOutcome =
    | ResultSet(columns: seq<string>, rows: seq<seq<Option<string>>>)
    | SqlFailed(message: string)
    | Crashed(message: string)

  /** A JDBC result set: every row holds one cell per column, the `columnCount` the metadata reports. */
  predicate Rectangular(columns: seq<string>, rows: seq<seq<Option<string>>>)
  {
    forall k :: 0 <= k < |rows| ==> |rows[k]| == |columns|
  }

  /** A query outcome a driver can produce: a result set is always rectangular. */
  type QueryAnswer = o: QueryOutcome | o.ResultSet? ==> Rectangular(o.columns, o.rows) witness SqlFailed("")

  /** What the database does during one test: the fresh connection, and the answer to any query. */
  datatype Probe = Probe(connect: Connect, execute: string -> QueryAnswer)
}
