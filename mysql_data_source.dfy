/** MySQLDataSource: a lazily opened mysqli connection. The connection is opened by
    the first operation that needs it (LoadDatabase) and at most once until Close
    succeeds; a failed open is remembered, so later selects fail fast and later
    updates report "Database connection error". Select failures are raised as
    DBOperationException, fatal exactly when the connection itself was lost.

    The mysqli extension and the server behind it are a parameter (Server): how the
    n-th connection attempt ends, what the server answers to the n-th query sent,
    whether closing or pinging the n-th connection succeeds, and
    real_escape_string. */
module MySql {
  import opened Strings
  import opened PhpValues
  import opened Options
  import opened Exceptions
  import opened DataSources
  import opened MySqlDialect
  import opened WhereClauses
  import opened UpdateQueryResults
  import opened SelectQueries
  import opened UpdateQueries

  /** How one connection attempt ends: connected; refused with connect_error; the
      mysqli constructor threw; or it connected but setting the charset or the
      collation threw, leaving its error on the connection object, which is kept. */
  datatype ConnectOutcome = Connected | Refused(error: string) | ConnectThrew | SetupThrew(setupError: string)

  /** The server's answer to one query: a result set (field count and rows), a
      statement that completed (affected rows, insert id), a failure reported
      through $db->error, or an exception raised by the driver. */
  datatype Reply = ResultSet(fieldCount: nat, rows: seq<Row>) | Done(affectedRows: int, insertId: int) | Failed(error: string) | Threw(message: string)

  datatype Server = Server(
    connect: nat -> ConnectOutcome,
    respond: (nat, string) -> Reply,
    closes: nat -> bool,
    pings: nat -> bool,
    realEscape: string -> string)

  /** The connection-related state of the data source: whether a connection object
      exists ($db), whether LoadDatabase already ran, how many connection attempts
      and queries were made, and the error and insert id of the last query. */
  datatype ConnState = ConnState(
    hasDb: bool,
    loadDatabaseCalled: bool,
    attempts: nat,
    sent: nat,
    lastError: string,
    lastInsertId: int)

  const Fresh: ConnState := ConnState(false, false, 0, 0, "", 0)

  // ---------------------------------------------------------------------------
  // Configuration and error reports

  /** __GetDatabaseOptions: the configuration array CreateDataSource builds; the port
      is included only when it is not empty. */
  function DatabaseOptions(dbHost: string, dbName: string, dbUser: string, dbPass: string, dbPort: Value, charset: string, collation: string): Value
  {
    Arr([Entry("hostname", Str(dbHost)), Entry("username", Str(dbUser)), Entry("password", Str(dbPass)),
         Entry("database", Str(dbName)), Entry("char_set", Str(charset)), Entry("dbcollat", Str(collation))]
        + (if IsEmpty(dbPort) then [] else [Entry("port", dbPort)]))
  }

  predicate ConfigHas(config: Value, key: string)
  {
    config.Arr? && IsSet(config.entries, key)
  }

  function ConfigText(config: Value, key: string): string
  {
    if config.Arr? then ToText(Lookup(config.entries, key)) else ""
  }

  /** GetConnectionDebugInfoReduced: "server:<hostname>", or "" without a hostname. */
  function DebugInfoReduced(config: Value): string
  {
    if ConfigHas(config, "hostname") then "server:" + ConfigText(config, "hostname") else ""
  }

  /** GetConnectionDebugInfo: "<user>@<host>:<database>", or "" when one is missing. */
  function DebugInfo(config: Value): string
  {
    if ConfigHas(config, "username") && ConfigHas(config, "hostname") && ConfigHas(config, "database") then
      ConfigText(config, "username") + "@" + ConfigText(config, "hostname") + ":" + ConfigText(config, "database")
    else ""
  }

  /** The options CreateDataSource builds always yield both debug texts. */
  lemma CreatedOptionsDebugInfo(dbHost: string, dbName: string, dbUser: string, dbPass: string, dbPort: Value, charset: string, collation: string)
    ensures var config := DatabaseOptions(dbHost, dbName, dbUser, dbPass, dbPort, charset, collation);
      DebugInfoReduced(config) == "server:" + dbHost
      && DebugInfo(config) == dbUser + "@" + dbHost + ":" + dbName
  {
    var config := DatabaseOptions(dbHost, dbName, dbUser, dbPass, dbPort, charset, collation);
    OptionsLookups(dbHost, dbName, dbUser, dbPass, dbPort, charset, collation);
    assert ConfigText(config, "hostname") == dbHost && ConfigHas(config, "hostname");
    assert ConfigText(config, "username") == dbUser && ConfigHas(config, "username");
    assert ConfigText(config, "database") == dbName && ConfigHas(config, "database");
  }

  lemma OptionsLookups(dbHost: string, dbName: string, dbUser: string, dbPass: string, dbPort: Value, charset: string, collation: string)
    ensures var es := DatabaseOptions(dbHost, dbName, dbUser, dbPass, dbPort, charset, collation).entries;
      Lookup(es, "hostname") == Str(dbHost) && Lookup(es, "username") == Str(dbUser) && Lookup(es, "database") == Str(dbName)
  {
    var e0, e1, e2, e3 := Entry("hostname", Str(dbHost)), Entry("username", Str(dbUser)), Entry("password", Str(dbPass)), Entry("database", Str(dbName));
    var rest := [Entry("char_set", Str(charset)), Entry("dbcollat", Str(collation))] + (if IsEmpty(dbPort) then [] else [Entry("port", dbPort)]);
    assert DatabaseOptions(dbHost, dbName, dbUser, dbPass, dbPort, charset, collation).entries == [e0] + ([e1] + ([e2] + ([e3] + rest)));
    assert "hostname"[0] != "username"[0] && "hostname"[0] != "database"[0];
    assert "username"[0] != "database"[0] && "password"[0] != "database"[0];
    LookupFront(e0, [e1] + ([e2] + ([e3] + rest)), "hostname");
    LookupFront(e0, [e1] + ([e2] + ([e3] + rest)), "username");
    LookupFront(e1, [e2] + ([e3] + rest), "username");
    LookupFront(e0, [e1] + ([e2] + ([e3] + rest)), "database");
    LookupFront(e1, [e2] + ([e3] + rest), "database");
    LookupFront(e2, [e3] + rest, "database");
    LookupFront(e3, rest, "database");
  }

  /** GetLoadExceptionFromMessage: a fatal DBOperationException whose message ends
      with the server name and whose report data is the full connection text. */
  function LoadException(config: Value, message: string): (e: Exception)
    ensures e.DBOperationException? && e.isFatal
    ensures e.message == message + DebugInfoReduced(config)
    ensures e.additionalData == map["connectionInfo" := DebugInfo(config)]
  {
    SetAdditionalData(NewDBOperationException(message + DebugInfoReduced(config), 0, true), map["connectionInfo" := DebugInfo(config)])
  }

  /** GetSelectSqlException: a lost connection is a fatal load exception, any other
      error a non-fatal exception naming the SQL. */
  function SelectException(config: Value, sql: string, error: string): Exception
  {
    if IsConnectionLost(error) then LoadException(config, error + "-")
    else NewDBOperationException("Error executing select query: " + sql + "-" + error, 0, false)
  }

  /** Fatal exactly for the lost-connection errors; only those carry the connection
      report, and the others quote the failed SQL. */
  lemma SelectExceptionFatalIff(config: Value, sql: string, error: string)
    ensures SelectException(config, sql, error).DBOperationException?
    ensures SelectException(config, sql, error).isFatal <==> IsConnectionLost(error)
    ensures !IsConnectionLost(error) ==>
      SelectException(config, sql, error).message == "Error executing select query: " + sql + "-" + error
      && SelectException(config, sql, error).additionalData == map[]
    ensures IsConnectionLost(error) ==>
      "connectionInfo" in SelectException(config, sql, error).additionalData
  {
  }

  // ---------------------------------------------------------------------------
  // The connection life cycle

  /** LoadDatabase($throwOnRecursion): the new state, and whether a connection
      object is available (or the exception raised). */
  function Load(s: ConnState, srv: Server, config: Value, throwOnRecursion: bool): (ConnState, Outcome<bool>)
  {
    if s.loadDatabaseCalled then
      if throwOnRecursion && !s.hasDb then (s, Throws(LoadException(config, "Recursive failed LoadDatabase call!")))
      else (s, Ok(s.hasDb))
    else if s.hasDb then (s.(loadDatabaseCalled := true), Ok(true))
    else
      var s' := s.(loadDatabaseCalled := true, attempts := s.attempts + 1);
      match srv.connect(s.attempts)
      case Connected => (s'.(hasDb := true, lastError := "", lastInsertId := 0), Ok(true))
      case Refused(error) => (s'.(hasDb := false), Throws(LoadException(config, error)))
      case ConnectThrew => (s', Throws(LoadException(config, "DB Connection failed!")))
      case SetupThrew(error) =>
        (s'.(hasDb := true, lastError := error, lastInsertId := 0), Throws(LoadException(config, "DB Connection failed!")))
  }

  /** The state after a run of LoadDatabase calls. */
  function LoadRun(s: ConnState, srv: Server, config: Value, flags: seq<bool>): ConnState
    decreases |flags|
  {
    if |flags| == 0 then s else LoadRun(Load(s, srv, config, flags[0]).0, srv, config, flags[1..])
  }

  lemma {:induction false} LoadRunSettled(s: ConnState, srv: Server, config: Value, flags: seq<bool>)
    requires s.loadDatabaseCalled
    ensures LoadRun(s, srv, config, flags) == s
    decreases |flags|
  {
    if |flags| > 0 {
      LoadRunSettled(Load(s, srv, config, flags[0]).0, srv, config, flags[1..]);
    }
  }

  /** However many operations load the database, at most one connection attempt is
      made until the connection is closed, and none once LoadDatabase has run. */
  lemma {:induction false} AtMostOneConnectAttempt(s: ConnState, srv: Server, config: Value, flags: seq<bool>)
    ensures LoadRun(s, srv, config, flags).attempts <= s.attempts + 1
    ensures s.loadDatabaseCalled ==> LoadRun(s, srv, config, flags).attempts == s.attempts
  {
    if |flags| > 0 {
      var s1 := Load(s, srv, config, flags[0]).0;
      assert s1.loadDatabaseCalled && s1.attempts <= s.attempts + 1;
      LoadRunSettled(s1, srv, config, flags[1..]);
    }
  }

  /** Once a load has produced a connection, later loads change nothing and report
      it again: loading early (as escaping a value does) and loading again before
      the query is the same as loading once. */
  lemma LoadOnceSuffices(s: ConnState, srv: Server, config: Value, first: bool, second: bool)
    requires Load(s, srv, config, first).1 == Ok(true)
    ensures var s1 := Load(s, srv, config, first).0;
      Load(s1, srv, config, second) == (s1, Ok(true))
  {
  }

  /** A load with the recursion check either throws or yields a connection. */
  lemma CheckedLoadConnects(s: ConnState, srv: Server, config: Value)
    ensures Load(s, srv, config, true).1.Ok? ==> Load(s, srv, config, true).1 == Ok(true)
  {
  }

  /** After a failed open, loading with the recursion check throws at once and
      loading without it reports that there is no connection; neither retries. */
  lemma FailedLoadIsSticky(s: ConnState, srv: Server, config: Value)
    requires s.loadDatabaseCalled && !s.hasDb
    ensures Load(s, srv, config, true) == (s, Throws(LoadException(config, "Recursive failed LoadDatabase call!")))
    ensures Load(s, srv, config, false) == (s, Ok(false))
  {
  }

  /** Close: a loaded connection is closed and forgotten when closing succeeds; with
      no loaded connection it succeeds and changes nothing. */
  function CloseSpec(s: ConnState, srv: Server): (ConnState, bool)
  {
    if s.loadDatabaseCalled && s.hasDb then
      if srv.closes(s.attempts) then (s.(hasDb := false, loadDatabaseCalled := false), true)
      else (s, false)
    else (s, true)
  }

  /** After a successful close of an open connection there is no connection to ask
      for an error, and the next load connects again; a new connection reports no
      error and no insert id from the closed one. */
  lemma CloseThenReconnect(s: ConnState, srv: Server, config: Value, throwOnRecursion: bool)
    requires s.loadDatabaseCalled && s.hasDb && srv.closes(s.attempts)
    ensures ErrorMessageOf(CloseSpec(s, srv).0) == Null
    ensures var (s2, o) := Load(CloseSpec(s, srv).0, srv, config, throwOnRecursion);
      s2.attempts == s.attempts + 1
      && (srv.connect(s.attempts).Connected? ==> o == Ok(true) && s2.lastError == "" && s2.lastInsertId == 0)
  {
  }

  /** $db->error: the error of the last statement on the connection; with no
      connection object the property read yields null. */
  function ErrorMessageOf(s: ConnState): (r: Value)
    ensures r == Null <==> !s.hasDb
    ensures r.Str? ==> r.s == s.lastError
  {
    if s.hasDb then Str(s.lastError) else Null
  }

  /** A connection attempt that leaves a connection object starts with the error
      and insert id of that new connection, never those of an earlier one; one
      that leaves none has no error message to read. */
  lemma ConnectResetsLastQuery(s: ConnState, srv: Server, config: Value, throwOnRecursion: bool)
    requires !s.loadDatabaseCalled && !s.hasDb
    ensures var (s2, _) := Load(s, srv, config, throwOnRecursion);
      match srv.connect(s.attempts)
      case Connected => ErrorMessageOf(s2) == Str("") && s2.lastInsertId == 0
      case SetupThrew(error) => ErrorMessageOf(s2) == Str(error) && s2.lastInsertId == 0
      case _ => ErrorMessageOf(s2) == Null
  {
  }

  // ---------------------------------------------------------------------------
  // Queries

  /** Sending one query: the server's answer, and the error and insert id that
      $db->error and $db->insert_id then report. */
  function Send(s: ConnState, srv: Server, sql: string): (ConnState, Reply)
  {
    var reply := srv.respond(s.sent, sql);
    var error := match reply
      case Failed(e) => e
      case Threw(m) => m
      case _ => "";
    var insertId := if reply.Done? then reply.insertId else 0;
    (s.(sent := s.sent + 1, lastError := error, lastInsertId := insertId), reply)
  }

  function Escaper(srv: Server): Value -> string
  {
    v => EscapeValue(srv.realEscape, v)
  }

  /** SqlSelectQuery: load (throwing on a remembered failure), substitute the binds,
      run; a driver exception becomes a fatal load exception, a failure the select
      exception. The reply returned is a result set or a completed statement. */
  function SqlSelect(s: ConnState, srv: Server, config: Value, sql: string, params: seq<Value>): (ConnState, Outcome<Reply>)
  {
    var (s1, loaded) := Load(s, srv, config, true);
    if loaded.Throws? then (s1, Throws(loaded.ex))
    else
      var compiled := CompileBindsFixed(Escaper(srv), sql, params);
      var (s2, reply) := Send(s1, srv, compiled);
      match reply
      case Threw(m) => (s2, Throws(LoadException(config, m + "-")))
      case Failed(e) => (s2, Throws(SelectException(config, compiled, e)))
      case _ => (s2, Ok(reply))
  }

  /** A select never hands back a failure reply: failures become exceptions. */
  lemma SqlSelectRepliesSucceeded(s: ConnState, srv: Server, config: Value, sql: string, params: seq<Value>)
    ensures SqlSelect(s, srv, config, sql, params).1.Ok? ==>
      SqlSelect(s, srv, config, sql, params).1.value.ResultSet? || SqlSelect(s, srv, config, sql, params).1.value.Done?
    ensures SqlSelect(s, srv, config, sql, params).1.Throws? ==>
      SqlSelect(s, srv, config, sql, params).1.ex.DBOperationException?
  {
  }

  /** After a failed open every select throws the fatal recursion error without
      contacting the server. */
  lemma SelectAfterFailedLoad(s: ConnState, srv: Server, config: Value, sql: string, params: seq<Value>)
    requires s.loadDatabaseCalled && !s.hasDb
    ensures SqlSelect(s, srv, config, sql, params) == (s, Throws(LoadException(config, "Recursive failed LoadDatabase call!")))
    ensures SqlSelect(s, srv, config, sql, params).1.ex.isFatal
  {
  }

  /** The rows a fetch loop collects: it stops at the first row that is falsy (an
      empty array). */
  function FetchedRows(rows: seq<Row>): (r: seq<Row>)
    ensures |r| <= |rows|
    decreases |rows|
  {
    if |rows| == 0 || |rows[0]| == 0 then [] else [rows[0]] + FetchedRows(rows[1..])
  }

  /** When every row has a column, as in any real result set, all rows are
      fetched. */
  lemma {:induction false} FetchedAllRows(rows: seq<Row>)
    requires forall k :: 0 <= k < |rows| ==> |rows[k]| > 0
    ensures FetchedRows(rows) == rows
    decreases |rows|
  {
    if |rows| > 0 {
      FetchedAllRows(rows[1..]);
    }
  }

  /** One step of the fetch loop: a row with a column is taken, and the rest follow. */
  lemma FetchStep(rows: seq<Row>, i: nat)
    requires i < |rows| && |rows[i]| > 0
    ensures FetchedRows(rows[i..]) == [rows[i]] + FetchedRows(rows[i + 1..])
    ensures rows[..i + 1] == rows[..i] + [rows[i]]
  {
    assert rows[i..][1..] == rows[i + 1..];
  }

  function RecordsetOf(reply: Reply): seq<Row>
  {
    if reply.ResultSet? then FetchedRows(reply.rows) else []
  }

  /** The first row when there is one, else the given empty marker. */
  function RecordOf(reply: Reply, none: Value): Value
  {
    if reply.ResultSet? && |reply.rows| > 0 then Arr(reply.rows[0]) else none
  }

  /** GetSqlResult: the first column of the first row, else the default. */
  function SqlResultOf(reply: Reply, default: Value): Value
  {
    if reply.ResultSet? && |reply.rows| > 0 && reply.fieldCount > 0 && |reply.rows[0]| > 0 then reply.rows[0][0].val
    else default
  }

  /** GetResult: the default when there is no row or no column; otherwise the first
      column of the first row (null if that row is empty). */
  function ResultOf(reply: Reply, default: Value): Value
  {
    if !reply.ResultSet? || |reply.rows| == 0 || reply.fieldCount == 0 then default
    else if |reply.rows[0]| > 0 then reply.rows[0][0].val
    else Null
  }

  /** Both single-value readers return the default exactly when nothing came back,
      and otherwise agree on well-formed rows. */
  lemma ResultDefaults(reply: Reply, default: Value)
    ensures !reply.ResultSet? || |reply.rows| == 0 ==> ResultOf(reply, default) == default && SqlResultOf(reply, default) == default
    ensures reply.ResultSet? && |reply.rows| > 0 && reply.fieldCount > 0 && |reply.rows[0]| > 0 ==>
      ResultOf(reply, default) == SqlResultOf(reply, default) == reply.rows[0][0].val
  {
  }

  /** ExecuteQuery: no connection gives PHP's false (None); otherwise the server's
      answer, with a driver exception passed through. */
  function ExecuteQuerySpec(s: ConnState, srv: Server, config: Value, sql: string, params: seq<Value>): (ConnState, Outcome<Option<Reply>>)
  {
    var (s1, loaded) := Load(s, srv, config, false);
    if loaded.Throws? then (s1, Throws(loaded.ex))
    else if !loaded.value then (s1, Ok(None))
    else
      var compiled := if |params| > 0 then CompileBindsFixed(Escaper(srv), sql, params) else sql;
      var (s2, reply) := Send(s1, srv, compiled);
      if reply.Threw? then (s2, Throws(RuntimeException(reply.message))) else (s2, Ok(Some(reply)))
  }

  /** ExecuteUpdateQuery for a query whose SQL compiles: INSERT succeeds on any
      non-failure and records the insert id, UPDATE/DELETE record the affected rows;
      a failure records the server's error. */
  function UpdateResultOf(queryType: string, reply: Reply, s: ConnState): UpdateQueryResult
  {
    if reply.Failed? then UpdateQueryResult(0, s.lastError, 0, 0)
    else if queryType == "INSERT" then UpdateQueryResult(1, "", 0, s.lastInsertId)
    else UpdateQueryResult(1, "", if reply.Done? then reply.affectedRows else if reply.ResultSet? then |reply.rows| else 0, 0)
  }

  function ExecuteUpdateSpec(s: ConnState, srv: Server, config: Value, d: QueryDescriptor): (ConnState, Outcome<UpdateQueryResult>)
  {
    var (s1, loaded) := Load(s, srv, config, false);
    if loaded.Throws? then (s1, Throws(loaded.ex))
    else if !loaded.value then (s1, Ok(CreateError("Database connection error")))
    else if !(d.queryType in {"INSERT", "UPDATE", "DELETE"}) then (s1, Ok(CreateError("Unknown update operation type: " + d.queryType)))
    else
      SendUpdateSpec(s1, srv, d.queryType, SqlForType(Dialect(srv.realEscape), d).value)
  }

  /** Sending a compiled update statement and reading its result off the connection. */
  function SendUpdateSpec(s: ConnState, srv: Server, queryType: string, sql: string): (ConnState, Outcome<UpdateQueryResult>)
  {
    var (s2, reply) := Send(s, srv, sql);
    if reply.Threw? then (s2, Throws(RuntimeException(reply.message)))
    else (s2, Ok(UpdateResultOf(queryType, reply, s2)))
  }

  /** The update outcome follows the server: success exactly when the statement did
      not fail, with the server's error message on failure and the new row's id on
      an insert. After a failed open nothing is sent and the result is the
      connection error. */
  lemma UpdateOutcome(s: ConnState, srv: Server, config: Value, d: QueryDescriptor)
    ensures var (s1, o) := ExecuteUpdateSpec(s, srv, config, d);
      o.Ok? && s1.sent == s.sent + 1 ==>
        var reply := srv.respond(Load(s, srv, config, false).0.sent, SqlForType(Dialect(srv.realEscape), d).value);
        (o.value.success == 1 <==> !reply.Failed?)
        && (reply.Failed? ==> o.value.errorMessage == reply.error)
        && (d.queryType == "INSERT" && reply.Done? ==> o.value.insertedID == reply.insertId)
    ensures s.loadDatabaseCalled && !s.hasDb ==>
      ExecuteUpdateSpec(s, srv, config, d) == (s, Ok(CreateError("Database connection error")))
  {
  }

  /** Under MySQL an UPDATE or DELETE carries a WHERE part exactly when one of its
      specifications yields a conjunct; otherwise it affects the whole table. */
  lemma MySqlWherePart(srv: Server, d: QueryDescriptor)
    ensures var ds := Dialect(srv.realEscape);
      |Fragments(ds, d.fieldWhere, true)| == 0 ==>
        DeleteSqlOf(ds, d) == "DELETE FROM " + EscapeIdentifier(d.tableName)
    ensures var ds := Dialect(srv.realEscape);
      |Fragments(ds, d.fieldWhere, true)| > 0 ==>
        DeleteSqlOf(ds, d) == "DELETE FROM " + EscapeIdentifier(d.tableName) + " WHERE " + WhereClause(ds, d.fieldWhere, true)
  {
    MySqlWhereEmptyIff(srv.realEscape, d.fieldWhere);
  }

  // ---------------------------------------------------------------------------
  // The data source object

  class MySqlDataSource {
    const config: Value
    const server: Server
    var hasDb: bool
    var loadDatabaseCalled: bool
    var attempts: nat
    var sent: nat
    var lastError: string
    var lastInsertId: int

    function State(): ConnState
      reads this
    {
      ConnState(hasDb, loadDatabaseCalled, attempts, sent, lastError, lastInsertId)
    }

    /** The connection is not opened here but at the first database access. */
    constructor(config: Value, server: Server)
      ensures this.config == config && this.server == server
      ensures State() == Fresh
    {
      this.config := config;
      this.server := server;
      hasDb := false;
      loadDatabaseCalled := false;
      attempts := 0;
      sent := 0;
      lastError := "";
      lastInsertId := 0;
    }

    static method CreateDataSource(dbHost: string, dbName: string, dbUser: string, dbPass: string, dbPort: Value, charset: string, collation: string, server: Server)
      returns (ds: MySqlDataSource)
      ensures fresh(ds)
      ensures ds.config == DatabaseOptions(dbHost, dbName, dbUser, dbPass, dbPort, charset, collation)
      ensures ds.server == server && ds.State() == Fresh
    {
      ds := new MySqlDataSource(DatabaseOptions(dbHost, dbName, dbUser, dbPass, dbPort, charset, collation), server);
    }

    method LoadDatabase(throwOnRecursion: bool) returns (r: Outcome<bool>)
      modifies this
      ensures (State(), r) == Load(old(State()), server, config, throwOnRecursion)
    {
      if loadDatabaseCalled {
        if throwOnRecursion && !hasDb {
          return Throws(LoadException(config, "Recursive failed LoadDatabase call!"));
        }
        return Ok(hasDb);
      }
      loadDatabaseCalled := true;
      if !hasDb {
        var outcome := server.connect(attempts);
        attempts := attempts + 1;
        match outcome {
          case Connected =>
            hasDb := true;
            lastError := "";
            lastInsertId := 0;
          case Refused(error) =>
            hasDb := false;
            return Throws(LoadException(config, error));
          case ConnectThrew =>
            return Throws(LoadException(config, "DB Connection failed!"));
          case SetupThrew(error) =>
            hasDb := true;
            lastError := error;
            lastInsertId := 0;
            return Throws(LoadException(config, "DB Connection failed!"));
        }
      }
      return Ok(true);
    }

    /** Whether a connection is (or can be) established; exceptions become false. */
    method TryConnect() returns (connected: bool)
      modifies this
      ensures var (s, o) := Load(old(State()), server, config, false);
        State() == s && connected == (o.Ok? && o.value)
    {
      var loaded := LoadDatabase(false);
      connected := loaded.Ok? && loaded.value;
    }

    /** Whether a connection is available and answers a ping; exceptions become
        false. */
    method PingConnection() returns (alive: bool)
      modifies this
      ensures var (s, o) := Load(old(State()), server, config, false);
        State() == s && (alive <==> o.Ok? && o.value && server.pings(s.attempts))
    {
      var loaded := LoadDatabase(false);
      alive := loaded.Ok? && loaded.value && server.pings(attempts);
    }

    method Close() returns (success: bool)
      modifies this
      ensures (State(), success) == CloseSpec(old(State()), server)
    {
      if loadDatabaseCalled && hasDb {
        success := server.closes(attempts);
        if success {
          hasDb := false;
          loadDatabaseCalled := false;
        }
      } else {
        success := true;
      }
    }

    /** Escaping a value first makes sure the connection is loaded. */
    method EscapeValueOf(value: Value) returns (r: Outcome<string>)
      modifies this
      ensures var (s, o) := Load(old(State()), server, config, true);
        State() == s && r == MapOk(o, _ => EscapeValue(server.realEscape, value))
    {
      var loaded := LoadDatabase(true);
      if loaded.Throws? {
        return Throws(loaded.ex);
      }
      return Ok(EscapeValue(server.realEscape, value));
    }

    /** The operator is returned unchanged, after the connection is loaded. */
    method GetOperator(operator: string) returns (r: Outcome<string>)
      modifies this
      ensures var (s, o) := Load(old(State()), server, config, true);
        State() == s && r == MapOk(o, _ => operator)
    {
      var loaded := LoadDatabase(true);
      if loaded.Throws? {
        return Throws(loaded.ex);
      }
      return Ok(operator);
    }

    /** The insert id of the last query, after the connection is loaded. */
    method GetIdentity() returns (r: Outcome<int>)
      modifies this
      ensures var (s, o) := Load(old(State()), server, config, true);
        State() == s && r == MapOk(o, _ => s.lastInsertId)
    {
      var loaded := LoadDatabase(true);
      if loaded.Throws? {
        return Throws(loaded.ex);
      }
      return Ok(lastInsertId);
    }

    /** Reads $db->error without loading the connection first. */
    method GetErrorMessage() returns (error: Value)
      ensures error == ErrorMessageOf(State())
    {
      if hasDb {
        error := Str(lastError);
      } else {
        error := Null;
      }
    }

    method SendQuery(sql: string) returns (reply: Reply)
      modifies this
      ensures (State(), reply) == Send(old(State()), server, sql)
    {
      reply := server.respond(sent, sql);
      sent := sent + 1;
      match reply {
        case Failed(e) => lastError := e;
        case Threw(m) => lastError := m;
        case _ => lastError := "";
      }
      lastInsertId := if reply.Done? then reply.insertId else 0;
    }

    method SqlSelectQuery(sql: string, parameters: seq<Value>) returns (r: Outcome<Reply>)
      modifies this
      ensures (State(), r) == SqlSelect(old(State()), server, config, sql, parameters)
    {
      var loaded := LoadDatabase(true);
      if loaded.Throws? {
        return Throws(loaded.ex);
      }
      var sqlCompiled := CompileBinds(Escaper(server), sql, parameters);
      var reply := SendQuery(sqlCompiled);
      match reply {
        case Threw(m) =>
          return Throws(LoadException(config, m + "-"));
        case Failed(e) =>
          return Throws(SelectException(config, sqlCompiled, e));
        case _ =>
          return Ok(reply);
      }
    }

    /** SelectQuery: the command with its LIMIT/OFFSET suffix and its parameters. */
    method SelectQuery(q: SelectDataQuery) returns (r: Outcome<Reply>)
      modifies this
      ensures (State(), r) == SqlSelect(old(State()), server, config, PagedSql(q.commandSql, q.limit, q.offset), q.parameters)
    {
      var sql := q.commandSql;
      if q.limit >= 0 {
        sql := sql + " LIMIT " + IntToString(q.limit);
      }
      if q.offset >= 0 {
        sql := sql + " OFFSET " + IntToString(q.offset);
      }
      r := SqlSelectQuery(sql, q.parameters);
    }

    /** The fetch loop shared by the recordset readers. */
    static method FetchAll(reply: Reply) returns (rows: seq<Row>)
      ensures rows == RecordsetOf(reply)
    {
      rows := [];
      if reply.ResultSet? {
        var i := 0;
        while i < |reply.rows| && |reply.rows[i]| > 0
          invariant 0 <= i <= |reply.rows|
          invariant forall k :: 0 <= k < i ==> |reply.rows[k]| > 0
          invariant rows == reply.rows[..i]
          invariant FetchedRows(reply.rows) == rows + FetchedRows(reply.rows[i..])
        {
          FetchStep(reply.rows, i);
          rows := rows + [reply.rows[i]];
          i := i + 1;
        }
        assert FetchedRows(reply.rows[i..]) == [];
      }
    }

    method GetSqlRecordset(commandText: string, commandParameters: seq<Value>) returns (r: Outcome<seq<Row>>)
      modifies this
      ensures var (s, o) := SqlSelect(old(State()), server, config, commandText, commandParameters);
        State() == s && r == MapOk(o, RecordsetOf)
    {
      var query := SqlSelectQuery(commandText, commandParameters);
      if query.Throws? {
        return Throws(query.ex);
      }
      var rows := FetchAll(query.value);
      return Ok(rows);
    }

    /** fetch_object yields the same data as fetch_assoc: objects are modelled by
        their property arrays. */
    method GetSqlObjectset(commandText: string, commandParameters: seq<Value>) returns (r: Outcome<seq<Row>>)
      modifies this
      ensures var (s, o) := SqlSelect(old(State()), server, config, commandText, commandParameters);
        State() == s && r == MapOk(o, RecordsetOf)
    {
      r := GetSqlRecordset(commandText, commandParameters);
    }

    /** The first row, or FALSE when the result is empty. */
    method GetSqlRecord(commandText: string, commandParameters: seq<Value>) returns (r: Outcome<Value>)
      modifies this
      ensures var (s, o) := SqlSelect(old(State()), server, config, commandText, commandParameters);
        State() == s && r == MapOk(o, reply => RecordOf(reply, Bool(false)))
    {
      var query := SqlSelectQuery(commandText, commandParameters);
      if query.Throws? {
        return Throws(query.ex);
      }
      return Ok(RecordOf(query.value, Bool(false)));
    }

    /** The first row, or null when the result is empty. */
    method GetSqlObject(commandText: string, commandParameters: seq<Value>) returns (r: Outcome<Value>)
      modifies this
      ensures var (s, o) := SqlSelect(old(State()), server, config, commandText, commandParameters);
        State() == s && r == MapOk(o, reply => RecordOf(reply, Null))
    {
      var query := SqlSelectQuery(commandText, commandParameters);
      if query.Throws? {
        return Throws(query.ex);
      }
      return Ok(RecordOf(query.value, Null));
    }

    method GetRecordset(q: SelectDataQuery) returns (r: Outcome<seq<Row>>)
      modifies this
      ensures var (s, o) := SqlSelect(old(State()), server, config, PagedSql(q.commandSql, q.limit, q.offset), q.parameters);
        State() == s && r == MapOk(o, RecordsetOf)
    {
      var query := SelectQuery(q);
      if query.Throws? {
        return Throws(query.ex);
      }
      var rows := FetchAll(query.value);
      return Ok(rows);
    }

    method GetRecord(q: SelectDataQuery) returns (r: Outcome<Value>)
      modifies this
      ensures var (s, o) := SqlSelect(old(State()), server, config, PagedSql(q.commandSql, q.limit, q.offset), q.parameters);
        State() == s && r == MapOk(o, reply => RecordOf(reply, Null))
    {
      var query := SelectQuery(q);
      if query.Throws? {
        return Throws(query.ex);
      }
      return Ok(RecordOf(query.value, Null));
    }

    method GetSqlResult(commandText: string, commandParameters: seq<Value>, defaultValue: Value) returns (r: Outcome<Value>)
      modifies this
      ensures var (s, o) := SqlSelect(old(State()), server, config, commandText, commandParameters);
        State() == s && r == MapOk(o, reply => SqlResultOf(reply, defaultValue))
    {
      var query := SqlSelectQuery(commandText, commandParameters);
      if query.Throws? {
        return Throws(query.ex);
      }
      return Ok(SqlResultOf(query.value, defaultValue));
    }

    method GetResult(q: SelectDataQuery, defaultValue: Value) returns (r: Outcome<Value>)
      modifies this
      ensures var (s, o) := SqlSelect(old(State()), server, config, PagedSql(q.commandSql, q.limit, q.offset), q.parameters);
        State() == s && r == MapOk(o, reply => ResultOf(reply, defaultValue))
    {
      var query := SelectQuery(q);
      if query.Throws? {
        return Throws(query.ex);
      }
      return Ok(ResultOf(query.value, defaultValue));
    }

    method ExecuteQuery(sql: string, parameters: seq<Value>) returns (r: Outcome<Option<Reply>>)
      modifies this
      ensures (State(), r) == ExecuteQuerySpec(old(State()), server, config, sql, parameters)
    {
      var loaded := LoadDatabase(false);
      if loaded.Throws? {
        return Throws(loaded.ex);
      }
      if !loaded.value {
        return Ok(None);
      }
      var compiled := sql;
      if |parameters| > 0 {
        compiled := CompileBinds(Escaper(server), sql, parameters);
      }
      var reply := SendQuery(compiled);
      if reply.Threw? {
        return Throws(RuntimeException(reply.message));
      }
      return Ok(Some(reply));
    }

    method ExecuteUpdateQuery(q: UpdateDataQuery) returns (r: Outcome<UpdateQueryResult>)
      modifies this
      ensures (State(), r) == ExecuteUpdateSpec(old(State()), server, config, q.Descriptor())
    {
      var loaded := LoadDatabase(false);
      if loaded.Throws? {
        return Throws(loaded.ex);
      }
      if !loaded.value {
        return Ok(CreateError("Database connection error"));
      }
      var ds := Dialect(server.realEscape);
      if q.queryType != "INSERT" && q.queryType != "UPDATE" && q.queryType != "DELETE" {
        return Ok(CreateError("Unknown update operation type: " + q.queryType));
      }
      var sql: string;
      if q.queryType == "INSERT" {
        sql := q.InsertSql(ds);
      } else if q.queryType == "DELETE" {
        sql := q.DeleteSql(ds);
      } else {
        sql := q.UpdateSql(ds);
      }
      r := SendUpdate(q.queryType, sql);
    }

    /** The tail of ExecuteUpdateQuery: send the statement, then read the error
        message on failure, or the insert id or the affected rows on success. */
    method SendUpdate(queryType: string, sql: string) returns (r: Outcome<UpdateQueryResult>)
      requires State().loadDatabaseCalled && State().hasDb
      modifies this
      ensures (State(), r) == SendUpdateSpec(old(State()), server, queryType, sql)
    {
      var reply := SendQuery(sql);
      if reply.Threw? {
        return Throws(RuntimeException(reply.message));
      }
      var result := NewUpdateQueryResult(Bool(!reply.Failed?), "");
      if result.success == 0 {
        var error := GetErrorMessage();
        result := result.(errorMessage := error.s);
      } else if queryType == "INSERT" {
        var identity := GetIdentity();
        assert identity.Ok?;
        result := result.(insertedID := identity.value);
      } else {
        result := result.(rowsModified := if reply.Done? then reply.affectedRows else if reply.ResultSet? then |reply.rows| else 0);
      }
      return Ok(result);
    }
  }
}
