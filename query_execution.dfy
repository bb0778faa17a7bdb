/** The query objects' own execution methods, which hand the query to a data source:
    SelectDataQuery::GetRecordset ... GetObjectSet, the same getters on
    SelectExtendedDataQuery (which first compile themselves into a SelectDataQuery)
    and UpdateDataQuery::ExecuteUpdate. They live in a module of their own because
    the data source already depends on the query classes. */
module QueryExecution {
  import opened PhpValues
  import opened Options
  import opened Exceptions
  import opened MySqlDialect
  import opened UpdateQueryResults
  import opened SelectQueries
  import opened SelectBuilders
  import opened UpdateQueries
  import opened MySql

  /** GetObject: no object for a missing or empty record; otherwise the object built
      from the record (a cast to stdClass, or the named class's constructor). */
  function ObjectOf<T>(make: Row -> T, record: Value): (r: Option<T>)
    ensures r.Some? <==> record.Arr? && |record.entries| > 0
    ensures r.Some? ==> r.value == make(record.entries)
  {
    if IsEmpty(record) || !record.Arr? then None else Some(make(record.entries))
  }

  /** The query as the data source runs it: its SQL with the paging suffix. */
  function PagedOf(q: SelectDataQuery): string
    reads q
  {
    PagedSql(q.commandSql, q.limit, q.offset)
  }

  method GetRecordset(q: SelectDataQuery, dataSource: MySqlDataSource) returns (r: Outcome<seq<Row>>)
    modifies dataSource
    ensures var (s, o) := SqlSelect(old(dataSource.State()), dataSource.server, dataSource.config, PagedOf(q), q.parameters);
      dataSource.State() == s && r == MapOk(o, RecordsetOf)
  {
    r := dataSource.GetRecordset(q);
  }

  method GetRecord(q: SelectDataQuery, dataSource: MySqlDataSource) returns (r: Outcome<Value>)
    modifies dataSource
    ensures var (s, o) := SqlSelect(old(dataSource.State()), dataSource.server, dataSource.config, PagedOf(q), q.parameters);
      dataSource.State() == s && r == MapOk(o, reply => RecordOf(reply, Null))
  {
    r := dataSource.GetRecord(q);
  }

  method GetResult(q: SelectDataQuery, dataSource: MySqlDataSource, defaultValue: Value) returns (r: Outcome<Value>)
    modifies dataSource
    ensures var (s, o) := SqlSelect(old(dataSource.State()), dataSource.server, dataSource.config, PagedOf(q), q.parameters);
      dataSource.State() == s && r == MapOk(o, reply => ResultOf(reply, defaultValue))
  {
    r := dataSource.GetResult(q, defaultValue);
  }

  method GetObject<T>(q: SelectDataQuery, dataSource: MySqlDataSource, make: Row -> T) returns (r: Outcome<Option<T>>)
    modifies dataSource
    ensures var (s, o) := SqlSelect(old(dataSource.State()), dataSource.server, dataSource.config, PagedOf(q), q.parameters);
      dataSource.State() == s && r == MapOk(o, reply => ObjectOf(make, RecordOf(reply, Null)))
  {
    var dataRow := dataSource.GetRecord(q);
    if dataRow.Throws? {
      return Throws(dataRow.ex);
    }
    return Ok(ObjectOf(make, dataRow.value));
  }

  method GetObjectSet<T>(q: SelectDataQuery, dataSource: MySqlDataSource, make: Row -> T) returns (r: Outcome<seq<T>>)
    modifies dataSource
    ensures var (s, o) := SqlSelect(old(dataSource.State()), dataSource.server, dataSource.config, PagedOf(q), q.parameters);
      dataSource.State() == s && r == MapOk(o, reply => ArrayMap(make, RecordsetOf(reply)))
  {
    var dataRowSet := dataSource.GetRecordset(q);
    if dataRowSet.Throws? {
      return Throws(dataRowSet.ex);
    }
    var rows := dataRowSet.value;
    var objSet: seq<T> := [];
    var i := 0;
    while i < |rows|
      invariant 0 <= i <= |rows|
      invariant objSet == ArrayMap(make, rows[..i])
    {
      objSet := objSet + [make(rows[i])];
      i := i + 1;
    }
    assert rows[..i] == rows;
    return Ok(objSet);
  }

  /** A record that came back yields an object exactly when it has a column; a
      query without rows yields none. */
  lemma ObjectPresentIff<T>(make: Row -> T, reply: Reply)
    ensures ObjectOf(make, RecordOf(reply, Null)).Some? <==>
      reply.ResultSet? && |reply.rows| > 0 && |reply.rows[0]| > 0
  {
  }

  /** UpdateDataQuery::ExecuteUpdate. */
  method ExecuteUpdate(q: UpdateDataQuery, dataSource: MySqlDataSource) returns (r: Outcome<UpdateQueryResult>)
    modifies dataSource
    ensures (dataSource.State(), r) == ExecuteUpdateSpec(old(dataSource.State()), dataSource.server, dataSource.config, q.Descriptor())
  {
    r := dataSource.ExecuteUpdateQuery(q);
  }

  // ---------------------------------------------------------------------------
  // SelectExtendedDataQuery: compile to a SelectDataQuery under the data source's
  // dialect, then run that. Compiling a WHERE part escapes values and operators,
  // which loads the connection early; by LoadOnceSuffices the outcome is the same
  // as loading when the query runs.

  /** The SQL the data source runs for an extended select. */
  function ExtendedSql(q: SelectExtendedDataQuery, dataSource: MySqlDataSource): string
    reads q, dataSource
  {
    PagedSql(SelectSql(Dialect(dataSource.server.realEscape), q.Parts()), q.limit, q.offset)
  }

  method GetRecordsetExtended(q: SelectExtendedDataQuery, dataSource: MySqlDataSource) returns (r: Outcome<seq<Row>>)
    modifies dataSource
    ensures var (s, o) := SqlSelect(old(dataSource.State()), dataSource.server, dataSource.config, old(ExtendedSql(q, dataSource)), []);
      dataSource.State() == s && r == MapOk(o, RecordsetOf)
  {
    var simpleQuery := q.GetSelectDataQuery(Dialect(dataSource.server.realEscape));
    r := dataSource.GetRecordset(simpleQuery);
  }

  method GetRecordExtended(q: SelectExtendedDataQuery, dataSource: MySqlDataSource) returns (r: Outcome<Value>)
    modifies dataSource
    ensures var (s, o) := SqlSelect(old(dataSource.State()), dataSource.server, dataSource.config, old(ExtendedSql(q, dataSource)), []);
      dataSource.State() == s && r == MapOk(o, reply => RecordOf(reply, Null))
  {
    var simpleQuery := q.GetSelectDataQuery(Dialect(dataSource.server.realEscape));
    r := dataSource.GetRecord(simpleQuery);
  }

  method GetResultExtended(q: SelectExtendedDataQuery, dataSource: MySqlDataSource, defaultValue: Value) returns (r: Outcome<Value>)
    modifies dataSource
    ensures var (s, o) := SqlSelect(old(dataSource.State()), dataSource.server, dataSource.config, old(ExtendedSql(q, dataSource)), []);
      dataSource.State() == s && r == MapOk(o, reply => ResultOf(reply, defaultValue))
  {
    var simpleQuery := q.GetSelectDataQuery(Dialect(dataSource.server.realEscape));
    r := dataSource.GetResult(simpleQuery, defaultValue);
  }

  method GetObjectExtended<T>(q: SelectExtendedDataQuery, dataSource: MySqlDataSource, make: Row -> T) returns (r: Outcome<Option<T>>)
    modifies dataSource
    ensures var (s, o) := SqlSelect(old(dataSource.State()), dataSource.server, dataSource.config, old(ExtendedSql(q, dataSource)), []);
      dataSource.State() == s && r == MapOk(o, reply => ObjectOf(make, RecordOf(reply, Null)))
  {
    var simpleQuery := q.GetSelectDataQuery(Dialect(dataSource.server.realEscape));
    r := GetObject(simpleQuery, dataSource, make);
  }

  method GetObjectSetExtended<T>(q: SelectExtendedDataQuery, dataSource: MySqlDataSource, make: Row -> T) returns (r: Outcome<seq<T>>)
    modifies dataSource
    ensures var (s, o) := SqlSelect(old(dataSource.State()), dataSource.server, dataSource.config, old(ExtendedSql(q, dataSource)), []);
      dataSource.State() == s && r == MapOk(o, reply => ArrayMap(make, RecordsetOf(reply)))
  {
    var simpleQuery := q.GetSelectDataQuery(Dialect(dataSource.server.realEscape));
    r := GetObjectSet(simpleQuery, dataSource, make);
  }
}
