/** A data modification query (INSERT, UPDATE or DELETE) assembled by builder calls
    and compiled to SQL against a data source (UpdateDataQuery). WHERE clauses are
    accepted only by UPDATE and DELETE queries, SET clauses only by INSERT and
    UPDATE queries; a builder used on another type throws and changes nothing. */
module UpdateQueries {
  import opened Strings
  import opened PhpValues
  import opened DataSources
  import opened Exceptions
  import opened SetValueOperations
  import opened WhereClauses

  const WhereNotSupported := "Where clause is only supported in update and delete queries."
  const SetNotSupported := "Set clause is only supported in insert and update queries."
  const NotIterable := "keyValueList must be an array or traversable"

  /** The state of an UpdateDataQuery. */
  datatype QueryDescriptor = QueryDescriptor(
    queryType: string,
    tableName: string,
    fieldSet: seq<SetValueOperation>,
    fieldWhere: seq<WhereSpec>,
    primaryKeyValue: Value)

  predicate AcceptsWhere(queryType: string)
  {
    queryType == "UPDATE" || queryType == "DELETE"
  }

  predicate AcceptsSet(queryType: string)
  {
    queryType == "INSERT" || queryType == "UPDATE"
  }

  /** The state every builder keeps: an INSERT never holds WHERE clauses, a DELETE
      never holds SET clauses (nor does a query of an unknown type). */
  predicate Consistent(d: QueryDescriptor)
  {
    (!AcceptsWhere(d.queryType) ==> |d.fieldWhere| == 0) && (!AcceptsSet(d.queryType) ==> |d.fieldSet| == 0)
  }

  /** WhereInternal: register one WHERE specification, or throw. */
  function AddWhere(d: QueryDescriptor, w: WhereSpec): (QueryDescriptor, Outcome<()>)
  {
    if AcceptsWhere(d.queryType) then (d.(fieldWhere := d.fieldWhere + [w]), Ok(()))
    else (d, Throws(DomainException(WhereNotSupported)))
  }

  /** SetInternal: register one SET clause, or throw. */
  function AddSet(d: QueryDescriptor, s: SetValueOperation): (QueryDescriptor, Outcome<()>)
  {
    if AcceptsSet(d.queryType) then (d.(fieldSet := d.fieldSet + [s]), Ok(()))
    else (d, Throws(DomainException(SetNotSupported)))
  }

  /** The WHERE specifications WhereMulti registers, one "value" equality per entry. */
  function EqualitySpecs(entries: seq<Entry>): (ws: seq<WhereSpec>)
    ensures |ws| == |entries|
    ensures forall k :: 0 <= k < |entries| ==> ws[k] == WhereSpec("value", entries[k].key, entries[k].val, "=")
  {
    seq(|entries|, k requires 0 <= k < |entries| => WhereSpec("value", entries[k].key, entries[k].val, "="))
  }

  /** The SET clauses SetMulti registers, one plain value per entry. */
  function ValueSets(entries: seq<Entry>): (ss: seq<SetValueOperation>)
    ensures |ss| == |entries|
    ensures forall k :: 0 <= k < |entries| ==> ss[k] == SetValueOperation(entries[k].key, entries[k].val, false)
  {
    seq(|entries|, k requires 0 <= k < |entries| => SetValueOperation(entries[k].key, entries[k].val, false))
  }

  /** WhereMulti: a non-array is refused; an empty array is accepted by every query
      type; otherwise the first entry throws unless the type takes WHERE clauses. */
  function AddWhereMulti(d: QueryDescriptor, list: Value): (QueryDescriptor, Outcome<()>)
  {
    if !list.Arr? then (d, Throws(InvalidArgumentException(NotIterable)))
    else if |list.entries| == 0 then (d, Ok(()))
    else if AcceptsWhere(d.queryType) then (d.(fieldWhere := d.fieldWhere + EqualitySpecs(list.entries)), Ok(()))
    else (d, Throws(DomainException(WhereNotSupported)))
  }

  /** SetMulti, with the same shape as WhereMulti. */
  function AddSetMulti(d: QueryDescriptor, list: Value): (QueryDescriptor, Outcome<()>)
  {
    if !list.Arr? then (d, Throws(InvalidArgumentException(NotIterable)))
    else if |list.entries| == 0 then (d, Ok(()))
    else if AcceptsSet(d.queryType) then (d.(fieldSet := d.fieldSet + ValueSets(list.entries)), Ok(()))
    else (d, Throws(DomainException(SetNotSupported)))
  }

  /** The foreach of WhereMulti: WhereInternal with an equality once per entry, in
      order, stopping at the first exception. */
  function AddWhereEach(d: QueryDescriptor, entries: seq<Entry>): (QueryDescriptor, Outcome<()>)
    decreases |entries|
  {
    if |entries| == 0 then (d, Ok(()))
    else
      var (d1, o) := AddWhere(d, WhereSpec("value", entries[0].key, entries[0].val, "="));
      if o.Throws? then (d1, o) else AddWhereEach(d1, entries[1..])
  }

  /** The foreach of SetMulti: SetInternal with a plain value once per entry. */
  function AddSetEach(d: QueryDescriptor, entries: seq<Entry>): (QueryDescriptor, Outcome<()>)
    decreases |entries|
  {
    if |entries| == 0 then (d, Ok(()))
    else
      var (d1, o) := AddSet(d, SetValueOperation(entries[0].key, entries[0].val, false));
      if o.Throws? then (d1, o) else AddSetEach(d1, entries[1..])
  }

  /** WhereMulti on an array is Where(key, value) called for each entry in turn. */
  lemma {:induction false} WhereMultiIsRepeatedWhere(d: QueryDescriptor, list: Value)
    requires list.Arr?
    ensures AddWhereMulti(d, list) == AddWhereEach(d, list.entries)
  {
    if AcceptsWhere(d.queryType) {
      EqualitySpecsEach(d, list.entries);
    }
  }

  lemma {:induction false} EqualitySpecsEach(d: QueryDescriptor, entries: seq<Entry>)
    requires AcceptsWhere(d.queryType)
    ensures AddWhereEach(d, entries) == (d.(fieldWhere := d.fieldWhere + EqualitySpecs(entries)), Ok(()))
    decreases |entries|
  {
    if |entries| == 0 {
      assert d.fieldWhere + EqualitySpecs(entries) == d.fieldWhere;
    } else {
      var w := WhereSpec("value", entries[0].key, entries[0].val, "=");
      var d1 := d.(fieldWhere := d.fieldWhere + [w]);
      assert AddWhere(d, w) == (d1, Ok(()));
      EqualitySpecsEach(d1, entries[1..]);
      EqualitySpecsCons(entries);
      ConcatAssoc(d.fieldWhere, [w], EqualitySpecs(entries[1..]));
    }
  }

  lemma EqualitySpecsCons(entries: seq<Entry>)
    requires |entries| > 0
    ensures EqualitySpecs(entries) == [WhereSpec("value", entries[0].key, entries[0].val, "=")] + EqualitySpecs(entries[1..])
  {
  }

  /** SetMulti on an array is Set(key, value) called for each entry in turn. */
  lemma {:induction false} SetMultiIsRepeatedSet(d: QueryDescriptor, list: Value)
    requires list.Arr?
    ensures AddSetMulti(d, list) == AddSetEach(d, list.entries)
  {
    if AcceptsSet(d.queryType) {
      ValueSetsEach(d, list.entries);
    }
  }

  lemma {:induction false} ValueSetsEach(d: QueryDescriptor, entries: seq<Entry>)
    requires AcceptsSet(d.queryType)
    ensures AddSetEach(d, entries) == (d.(fieldSet := d.fieldSet + ValueSets(entries)), Ok(()))
    decreases |entries|
  {
    if |entries| == 0 {
      assert d.fieldSet + ValueSets(entries) == d.fieldSet;
    } else {
      var s := SetValueOperation(entries[0].key, entries[0].val, false);
      var d1 := d.(fieldSet := d.fieldSet + [s]);
      assert AddSet(d, s) == (d1, Ok(()));
      ValueSetsEach(d1, entries[1..]);
      ValueSetsCons(entries);
      ConcatAssoc(d.fieldSet, [s], ValueSets(entries[1..]));
    }
  }

  lemma ConcatAssoc<T>(a: seq<T>, b: seq<T>, c: seq<T>)
    ensures a + b + c == a + (b + c)
  {
  }

  lemma ValueSetsCons(entries: seq<Entry>)
    requires |entries| > 0
    ensures ValueSets(entries) == [SetValueOperation(entries[0].key, entries[0].val, false)] + ValueSets(entries[1..])
  {
  }

  /** Every builder keeps a consistent query consistent, and a builder that throws
      leaves the query as it was. */
  lemma BuildersKeepConsistent(d: QueryDescriptor, w: WhereSpec, s: SetValueOperation, list: Value)
    requires Consistent(d)
    ensures Consistent(AddWhere(d, w).0) && Consistent(AddSet(d, s).0)
    ensures Consistent(AddWhereMulti(d, list).0) && Consistent(AddSetMulti(d, list).0)
    ensures AddWhere(d, w).1.Throws? ==> AddWhere(d, w).0 == d
    ensures AddSet(d, s).1.Throws? ==> AddSet(d, s).0 == d
    ensures AddWhereMulti(d, list).1.Throws? ==> AddWhereMulti(d, list).0 == d
    ensures AddSetMulti(d, list).1.Throws? ==> AddSetMulti(d, list).0 == d
  {
  }

  // ---------------------------------------------------------------------------
  // Compilation

  function SetColumns(ds: DataSource, sets: seq<SetValueOperation>): (r: seq<string>)
    ensures |r| == |sets|
    ensures forall k :: 0 <= k < |sets| ==> r[k] == ds.escapeIdentifier(sets[k].field)
  {
    seq(|sets|, k requires 0 <= k < |sets| => ds.escapeIdentifier(sets[k].field))
  }

  function SetValues(ds: DataSource, sets: seq<SetValueOperation>): (r: seq<string>)
    ensures |r| == |sets|
    ensures forall k :: 0 <= k < |sets| ==> r[k] == ValueForDB(sets[k], ds)
  {
    seq(|sets|, k requires 0 <= k < |sets| => ValueForDB(sets[k], ds))
  }

  function SetAssignments(ds: DataSource, sets: seq<SetValueOperation>): (r: seq<string>)
    ensures |r| == |sets|
    ensures forall k :: 0 <= k < |sets| ==> r[k] == ds.escapeIdentifier(sets[k].field) + "=" + ValueForDB(sets[k], ds)
  {
    seq(|sets|, k requires 0 <= k < |sets| => ds.escapeIdentifier(sets[k].field) + "=" + ValueForDB(sets[k], ds))
  }

  /** The UPDATE assigns to each field the value the INSERT would write for it: the
      k-th assignment is the k-th INSERT column, "=", and the k-th INSERT value. */
  lemma AssignmentsPairColumnsWithValues(ds: DataSource, sets: seq<SetValueOperation>)
    ensures |SetAssignments(ds, sets)| == |SetColumns(ds, sets)| == |SetValues(ds, sets)|
    ensures forall k :: 0 <= k < |sets| ==>
      SetAssignments(ds, sets)[k] == SetColumns(ds, sets)[k] + "=" + SetValues(ds, sets)[k]
  {
  }

  /** The optional WHERE part: present unless the clause is empty in PHP's sense. */
  function WhereSuffix(where: string): string
  {
    if !IsEmptyText(where) then " WHERE " + where else ""
  }

  function InsertSqlOf(ds: DataSource, d: QueryDescriptor): string
  {
    "INSERT INTO " + ds.escapeIdentifier(d.tableName)
      + "(" + Join(",", SetColumns(ds, d.fieldSet)) + ") VALUES("
      + Join(",", SetValues(ds, d.fieldSet)) + ")"
  }

  function UpdateSqlOf(ds: DataSource, d: QueryDescriptor): string
  {
    "UPDATE " + ds.escapeIdentifier(d.tableName) + " SET " + Join(",", SetAssignments(ds, d.fieldSet))
      + WhereSuffix(WhereClause(ds, d.fieldWhere, true))
  }

  function DeleteSqlOf(ds: DataSource, d: QueryDescriptor): string
  {
    "DELETE FROM " + ds.escapeIdentifier(d.tableName) + WhereSuffix(WhereClause(ds, d.fieldWhere, true))
  }

  /** _SqlByCurrentType: the SQL for the query's own type; any other type is refused. */
  function SqlForType(ds: DataSource, d: QueryDescriptor): (r: Outcome<string>)
    ensures d.queryType == "INSERT" ==> r == Ok(InsertSqlOf(ds, d))
    ensures d.queryType == "UPDATE" ==> r == Ok(UpdateSqlOf(ds, d))
    ensures d.queryType == "DELETE" ==> r == Ok(DeleteSqlOf(ds, d))
    ensures !(d.queryType in {"INSERT", "UPDATE", "DELETE"}) ==> r == Throws(DomainException("Invalid query type: " + d.queryType))
    ensures r.Ok? <==> AcceptsWhere(d.queryType) || AcceptsSet(d.queryType)
    ensures r.Ok? ==> |d.queryType| <= |r.value| && r.value[..|d.queryType|] == d.queryType
  {
    if d.queryType == "INSERT" then Ok(InsertSqlOf(ds, d))
    else if d.queryType == "UPDATE" then Ok(UpdateSqlOf(ds, d))
    else if d.queryType == "DELETE" then Ok(DeleteSqlOf(ds, d))
    else Throws(DomainException("Invalid query type: " + d.queryType))
  }

  /** A DELETE or UPDATE without any WHERE specification affects the whole table:
      its SQL has no WHERE part at all. */
  lemma NoWhereMeansWholeTable(ds: DataSource, d: QueryDescriptor)
    requires |d.fieldWhere| == 0
    ensures DeleteSqlOf(ds, d) == "DELETE FROM " + ds.escapeIdentifier(d.tableName)
    ensures UpdateSqlOf(ds, d) == "UPDATE " + ds.escapeIdentifier(d.tableName) + " SET " + Join(",", SetAssignments(ds, d.fieldSet))
  {
  }

  /** Each inserted column is paired with its value: the two lists in the INSERT are
      the escaped field names and the rendered values, in the order the SET clauses
      were registered. */
  lemma {:induction false} InsertPairsColumnsWithValues(ds: DataSource, sets: seq<SetValueOperation>, s: SetValueOperation)
    requires |sets| > 0
    ensures Join(",", SetColumns(ds, sets + [s])) == Join(",", SetColumns(ds, sets)) + "," + ds.escapeIdentifier(s.field)
    ensures Join(",", SetValues(ds, sets + [s])) == Join(",", SetValues(ds, sets)) + "," + ValueForDB(s, ds)
  {
    assert SetColumns(ds, sets + [s]) == SetColumns(ds, sets) + [ds.escapeIdentifier(s.field)];
    assert SetValues(ds, sets + [s]) == SetValues(ds, sets) + [ValueForDB(s, ds)];
    JoinAppend(",", SetColumns(ds, sets), ds.escapeIdentifier(s.field));
    JoinAppend(",", SetValues(ds, sets), ValueForDB(s, ds));
  }

  // ---------------------------------------------------------------------------
  // The builder object

  class UpdateDataQuery {
    var queryType: string
    var tableName: string
    var fieldSet: seq<SetValueOperation>
    var fieldWhere: seq<WhereSpec>
    var primaryKeyValue: Value

    function Descriptor(): QueryDescriptor
      reads this
    {
      QueryDescriptor(queryType, tableName, fieldSet, fieldWhere, primaryKeyValue)
    }

    /** new UpdateDataQuery($tableName, $queryType): no clauses, no key value. */
    constructor(tableName: string, queryType: string)
      ensures Descriptor() == QueryDescriptor(queryType, tableName, [], [], Null)
      ensures Consistent(Descriptor())
    {
      this.queryType := queryType;
      this.tableName := tableName;
      this.fieldSet := [];
      this.fieldWhere := [];
      this.primaryKeyValue := Null;
    }

    static method Create(tableName: string, queryType: string) returns (q: UpdateDataQuery)
      ensures fresh(q)
      ensures q.Descriptor() == QueryDescriptor(queryType, tableName, [], [], Null)
    {
      q := new UpdateDataQuery(tableName, queryType);
    }

    static method CreateInsert(tableName: string) returns (q: UpdateDataQuery)
      ensures fresh(q)
      ensures q.Descriptor() == QueryDescriptor("INSERT", tableName, [], [], Null)
    {
      q := new UpdateDataQuery(tableName, "INSERT");
    }

    static method CreateUpdate(tableName: string) returns (q: UpdateDataQuery)
      ensures fresh(q)
      ensures q.Descriptor() == QueryDescriptor("UPDATE", tableName, [], [], Null)
    {
      q := new UpdateDataQuery(tableName, "UPDATE");
    }

    static method CreateDelete(tableName: string) returns (q: UpdateDataQuery)
      ensures fresh(q)
      ensures q.Descriptor() == QueryDescriptor("DELETE", tableName, [], [], Null)
    {
      q := new UpdateDataQuery(tableName, "DELETE");
    }

    method WhereInternal(kind: string, fieldName: string, value: Value, operator: string) returns (r: Outcome<()>)
      modifies this
      ensures (Descriptor(), r) == AddWhere(old(Descriptor()), WhereSpec(kind, fieldName, value, operator))
    {
      if queryType != "UPDATE" && queryType != "DELETE" {
        return Throws(DomainException(WhereNotSupported));
      }
      fieldWhere := fieldWhere + [WhereSpec(kind, fieldName, value, operator)];
      return Ok(());
    }

    method Where(fieldName: string, value: Value, operator: string) returns (r: Outcome<()>)
      modifies this
      ensures (Descriptor(), r) == AddWhere(old(Descriptor()), WhereSpec("value", fieldName, value, operator))
    {
      r := WhereInternal("value", fieldName, value, operator);
    }

    /** One equality per entry, in the array's order. */
    method WhereMulti(keyValueList: Value) returns (r: Outcome<()>)
      modifies this
      ensures (Descriptor(), r) == AddWhereMulti(old(Descriptor()), keyValueList)
    {
      if !keyValueList.Arr? {
        return Throws(InvalidArgumentException(NotIterable));
      }
      var entries := keyValueList.entries;
      var i := 0;
      while i < |entries|
        invariant 0 <= i <= |entries|
        invariant queryType == old(queryType) && tableName == old(tableName)
        invariant fieldSet == old(fieldSet) && primaryKeyValue == old(primaryKeyValue)
        invariant fieldWhere == old(fieldWhere) + EqualitySpecs(entries[..i])
        invariant i > 0 ==> AcceptsWhere(queryType)
      {
        var step := WhereInternal("value", entries[i].key, entries[i].val, "=");
        if step.Throws? {
          assert i == 0;
          return step;
        }
        assert EqualitySpecs(entries[..i + 1]) == EqualitySpecs(entries[..i]) + [WhereSpec("value", entries[i].key, entries[i].val, "=")];
        i := i + 1;
      }
      assert entries[..i] == entries;
      return Ok(());
    }

    /** The key value is recorded before the type check, so it is kept even when the
        WHERE clause is refused. */
    method WhereKey(fieldName: string, value: Value) returns (r: Outcome<()>)
      modifies this
      ensures (Descriptor(), r) == AddWhere(old(Descriptor()).(primaryKeyValue := value), WhereSpec("value", fieldName, value, "="))
      ensures primaryKeyValue == value
    {
      primaryKeyValue := value;
      r := WhereInternal("value", fieldName, value, "=");
    }

    method WhereExpression(fieldName: string, expression: Value, operator: string) returns (r: Outcome<()>)
      modifies this
      ensures (Descriptor(), r) == AddWhere(old(Descriptor()), WhereSpec("expression", fieldName, expression, operator))
    {
      r := WhereInternal("expression", fieldName, expression, operator);
    }

    method WhereNull(fieldName: string) returns (r: Outcome<()>)
      modifies this
      ensures (Descriptor(), r) == AddWhere(old(Descriptor()), WhereSpec("value", fieldName, Null, "="))
    {
      r := WhereInternal("value", fieldName, Null, "=");
    }

    method WhereNotNull(fieldName: string) returns (r: Outcome<()>)
      modifies this
      ensures (Descriptor(), r) == AddWhere(old(Descriptor()), WhereSpec("value", fieldName, Null, "!="))
    {
      r := WhereInternal("value", fieldName, Null, "!=");
    }

    method WhereIn(fieldName: string, values: Value) returns (r: Outcome<()>)
      modifies this
      ensures (Descriptor(), r) == AddWhere(old(Descriptor()), WhereSpec("in", fieldName, values, "="))
    {
      r := WhereInternal("in", fieldName, values, "=");
    }

    method WhereNotIn(fieldName: string, values: Value) returns (r: Outcome<()>)
      modifies this
      ensures (Descriptor(), r) == AddWhere(old(Descriptor()), WhereSpec("in", fieldName, values, "!="))
    {
      r := WhereInternal("in", fieldName, values, "!=");
    }

    method WhereLike(fieldName: string, value: Value) returns (r: Outcome<()>)
      modifies this
      ensures (Descriptor(), r) == AddWhere(old(Descriptor()), WhereSpec("like", fieldName, value, "="))
    {
      r := WhereInternal("like", fieldName, value, "=");
    }

    method WhereNotLike(fieldName: string, value: Value) returns (r: Outcome<()>)
      modifies this
      ensures (Descriptor(), r) == AddWhere(old(Descriptor()), WhereSpec("like", fieldName, value, "!="))
    {
      r := WhereInternal("like", fieldName, value, "!=");
    }

    method WhereExists(expression: Value) returns (r: Outcome<()>)
      modifies this
      ensures (Descriptor(), r) == AddWhere(old(Descriptor()), WhereSpec("exists", "", expression, "="))
    {
      r := WhereInternal("exists", "", expression, "=");
    }

    method WhereNotExists(expression: Value) returns (r: Outcome<()>)
      modifies this
      ensures (Descriptor(), r) == AddWhere(old(Descriptor()), WhereSpec("exists", "", expression, "!="))
    {
      r := WhereInternal("exists", "", expression, "!=");
    }

    method SetInternal(fieldName: string, value: Value, isExpression: bool) returns (r: Outcome<()>)
      modifies this
      ensures (Descriptor(), r) == AddSet(old(Descriptor()), SetValueOperation(fieldName, value, isExpression))
    {
      if queryType != "INSERT" && queryType != "UPDATE" {
        return Throws(DomainException(SetNotSupported));
      }
      fieldSet := fieldSet + [SetValueOperation(fieldName, value, isExpression)];
      return Ok(());
    }

    method Set(fieldName: string, value: Value) returns (r: Outcome<()>)
      modifies this
      ensures (Descriptor(), r) == AddSet(old(Descriptor()), SetValueOperation(fieldName, value, false))
    {
      r := SetInternal(fieldName, value, false);
    }

    /** One plain SET per entry, in the array's order. */
    method SetMulti(keyValueList: Value) returns (r: Outcome<()>)
      modifies this
      ensures (Descriptor(), r) == AddSetMulti(old(Descriptor()), keyValueList)
    {
      if !keyValueList.Arr? {
        return Throws(InvalidArgumentException(NotIterable));
      }
      var entries := keyValueList.entries;
      var i := 0;
      while i < |entries|
        invariant 0 <= i <= |entries|
        invariant queryType == old(queryType) && tableName == old(tableName)
        invariant fieldWhere == old(fieldWhere) && primaryKeyValue == old(primaryKeyValue)
        invariant fieldSet == old(fieldSet) + ValueSets(entries[..i])
        invariant i > 0 ==> AcceptsSet(queryType)
      {
        var step := SetInternal(entries[i].key, entries[i].val, false);
        if step.Throws? {
          assert i == 0;
          return step;
        }
        assert ValueSets(entries[..i + 1]) == ValueSets(entries[..i]) + [SetValueOperation(entries[i].key, entries[i].val, false)];
        i := i + 1;
      }
      assert entries[..i] == entries;
      return Ok(());
    }

    /** As with WhereKey, the key value is recorded even when the clause is refused. */
    method SetKey(fieldName: string, value: Value) returns (r: Outcome<()>)
      modifies this
      ensures (Descriptor(), r) == AddSet(old(Descriptor()).(primaryKeyValue := value), SetValueOperation(fieldName, value, false))
      ensures primaryKeyValue == value
    {
      primaryKeyValue := value;
      r := SetInternal(fieldName, value, false);
    }

    method SetExpression(fieldName: string, expression: Value) returns (r: Outcome<()>)
      modifies this
      ensures (Descriptor(), r) == AddSet(old(Descriptor()), SetValueOperation(fieldName, expression, true))
    {
      r := SetInternal(fieldName, expression, true);
    }

    method SetNull(fieldName: string) returns (r: Outcome<()>)
      modifies this
      ensures (Descriptor(), r) == AddSet(old(Descriptor()), SetValueOperation(fieldName, Null, false))
    {
      r := SetInternal(fieldName, Null, false);
    }

    /** The INSERT statement: one loop collects the escaped columns and their values. */
    method InsertSql(ds: DataSource) returns (sql: string)
      ensures sql == InsertSqlOf(ds, Descriptor())
    {
      var fields: seq<string> := [];
      var values: seq<string> := [];
      var i := 0;
      while i < |fieldSet|
        invariant 0 <= i <= |fieldSet|
        invariant fields == SetColumns(ds, fieldSet[..i])
        invariant values == SetValues(ds, fieldSet[..i])
      {
        fields := fields + [ds.escapeIdentifier(fieldSet[i].field)];
        values := values + [ValueForDB(fieldSet[i], ds)];
        i := i + 1;
      }
      assert fieldSet[..i] == fieldSet;
      sql := "INSERT INTO " + ds.escapeIdentifier(tableName) + "(" + Join(",", fields) + ") VALUES(" + Join(",", values) + ")";
    }

    /** The UPDATE statement: field=value pairs, then the WHERE clause if it is not
        empty. */
    method UpdateSql(ds: DataSource) returns (sql: string)
      ensures sql == UpdateSqlOf(ds, Descriptor())
    {
      var arrSet: seq<string> := [];
      var i := 0;
      while i < |fieldSet|
        invariant 0 <= i <= |fieldSet|
        invariant arrSet == SetAssignments(ds, fieldSet[..i])
      {
        var field := ds.escapeIdentifier(fieldSet[i].field);
        var value := ValueForDB(fieldSet[i], ds);
        arrSet := arrSet + [field + "=" + value];
        i := i + 1;
      }
      assert fieldSet[..i] == fieldSet;
      var whereClause := GetGenericWhereClause(ds, fieldWhere, true);
      sql := "UPDATE " + ds.escapeIdentifier(tableName) + " SET " + Join(",", arrSet);
      if !IsEmptyText(whereClause) {
        sql := sql + " WHERE " + whereClause;
      }
    }

    method DeleteSql(ds: DataSource) returns (sql: string)
      ensures sql == DeleteSqlOf(ds, Descriptor())
    {
      var whereClause := GetGenericWhereClause(ds, fieldWhere, true);
      sql := "DELETE FROM " + ds.escapeIdentifier(tableName);
      if !IsEmptyText(whereClause) {
        sql := sql + " WHERE " + whereClause;
      }
    }

    method SqlByCurrentType(ds: DataSource) returns (r: Outcome<string>)
      ensures r == SqlForType(ds, Descriptor())
    {
      if queryType == "INSERT" {
        var sql := InsertSql(ds);
        r := Ok(sql);
      } else if queryType == "UPDATE" {
        var sql := UpdateSql(ds);
        r := Ok(sql);
      } else if queryType == "DELETE" {
        var sql := DeleteSql(ds);
        r := Ok(sql);
      } else {
        r := Throws(DomainException("Invalid query type: " + queryType));
      }
    }
  }
}
