/** A select query assembled from parts (SelectExtendedDataQuery): select list, FROM
    items and joins, WHERE specifications, GROUP BY, ORDER BY, DISTINCT and paging,
    turned into a SelectDataQuery against a data source. */
module SelectBuilders {
  import opened Strings
  import opened PhpValues
  import opened DataSources
  import opened WhereClauses
  import opened SelectQueries

  datatype SelectParts = SelectParts(
    select: seq<string>,
    from: seq<string>,
    where: seq<WhereSpec>,
    groupBy: seq<string>,
    orderBy: seq<string>,
    offset: int,
    limit: int,
    distinct: bool)

  const JoinTypes: set<string> := {"LEFT", "RIGHT", "OUTER", "INNER", "LEFT OUTER", "RIGHT OUTER"}

  /** The join keyword Join() uses: the requested type trimmed and upper-cased when it
      is one of the supported types, INNER otherwise. */
  function NormalizeJoinType(joinType: string): (r: string)
    ensures r in JoinTypes
    ensures Upper(Trim(joinType)) in JoinTypes ==> r == Upper(Trim(joinType))
    ensures Upper(Trim(joinType)) !in JoinTypes ==> r == "INNER"
  {
    var t := Upper(Trim(joinType));
    if t in JoinTypes then t else "INNER"
  }

  lemma UpperOfUpper(s: string)
    requires forall i :: 0 <= i < |s| ==> !('a' <= s[i] <= 'z')
    ensures Upper(s) == s
  {
  }

  lemma TrimOfLetters(s: string)
    requires |s| > 0 && !IsTrimChar(s[0]) && !IsTrimChar(s[|s| - 1])
    ensures Trim(s) == s
  {
  }

  /** Normalising twice changes nothing: every supported join keyword is its own
      normal form. */
  lemma NormalizeJoinTypeIdempotent(joinType: string)
    ensures NormalizeJoinType(NormalizeJoinType(joinType)) == NormalizeJoinType(joinType)
  {
    var r := NormalizeJoinType(joinType);
    TrimOfLetters(r);
    UpperOfUpper(r);
  }

  /** Case and surrounding whitespace of the join type do not matter: any spelling
      of a supported keyword, padded with the characters trim() removes, gives the
      keyword. */
  lemma NormalizePaddedJoinType(before: string, word: string, after: string)
    requires forall i :: 0 <= i < |before| ==> IsTrimChar(before[i])
    requires forall i :: 0 <= i < |after| ==> IsTrimChar(after[i])
    requires Upper(word) in JoinTypes
    ensures NormalizeJoinType(before + word + after) == Upper(word)
  {
    var u := Upper(word);
    assert u[0] in {'L', 'R', 'O', 'I'} && u[|u| - 1] in {'T', 'R'};
    assert u[0] == UpperChar(word[0]) && u[|u| - 1] == UpperChar(word[|word| - 1]);
    TrimPadded(before, word, after);
  }

  /** The FROM item Join() appends. */
  function JoinClause(tableName: string, joinOnFields: string, joinType: string): string
  {
    NormalizeJoinType(joinType) + " JOIN " + tableName + " ON " + joinOnFields
  }

  function DistinctPart(p: SelectParts): string
  {
    if p.distinct then "DISTINCT " else ""
  }

  function GroupOrderPart(p: SelectParts): string
  {
    (if |p.groupBy| > 0 then " GROUP BY " + Join(", ", p.groupBy) else "")
      + (if |p.orderBy| > 0 then " ORDER BY " + Join(", ", p.orderBy) else "")
  }

  /** The SQL GetSelectDataQuery builds, as written: " WHERE " is emitted whenever a
      WHERE specification was registered, even when none of them yields a conjunct.
      Field names are not escaped. */
  function SelectSqlAsWritten(ds: DataSource, p: SelectParts): string
  {
    "SELECT " + DistinctPart(p) + Join(", ", p.select) + " FROM " + Join(" ", p.from)
      + (if |p.where| > 0 then " WHERE " + WhereClause(ds, p.where, false) else "")
      + GroupOrderPart(p)
  }

  /** The SQL as evidently intended: the WHERE keyword only when there is a clause. */
  function SelectSql(ds: DataSource, p: SelectParts): string
  {
    "SELECT " + DistinctPart(p) + Join(", ", p.select) + " FROM " + Join(" ", p.from)
      + (if WhereClause(ds, p.where, false) != "" then " WHERE " + WhereClause(ds, p.where, false) else "")
      + GroupOrderPart(p)
  }

  /** The code as written and the corrected SQL differ exactly when WHERE
      specifications were registered but none of them yields any text. */
  lemma SelectSqlAgreesIff(ds: DataSource, p: SelectParts)
    ensures SelectSqlAsWritten(ds, p) == SelectSql(ds, p)
        <==> |p.where| == 0 || WhereClause(ds, p.where, false) != ""
  {
    if |p.where| > 0 && WhereClause(ds, p.where, false) == "" {
      assert |SelectSqlAsWritten(ds, p)| == |SelectSql(ds, p)| + 7;
    }
  }

  /** As written, a query whose only filter is NOT IN over an empty list ends in a
      dangling " WHERE "; the corrected SQL has no WHERE part. */
  lemma DanglingWhere(ds: DataSource)
    ensures var p := SelectParts(["a"], ["t"], [WhereSpec("in", "f", Arr([]), "!=")], [], [], -1, -1, false);
      SelectSqlAsWritten(ds, p) == "SELECT a FROM t WHERE "
      && SelectSql(ds, p) == "SELECT a FROM t"
  {
    var ws := [WhereSpec("in", "f", Arr([]), "!=")];
    assert ws[..0] == [];
    assert Fragments(ds, ws, false) == [];
  }

  /** In the corrected SQL, filters that yield no conjunct act as no filter at all, and
      a non-empty clause follows the FROM list after the WHERE keyword. */
  lemma SelectWherePart(ds: DataSource, p: SelectParts)
    ensures WhereClause(ds, p.where, false) == "" ==> SelectSql(ds, p) == SelectSql(ds, p.(where := []))
    ensures var head := "SELECT " + DistinctPart(p) + Join(", ", p.select) + " FROM " + Join(" ", p.from);
      WhereClause(ds, p.where, false) != "" ==> IsPrefix(head + " WHERE " + WhereClause(ds, p.where, false), SelectSql(ds, p))
  {
    var head := "SELECT " + DistinctPart(p) + Join(", ", p.select) + " FROM " + Join(" ", p.from);
    if WhereClause(ds, p.where, false) != "" {
      var withWhere := head + " WHERE " + WhereClause(ds, p.where, false);
      assert SelectSql(ds, p) == withWhere + GroupOrderPart(p);
      assert SelectSql(ds, p)[..|withWhere|] == withWhere;
    }
  }

  /** DISTINCT appears right after SELECT exactly when Distinct() was called, and the
      select list follows. */
  lemma DistinctPlacement(ds: DataSource, p: SelectParts)
    ensures p.distinct ==> IsPrefix("SELECT DISTINCT " + Join(", ", p.select) + " FROM ", SelectSql(ds, p))
    ensures !p.distinct ==> IsPrefix("SELECT " + Join(", ", p.select) + " FROM ", SelectSql(ds, p))
  {
    var head := "SELECT " + DistinctPart(p) + Join(", ", p.select) + " FROM ";
    assert SelectSql(ds, p)[..|head|] == head;
  }

  class SelectExtendedDataQuery {
    var select: seq<string>
    var from: seq<string>
    var where: seq<WhereSpec>
    var groupBy: seq<string>
    var orderBy: seq<string>
    var offset: int
    var limit: int
    var distinct: bool

    function Parts(): SelectParts
      reads this
    {
      SelectParts(select, from, where, groupBy, orderBy, offset, limit, distinct)
    }

    /** Each non-empty part given to the constructor starts its list (PHP's empty():
        "" and "0" are skipped). The where argument is not part of this model. */
    constructor(select: string, from: string, groupBy: string, orderBy: string)
      ensures Parts() == SelectParts(
        if IsEmptyText(select) then [] else [select],
        if IsEmptyText(from) then [] else [from],
        [],
        if IsEmptyText(groupBy) then [] else [groupBy],
        if IsEmptyText(orderBy) then [] else [orderBy],
        -1, -1, false)
    {
      this.select := if IsEmptyText(select) then [] else [select];
      this.from := if IsEmptyText(from) then [] else [from];
      this.where := [];
      this.groupBy := if IsEmptyText(groupBy) then [] else [groupBy];
      this.orderBy := if IsEmptyText(orderBy) then [] else [orderBy];
      this.offset := -1;
      this.limit := -1;
      this.distinct := false;
    }

    static method Create(select: string, from: string) returns (q: SelectExtendedDataQuery)
      ensures fresh(q)
      ensures q.Parts() == SelectParts(
        if IsEmptyText(select) then [] else [select],
        if IsEmptyText(from) then [] else [from],
        [], [], [], -1, -1, false)
    {
      q := new SelectExtendedDataQuery(select, from, "", "");
    }

    method Select(item: string)
      modifies this
      ensures Parts() == old(Parts()).(select := old(select) + [item])
    {
      select := select + [item];
    }

    method Distinct()
      modifies this
      ensures Parts() == old(Parts()).(distinct := true)
    {
      distinct := true;
    }

    method From(item: string)
      modifies this
      ensures Parts() == old(Parts()).(from := old(from) + [item])
    {
      from := from + [item];
    }

    /** Appends "<TYPE> JOIN <table> ON <fields>" to the FROM items. */
    method Join(tableName: string, joinOnFields: string, joinType: string)
      modifies this
      ensures Parts() == old(Parts()).(from := old(from) + [JoinClause(tableName, joinOnFields, joinType)])
    {
      var joinTypeUpr := Upper(Trim(joinType));
      if joinTypeUpr !in JoinTypes {
        joinTypeUpr := "INNER";
      }
      from := from + [joinTypeUpr + " JOIN " + tableName + " ON " + joinOnFields];
    }

    /** Public in the select builder, and never refused. */
    method WhereInternal(kind: string, fieldName: string, value: Value, operator: string)
      modifies this
      ensures Parts() == old(Parts()).(where := old(where) + [WhereSpec(kind, fieldName, value, operator)])
    {
      where := where + [WhereSpec(kind, fieldName, value, operator)];
    }

    method Where(fieldName: string, value: Value, operator: string)
      modifies this
      ensures Parts() == old(Parts()).(where := old(where) + [WhereSpec("value", fieldName, value, operator)])
    {
      WhereInternal("value", fieldName, value, operator);
    }

    method WhereExpression(fieldName: string, expression: Value, operator: string)
      modifies this
      ensures Parts() == old(Parts()).(where := old(where) + [WhereSpec("expression", fieldName, expression, operator)])
    {
      WhereInternal("expression", fieldName, expression, operator);
    }

    method WhereCustom(whereClause: Value)
      modifies this
      ensures Parts() == old(Parts()).(where := old(where) + [WhereSpec("custom", "", whereClause, "=")])
    {
      WhereInternal("custom", "", whereClause, "=");
    }

    method WhereNull(fieldName: string)
      modifies this
      ensures Parts() == old(Parts()).(where := old(where) + [WhereSpec("value", fieldName, Null, "=")])
    {
      WhereInternal("value", fieldName, Null, "=");
    }

    method WhereNotNull(fieldName: string)
      modifies this
      ensures Parts() == old(Parts()).(where := old(where) + [WhereSpec("value", fieldName, Null, "!=")])
    {
      WhereInternal("value", fieldName, Null, "!=");
    }

    method WhereIn(fieldName: string, values: Value)
      modifies this
      ensures Parts() == old(Parts()).(where := old(where) + [WhereSpec("in", fieldName, values, "=")])
    {
      WhereInternal("in", fieldName, values, "=");
    }

    method WhereNotIn(fieldName: string, values: Value)
      modifies this
      ensures Parts() == old(Parts()).(where := old(where) + [WhereSpec("in", fieldName, values, "!=")])
    {
      WhereInternal("in", fieldName, values, "!=");
    }

    method WhereLike(fieldName: string, value: Value)
      modifies this
      ensures Parts() == old(Parts()).(where := old(where) + [WhereSpec("like", fieldName, value, "=")])
    {
      WhereInternal("like", fieldName, value, "=");
    }

    method WhereNotLike(fieldName: string, value: Value)
      modifies this
      ensures Parts() == old(Parts()).(where := old(where) + [WhereSpec("like", fieldName, value, "!=")])
    {
      WhereInternal("like", fieldName, value, "!=");
    }

    method WhereExists(expression: Value)
      modifies this
      ensures Parts() == old(Parts()).(where := old(where) + [WhereSpec("exists", "", expression, "=")])
    {
      WhereInternal("exists", "", expression, "=");
    }

    method WhereNotExists(expression: Value)
      modifies this
      ensures Parts() == old(Parts()).(where := old(where) + [WhereSpec("exists", "", expression, "!=")])
    {
      WhereInternal("exists", "", expression, "!=");
    }

    method GroupBy(item: string)
      modifies this
      ensures Parts() == old(Parts()).(groupBy := old(groupBy) + [item])
    {
      groupBy := groupBy + [item];
    }

    method OrderBy(item: string)
      modifies this
      ensures Parts() == old(Parts()).(orderBy := old(orderBy) + [item])
    {
      orderBy := orderBy + [item];
    }

    method SetLimit(offset: int, limit: int)
      modifies this
      ensures Parts() == old(Parts()).(offset := offset, limit := limit)
    {
      this.offset := offset;
      this.limit := limit;
    }

    method GetLimit() returns (r: int)
      ensures r == limit
    {
      r := limit;
    }

    /** The plain query to run: the assembled SQL, no parameters, this query's
        window. */
    method GetSelectDataQuery(ds: DataSource) returns (q: SelectDataQuery)
      ensures fresh(q)
      ensures q.commandSql == SelectSql(ds, Parts())
      ensures q.parameters == [] && q.offset == offset && q.limit == limit
    {
      var p := Parts();
      var distinctPart := "";
      if distinct {
        distinctPart := "DISTINCT ";
      }
      assert distinctPart == DistinctPart(p);
      var head := "SELECT " + distinctPart + Strings.Join(", ", select) + " FROM " + Strings.Join(" ", from);
      var whereClause := GetGenericWhereClause(ds, where, false);
      var wherePart := "";
      if whereClause != "" {
        wherePart := " WHERE " + whereClause;
      }
      var groupPart := "";
      if |groupBy| > 0 {
        groupPart := " GROUP BY " + Strings.Join(", ", groupBy);
      }
      var orderPart := "";
      if |orderBy| > 0 {
        orderPart := " ORDER BY " + Strings.Join(", ", orderBy);
      }
      assert groupPart + orderPart == GroupOrderPart(p);
      var sql := head + wherePart + (groupPart + orderPart);
      q := SelectDataQuery.Create(sql, [], offset, limit);
    }
  }
}
