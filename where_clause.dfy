/** WHERE specifications and their compilation to SQL, shared by the update/delete
    builder and the extended select builder (UpdateDataQuery::GetGenericWhereClause).
    Each specification yields at most one conjunct; the conjuncts are joined with
    " AND ". */
module WhereClauses {
  import opened Strings
  import opened PhpValues
  import opened DataSources
  import opened Options

  /** array('type' => kind, 'field' => field, 'value' => value, 'operator' => operator).
      The kinds the builders register are "value", "expression", "in", "like",
      "exists" and "custom"; any other kind compiles to nothing. */
  datatype WhereSpec = WhereSpec(kind: string, field: string, value: Value, operator: string)

  /** The items a foreach over an IN value visits: the array's values, or nothing
      when the value is not an array. */
  function InItems(v: Value): seq<Value>
  {
    if v.Arr? then ValuesOf(v.entries) else []
  }

  /** The conjunct one specification contributes, if any. */
  function Fragment(ds: DataSource, w: WhereSpec, escapeIdentifiers: bool): Option<string>
  {
    var field := if escapeIdentifiers then ds.escapeIdentifier(w.field) else w.field;
    var op := ds.getOperator(w.operator);
    if w.kind == "value" then
      if w.value.Null? then
        Some(if w.operator == "=" then field + " IS NULL" else field + " IS NOT NULL")
      else
        Some(field + op + ds.escapeValue(w.value))
    else if w.kind == "expression" then
      Some(field + op + ToText(w.value))
    else if w.kind == "in" then
      var escaped := ArrayMap(ds.escapeValue, InItems(w.value));
      if |escaped| > 0 then
        Some(field + (if w.operator == "=" then " IN (" else " NOT IN (") + Join(",", escaped) + ")")
      else if w.operator == "=" then Some("0=1")
      else None
    else if w.kind == "like" then
      Some(field + (if w.operator == "=" then " LIKE " else " NOT LIKE ") + ds.escapeValue(w.value))
    else if w.kind == "exists" then
      Some((if w.operator == "=" then "EXISTS (" else "NOT EXISTS (") + ToText(w.value) + ")")
    else if w.kind == "custom" then
      Some("(" + ToText(w.value) + ")")
    else None
  }

  /** The conjuncts of a list of specifications, in order. */
  function Fragments(ds: DataSource, ws: seq<WhereSpec>, escapeIdentifiers: bool): seq<string>
    decreases |ws|
  {
    if |ws| == 0 then []
    else
      var init := Fragments(ds, ws[..|ws| - 1], escapeIdentifiers);
      match Fragment(ds, ws[|ws| - 1], escapeIdentifiers)
      case Some(f) => init + [f]
      case None => init
  }

  /** The WHERE clause text (without the WHERE keyword); "" when nothing applies. */
  function WhereClause(ds: DataSource, ws: seq<WhereSpec>, escapeIdentifiers: bool): string
  {
    Join(" AND ", Fragments(ds, ws, escapeIdentifiers))
  }

  /** GetGenericWhereClause: one pass over the specifications, escaping the items of
      an IN list one by one, then implode(" AND ") or "". */
  method GetGenericWhereClause(ds: DataSource, fieldWhere: seq<WhereSpec>, escapeIdentifiers: bool)
    returns (r: string)
    ensures r == WhereClause(ds, fieldWhere, escapeIdentifiers)
  {
    var arrWhere: seq<string> := [];
    var i := 0;
    while i < |fieldWhere|
      invariant 0 <= i <= |fieldWhere|
      invariant arrWhere == Fragments(ds, fieldWhere[..i], escapeIdentifiers)
    {
      var w := fieldWhere[i];
      var field := w.field;
      if escapeIdentifiers {
        field := ds.escapeIdentifier(field);
      }
      var value := w.value;
      var operator := w.operator;
      var operatorConverted := ds.getOperator(operator);
      if w.kind == "value" {
        if value.Null? {
          if operator == "=" {
            arrWhere := arrWhere + [field + " IS NULL"];
          } else {
            arrWhere := arrWhere + [field + " IS NOT NULL"];
          }
        } else {
          arrWhere := arrWhere + [field + operatorConverted + ds.escapeValue(value)];
        }
      } else if w.kind == "expression" {
        arrWhere := arrWhere + [field + operatorConverted + ToText(value)];
      } else if w.kind == "in" {
        var items := InItems(value);
        var newValues: seq<string> := [];
        var j := 0;
        while j < |items|
          invariant 0 <= j <= |items|
          invariant newValues == ArrayMap(ds.escapeValue, items[..j])
        {
          newValues := newValues + [ds.escapeValue(items[j])];
          j := j + 1;
        }
        assert items[..j] == items;
        if |newValues| > 0 {
          var newValuesConcat := Join(",", newValues);
          if operator == "=" {
            arrWhere := arrWhere + [field + " IN (" + newValuesConcat + ")"];
          } else {
            arrWhere := arrWhere + [field + " NOT IN (" + newValuesConcat + ")"];
          }
        } else {
          if operator == "=" {
            arrWhere := arrWhere + ["0=1"];
          }
        }
      } else if w.kind == "like" {
        var escaped := ds.escapeValue(value);
        if operator == "=" {
          arrWhere := arrWhere + [field + " LIKE " + escaped];
        } else {
          arrWhere := arrWhere + [field + " NOT LIKE " + escaped];
        }
      } else if w.kind == "exists" {
        if operator == "=" {
          arrWhere := arrWhere + ["EXISTS (" + ToText(value) + ")"];
        } else {
          arrWhere := arrWhere + ["NOT EXISTS (" + ToText(value) + ")"];
        }
      } else if w.kind == "custom" {
        arrWhere := arrWhere + ["(" + ToText(value) + ")"];
      }
      assert fieldWhere[..i + 1][..i] == fieldWhere[..i];
      i := i + 1;
    }
    assert fieldWhere[..i] == fieldWhere;
    if |arrWhere| > 0 {
      r := Join(" AND ", arrWhere);
    } else {
      r := "";
    }
  }

  /** The conjuncts of two lists of specifications are those of the first followed by
      those of the second. */
  lemma {:induction false} FragmentsAppend(ds: DataSource, a: seq<WhereSpec>, b: seq<WhereSpec>, esc: bool)
    ensures Fragments(ds, a + b, esc) == Fragments(ds, a, esc) + Fragments(ds, b, esc)
    decreases |b|
  {
    if |b| == 0 {
      assert a + b == a;
    } else {
      var b' := b[..|b| - 1];
      assert (a + b)[..|a + b| - 1] == a + b';
      assert (a + b)[|a + b| - 1] == b[|b| - 1];
      FragmentsAppend(ds, a, b', esc);
    }
  }

  /** Adding a specification to a query either leaves its WHERE clause as it was or
      appends exactly one " AND " conjunct (or starts the clause). */
  lemma WhereClauseExtend(ds: DataSource, ws: seq<WhereSpec>, w: WhereSpec, esc: bool)
    ensures Fragment(ds, w, esc).None? ==> WhereClause(ds, ws + [w], esc) == WhereClause(ds, ws, esc)
    ensures Fragment(ds, w, esc).Some? && |Fragments(ds, ws, esc)| == 0 ==>
      WhereClause(ds, ws + [w], esc) == Fragment(ds, w, esc).value
    ensures Fragment(ds, w, esc).Some? && |Fragments(ds, ws, esc)| > 0 ==>
      WhereClause(ds, ws + [w], esc) == WhereClause(ds, ws, esc) + " AND " + Fragment(ds, w, esc).value
  {
    assert (ws + [w])[..|ws|] == ws;
    if Fragment(ds, w, esc).Some? && |Fragments(ds, ws, esc)| > 0 {
      JoinAppend(" AND ", Fragments(ds, ws, esc), Fragment(ds, w, esc).value);
    }
  }

  /** A null comparison is written IS NULL / IS NOT NULL and never goes through value
      escaping: the clause is the same under any two escapers. */
  lemma NullComparisonNotEscaped(ds1: DataSource, ds2: DataSource, field: string, operator: string, esc: bool)
    requires ds1.escapeIdentifier == ds2.escapeIdentifier
    ensures Fragment(ds1, WhereSpec("value", field, Null, operator), esc)
         == Fragment(ds2, WhereSpec("value", field, Null, operator), esc)
    ensures var f := if esc then ds1.escapeIdentifier(field) else field;
      Fragment(ds1, WhereSpec("value", field, Null, operator), esc)
        == Some(if operator == "=" then f + " IS NULL" else f + " IS NOT NULL")
  {
  }

  /** An IN over nothing (an empty array, or a value that is not an array) is the
      false clause 0=1; a NOT IN over nothing drops out of the WHERE clause. */
  lemma EmptyInList(ds: DataSource, field: string, value: Value, esc: bool)
    requires |InItems(value)| == 0
    ensures Fragment(ds, WhereSpec("in", field, value, "="), esc) == Some("0=1")
    ensures forall op :: op != "=" ==> Fragment(ds, WhereSpec("in", field, value, op), esc).None?
  {
  }

  /** Specifications of an unknown kind contribute nothing. */
  lemma UnknownKindIgnored(ds: DataSource, ws: seq<WhereSpec>, w: WhereSpec, esc: bool)
    requires w.kind !in {"value", "expression", "in", "like", "exists", "custom"}
    ensures WhereClause(ds, ws + [w], esc) == WhereClause(ds, ws, esc)
  {
    WhereClauseExtend(ds, ws, w, esc);
  }
}
