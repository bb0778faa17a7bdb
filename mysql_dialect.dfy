/** The MySQL-specific text rules of MySQLDataSource that do not depend on the
    connection: identifier quoting, value literals, bind-parameter substitution,
    the classification of lost-connection errors, and the LIMIT/OFFSET suffix.
    real_escape_string is a parameter (it depends on the connection's charset). */
module MySqlDialect {
  import opened Strings
  import opened PhpValues
  import opened DataSources
  import opened Options
  import opened WhereClauses

  /** EscapeIdentifier: wrap in backticks unless the name already starts with one. */
  function EscapeIdentifier(name: string): (r: string)
    ensures |r| > 0 && r[0] == '`'
    ensures |name| > 0 && name[0] == '`' ==> r == name
    ensures !(|name| > 0 && name[0] == '`') ==> |r| == |name| + 2 && r[1..|r| - 1] == name && r[|r| - 1] == '`'
  {
    if |name| > 0 && name[0] == '`' then name else "`" + name + "`"
  }

  /** Quoting an already quoted identifier changes nothing. */
  lemma EscapeIdentifierIdempotent(name: string)
    ensures EscapeIdentifier(EscapeIdentifier(name)) == EscapeIdentifier(name)
  {
  }

  /** EscapeValue: NULL for null, a quoted escaped literal for a string, 0/1 for a
      boolean, the (string) conversion otherwise. */
  function EscapeValue(realEscape: string -> string, v: Value): (r: string)
    ensures v.Null? ==> r == "NULL"
    ensures v.Str? ==> |r| >= 2 && r[0] == '\'' && r[|r| - 1] == '\'' && r[1..|r| - 1] == realEscape(v.s)
    ensures v.Bool? ==> r == (if v.b then "1" else "0")
    ensures v.Int? || v.Arr? ==> r == ToText(v)
  {
    match v
    case Null => "NULL"
    case Str(s) => "'" + realEscape(s) + "'"
    case Bool(b) => if b then "1" else "0"
    case _ => ToText(v)
  }

  /** A string value is always a quoted literal, so even the string "NULL" is told
      apart from a null value. */
  lemma NullDistinctFromString(realEscape: string -> string, s: string)
    ensures EscapeValue(realEscape, Str(s)) != EscapeValue(realEscape, Null)
  {
    var r := EscapeValue(realEscape, Str(s));
    assert r[0] == '\'';
    assert "NULL"[0] == 'N';
  }

  /** The data source capability the MySQL data source offers to the builders:
      GetOperator is the identity. */
  function Dialect(realEscape: string -> string): (ds: DataSource)
    ensures forall name :: ds.escapeIdentifier(name) == EscapeIdentifier(name)
    ensures forall v :: ds.escapeValue(v) == EscapeValue(realEscape, v)
    ensures forall op :: ds.getOperator(op) == op
  {
    DataSource(EscapeIdentifier, v => EscapeValue(realEscape, v), op => op)
  }

  // ---------------------------------------------------------------------------
  // WHERE clauses under the MySQL dialect

  /** A conjunct that PHP's empty() would not discard. */
  predicate Substantial(f: string)
  {
    f != "" && f != "0"
  }

  /** With escaped field names every conjunct is substantial: field-based conjuncts
      start with a backtick, the others with a keyword, a parenthesis or "0=1". */
  lemma MySqlFragmentSubstantial(realEscape: string -> string, w: WhereSpec)
    ensures Fragment(Dialect(realEscape), w, true).Some? ==> Substantial(Fragment(Dialect(realEscape), w, true).value)
  {
    var ds := Dialect(realEscape);
    var field := EscapeIdentifier(w.field);
    match Fragment(ds, w, true)
    case None =>
    case Some(f) =>
      if w.kind == "value" || w.kind == "expression" || w.kind == "like" || (w.kind == "in" && f != "0=1") {
        assert f[0] == field[0] == '`';
      }
  }

  lemma {:induction false} MySqlFragmentsSubstantial(realEscape: string -> string, ws: seq<WhereSpec>)
    ensures forall k :: 0 <= k < |Fragments(Dialect(realEscape), ws, true)| ==>
      Substantial(Fragments(Dialect(realEscape), ws, true)[k])
    decreases |ws|
  {
    if |ws| > 0 {
      MySqlFragmentsSubstantial(realEscape, ws[..|ws| - 1]);
      MySqlFragmentSubstantial(realEscape, ws[|ws| - 1]);
    }
  }

  /** Under the MySQL dialect with escaped field names, the builders' `!empty($where)`
      test holds exactly when at least one specification contributed a conjunct. */
  lemma MySqlWhereEmptyIff(realEscape: string -> string, ws: seq<WhereSpec>)
    ensures IsEmptyText(WhereClause(Dialect(realEscape), ws, true)) <==> |Fragments(Dialect(realEscape), ws, true)| == 0
  {
    var fs := Fragments(Dialect(realEscape), ws, true);
    MySqlFragmentsSubstantial(realEscape, ws);
    if |fs| == 1 {
      assert Substantial(fs[0]);
    } else if |fs| > 1 {
      JoinAppend(" AND ", fs[..|fs| - 1], fs[|fs| - 1]);
      assert fs[..|fs| - 1] + [fs[|fs| - 1]] == fs;
      assert |Join(" AND ", fs)| >= 5;
    }
  }

  // ---------------------------------------------------------------------------
  // Bind parameters

  /** The bind marker. */
  const Marker: char := '?'

  /** segments[0] + escaped[0] + segments[1] + ... + escaped[k-1] + segments[k]. */
  function Interleave(segments: seq<string>, escaped: seq<string>): string
    requires |escaped| < |segments|
    decreases |escaped|
  {
    if |escaped| == 0 then segments[0]
    else Interleave(segments, escaped[..|escaped| - 1]) + escaped[|escaped| - 1] + segments[|escaped|]
  }

  /** The binds that get used: at most one per marker. */
  function UsedBinds(segments: seq<string>, binds: seq<Value>): (r: seq<Value>)
    requires |segments| > 0
    ensures |r| == if |binds| < |segments| then |binds| else |segments| - 1
    ensures r == binds[..|r|]
  {
    if |binds| >= |segments| then binds[..|segments| - 1] else binds
  }

  /** CompileBinds as written: explode on '?', drop surplus binds, interleave. When
      there are fewer binds than markers, everything after the last bound segment,
      including the remaining markers, is lost. */
  function CompileBindsAsWritten(escape: Value -> string, sql: string, binds: seq<Value>): string
  {
    if Marker !in sql || |binds| == 0 then sql
    else
      var segments := Split(sql, Marker);
      Interleave(segments, ArrayMap(escape, UsedBinds(segments, binds)))
  }

  /** CompileBinds as evidently intended: the same substitution, but markers left
      without a bind stay in the text as literal '?'. */
  function CompileBindsFixed(escape: Value -> string, sql: string, binds: seq<Value>): string
  {
    if Marker !in sql || |binds| == 0 then sql
    else
      var segments := Split(sql, Marker);
      var used := UsedBinds(segments, binds);
      Interleave(segments, ArrayMap(escape, used))
        + (if |used| + 1 < |segments| then [Marker] + Join([Marker], segments[|used| + 1..]) else "")
  }

  /** Interleaving one more rendered bind appends it and the segment after it. */
  lemma InterleaveStep(segments: seq<string>, escaped: seq<string>, i: nat)
    requires i < |escaped| < |segments|
    ensures Interleave(segments, escaped[..i + 1]) == Interleave(segments, escaped[..i]) + escaped[i] + segments[i + 1]
  {
    assert escaped[..i + 1][..i] == escaped[..i];
  }

  /** The loop of CompileBinds (corrected), proved equal to CompileBindsFixed. */
  method CompileBinds(escape: Value -> string, sql: string, binds: seq<Value>) returns (r: string)
    ensures r == CompileBindsFixed(escape, sql, binds)
  {
    if Marker !in sql || |binds| == 0 {
      return sql;
    }
    var segments := Split(sql, Marker);
    var used := binds;
    if |used| >= |segments| {
      used := used[..|segments| - 1];
    }
    assert used == UsedBinds(segments, binds);
    ghost var escaped := ArrayMap(escape, used);
    r := segments[0];
    var i := 0;
    while i < |used|
      invariant 0 <= i <= |used|
      invariant r == Interleave(segments, escaped[..i])
    {
      InterleaveStep(segments, escaped, i);
      r := r + escape(used[i]) + segments[i + 1];
      i := i + 1;
    }
    assert escaped[..i] == escaped;
    if |used| + 1 < |segments| {
      r := r + [Marker] + Join([Marker], segments[|used| + 1..]);
    }
  }

  /** Interleaving with every bind rendered as the marker itself rebuilds the text of
      the segments it covers. */
  lemma {:induction false} InterleaveMarkers(segments: seq<string>, escaped: seq<string>)
    requires |escaped| < |segments|
    requires forall k :: 0 <= k < |escaped| ==> escaped[k] == [Marker]
    ensures Interleave(segments, escaped) == Join([Marker], segments[..|escaped| + 1])
    decreases |escaped|
  {
    var n := |escaped|;
    if n == 0 {
      assert segments[..1] == [segments[0]];
    } else {
      InterleaveMarkers(segments, escaped[..n - 1]);
      JoinAppend([Marker], segments[..n], segments[n]);
      assert segments[..n] + [segments[n]] == segments[..n + 1];
    }
  }

  /** Renders any bind as the marker itself. */
  function AsMarker(v: Value): string
  {
    [Marker]
  }

  /** Corrected substitution loses no text: rendering each bind as a marker gives
      the original SQL back, for any number of binds. */
  lemma CompileBindsFixedKeepsText(sql: string, binds: seq<Value>)
    ensures CompileBindsFixed(AsMarker, sql, binds) == sql
  {
    if Marker in sql && |binds| > 0 {
      var segments := Split(sql, Marker);
      var used := UsedBinds(segments, binds);
      var n := |used| + 1;
      var escaped := ArrayMap(AsMarker, used);
      InterleaveMarkers(segments, escaped);
      SplitJoin(sql, Marker);
      var head := Interleave(segments, escaped);
      assert head == Join([Marker], segments[..n]);
      if n < |segments| {
        JoinConcat([Marker], segments[..n], segments[n..]);
        assert segments[..n] + segments[n..] == segments;
        assert CompileBindsFixed(AsMarker, sql, binds) == head + [Marker] + Join([Marker], segments[n..]);
      } else {
        assert segments[..n] == segments;
        assert CompileBindsFixed(AsMarker, sql, binds) == head;
      }
    }
  }

  /** Binds beyond the number of markers are ignored. */
  lemma SurplusBindsIgnored(escape: Value -> string, sql: string, binds: seq<Value>, extra: seq<Value>)
    requires |binds| >= Count(sql, Marker)
    ensures CompileBindsFixed(escape, sql, binds + extra) == CompileBindsFixed(escape, sql, binds)
  {
    if Marker in sql {
      CountPositive(sql, Marker);
      var segments := Split(sql, Marker);
      SplitCount(sql, Marker);
      assert UsedBinds(segments, binds + extra) == UsedBinds(segments, binds);
    }
  }

  /** A text with one marker: the first bind fills it. */
  lemma OneMarkerBound(escape: Value -> string, a: string, b: string, binds: seq<Value>)
    requires Marker !in a && Marker !in b
    requires |binds| >= 1
    ensures CompileBindsFixed(escape, a + [Marker] + b, binds) == a + escape(binds[0]) + b
  {
    var sql := a + [Marker] + b;
    SplitWithout(b, Marker);
    SplitAt(a, b, Marker);
    assert Split(sql, Marker) == [a, b];
    assert sql[|a|] == Marker;
    var used := UsedBinds([a, b], binds);
    assert used == binds[..1];
    var escaped := ArrayMap(escape, used);
    assert escaped == [escape(binds[0])];
    assert escaped[..0] == [];
    assert Interleave([a, b], escaped) == a + escape(binds[0]) + b;
  }

  /** A text with two markers: the first two binds fill them in order and any
      further bind is dropped. */
  lemma TwoMarkersBound(escape: Value -> string, a: string, b: string, c: string, binds: seq<Value>)
    requires Marker !in a && Marker !in b && Marker !in c
    requires |binds| >= 2
    ensures CompileBindsFixed(escape, a + [Marker] + b + [Marker] + c, binds) == a + escape(binds[0]) + b + escape(binds[1]) + c
  {
    var sql := a + [Marker] + b + [Marker] + c;
    SplitWithout(c, Marker);
    SplitAt(b, c, Marker);
    assert sql == a + [Marker] + (b + [Marker] + c);
    SplitAt(a, b + [Marker] + c, Marker);
    assert Split(sql, Marker) == [a, b, c];
    assert sql[|a|] == Marker;
    var used := UsedBinds([a, b, c], binds);
    assert used == binds[..2];
    var escaped := ArrayMap(escape, used);
    assert escaped == [escape(binds[0]), escape(binds[1])];
    assert Interleave([a, b, c], escaped[..1]) == a + escape(binds[0]) + b by {
      assert escaped[..1][..0] == [];
    }
    assert Interleave([a, b, c], escaped) == a + escape(binds[0]) + b + escape(binds[1]) + c;
  }

  /** A text with three markers: the first three binds fill them in order. */
  lemma ThreeMarkersBound(escape: Value -> string, a: string, b: string, c: string, d: string, binds: seq<Value>)
    requires Marker !in a && Marker !in b && Marker !in c && Marker !in d
    requires |binds| >= 3
    ensures CompileBindsFixed(escape, a + [Marker] + b + [Marker] + c + [Marker] + d, binds)
      == a + escape(binds[0]) + b + escape(binds[1]) + c + escape(binds[2]) + d
  {
    var sql := a + [Marker] + b + [Marker] + c + [Marker] + d;
    SplitWithout(d, Marker);
    SplitAt(c, d, Marker);
    assert b + [Marker] + c + [Marker] + d == b + [Marker] + (c + [Marker] + d);
    SplitAt(b, c + [Marker] + d, Marker);
    assert sql == a + [Marker] + (b + [Marker] + c + [Marker] + d);
    SplitAt(a, b + [Marker] + c + [Marker] + d, Marker);
    assert Split(sql, Marker) == [a, b, c, d];
    assert sql[|a|] == Marker;
    var used := UsedBinds([a, b, c, d], binds);
    assert used == binds[..3];
    var escaped := ArrayMap(escape, used);
    assert escaped == [escape(binds[0]), escape(binds[1]), escape(binds[2])];
    assert Interleave([a, b, c, d], escaped[..1]) == a + escape(binds[0]) + b by {
      assert escaped[..1][..0] == [];
    }
    assert Interleave([a, b, c, d], escaped[..2]) == a + escape(binds[0]) + b + escape(binds[1]) + c by {
      assert escaped[..2][..1] == escaped[..1];
    }
    assert Interleave([a, b, c, d], escaped) == a + escape(binds[0]) + b + escape(binds[1]) + c + escape(binds[2]) + d;
  }

  /** When every marker has a bind, the code as written and the corrected version
      agree. */
  lemma AsWrittenAgreesWhenEnoughBinds(escape: Value -> string, sql: string, binds: seq<Value>)
    requires |binds| >= Count(sql, Marker)
    ensures CompileBindsAsWritten(escape, sql, binds) == CompileBindsFixed(escape, sql, binds)
  {
    if Marker in sql && |binds| > 0 {
      SplitCount(sql, Marker);
    }
  }

  /** The code as written drops text: with two markers and one bind the second marker
      vanishes, so "?,?" bound to one value rendered as "?" comes out as "?,". */
  lemma CompileBindsAsWrittenDropsTail()
    ensures CompileBindsAsWritten(AsMarker, "?,?", [Int(1)]) == "?,"
    ensures CompileBindsFixed(AsMarker, "?,?", [Int(1)]) == "?,?"
  {
    var sql := "?,?";
    assert sql[0] == Marker;
    assert Split(sql[1..][1..][1..], Marker) == [""];
    assert Split(sql[1..][1..], Marker) == ["", ""];
    assert sql[1..][0] == ',';
    assert Split(sql[1..], Marker) == [[','] + ""] + [""];
    assert [','] + "" == ",";
    assert Split(sql, Marker) == ["", ",", ""];
    CompileBindsFixedKeepsText(sql, [Int(1)]);
  }

  // ---------------------------------------------------------------------------
  // Errors and paging

  /** The select errors that mean the connection itself is gone. */
  predicate IsConnectionLost(error: string)
  {
    Contains(error, "server has gone away")
    || EqualsIgnoreCase(error, "WSREP has not yet prepared node for application use")
    || EqualsIgnoreCase(error, "Lost connection to MySQL server during query")
  }

  /** SelectQuery's SQL: the command followed by " LIMIT n" when the limit is set and
      " OFFSET m" when the offset is set (either is unset when negative). */
  function PagedSql(commandSql: string, limit: int, offset: int): (r: string)
    ensures IsPrefix(commandSql, r)
    ensures limit < 0 && offset < 0 ==> r == commandSql
    ensures limit >= 0 && offset < 0 ==> r == commandSql + " LIMIT " + IntToString(limit)
    ensures limit < 0 && offset >= 0 ==> r == commandSql + " OFFSET " + IntToString(offset)
    ensures limit >= 0 && offset >= 0 ==>
      r == commandSql + " LIMIT " + IntToString(limit) + " OFFSET " + IntToString(offset)
  {
    var withLimit := if limit >= 0 then commandSql + " LIMIT " + IntToString(limit) else commandSql;
    var r := if offset >= 0 then withLimit + " OFFSET " + IntToString(offset) else withLimit;
    assert r[..|commandSql|] == commandSql;
    r
  }
}
