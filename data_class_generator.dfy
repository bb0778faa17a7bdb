/** DataClassGenerator: derives a model class from a table's column definitions. The
    decisions it makes are modelled as a ClassPlan (property names and types, the
    constructor's casts, the table alias, the select list, the status and order
    columns, and whether the by-ID getter and the update method exist); the PHP text
    the generator pastes these into is not reproduced. */
module DataClassGeneration {
  import opened Strings
  import opened Options

  /** One column as the schema reports it. */
  datatype FieldDef = FieldDef(name: string, dbType: string, primaryKey: bool)

  // ---------------------------------------------------------------------------
  // Property names

  /** One "_"-separated part of a column name: "id" becomes "ID", an all-lowercase
      part gets an upper-case first letter, any other part is kept. */
  function PartName(part: string): (r: string)
    ensures |r| == |part|
    ensures part == "id" ==> r == "ID"
    ensures part != "id" && part != Lower(part) ==> r == part
    ensures part != "id" && part == Lower(part) && |part| > 0 ==> r[0] == UpperChar(part[0]) && r[1..] == part[1..]
  {
    if part == "id" then "ID"
    else if part == Lower(part) then
      if |part| == 0 then "" else Upper(part[..1]) + Lower(part[1..])
    else part
  }

  function PartNames(parts: seq<string>): (r: seq<string>)
    ensures |r| == |parts|
    ensures forall k :: 0 <= k < |parts| ==> r[k] == PartName(parts[k])
  {
    seq(|parts|, k requires 0 <= k < |parts| => PartName(parts[k]))
  }

  lemma PartNamesAppend(parts: seq<string>, part: string)
    ensures PartNames(parts + [part]) == PartNames(parts) + [PartName(part)]
  {
  }

  /** generatePropertyName: the converted parts of the column name, concatenated. */
  function PropertyName(fieldName: string): string
  {
    Join("", PartNames(Split(fieldName, '_')))
  }

  method GeneratePropertyName(fieldName: string) returns (r: string)
    ensures r == PropertyName(fieldName)
  {
    var fieldNameParts := Split(fieldName, '_');
    var namePartsTr: seq<string> := [];
    var i := 0;
    while i < |fieldNameParts|
      invariant 0 <= i <= |fieldNameParts|
      invariant namePartsTr == PartNames(fieldNameParts[..i])
    {
      var namePart := fieldNameParts[i];
      if namePart == "id" {
        namePartsTr := namePartsTr + ["ID"];
      } else if namePart == Lower(namePart) {
        var first := if |namePart| == 0 then "" else namePart[..1];
        var rest := if |namePart| == 0 then "" else namePart[1..];
        assert Upper(first) + Lower(rest) == PartName(namePart) by {
          if |namePart| == 0 {
            assert Upper(first) == [] && Lower(rest) == [];
          }
        }
        namePartsTr := namePartsTr + [Upper(first) + Lower(rest)];
      } else {
        namePartsTr := namePartsTr + [namePart];
      }
      assert fieldNameParts[..i + 1] == fieldNameParts[..i] + [namePart];
      PartNamesAppend(fieldNameParts[..i], namePart);
      i := i + 1;
    }
    assert fieldNameParts[..i] == fieldNameParts;
    r := Join("", namePartsTr);
  }

  /** Upper- and lower-casing never produce an underscore from another character. */
  lemma CaseKeepsUnderscore(s: string)
    requires '_' !in s
    ensures '_' !in Upper(s) && '_' !in Lower(s)
  {
    assert forall i :: 0 <= i < |s| ==> Upper(s)[i] == UpperChar(s[i]) && Lower(s)[i] == LowerChar(s[i]);
  }

  lemma PartNameKeepsUnderscore(part: string)
    requires '_' !in part
    ensures '_' !in PartName(part)
  {
    if part != "id" && part == Lower(part) && |part| > 0 {
      CaseKeepsUnderscore(part[..1]);
      CaseKeepsUnderscore(part[1..]);
    }
  }

  /** Concatenation adds no character that none of the parts has. */
  lemma {:induction false} JoinAddsNothing(parts: seq<string>, c: char)
    requires forall k :: 0 <= k < |parts| ==> c !in parts[k]
    ensures c !in Join("", parts)
    decreases |parts|
  {
    if |parts| > 1 {
      JoinAddsNothing(parts[..|parts| - 1], c);
    }
  }

  /** A generated property name never contains the separator "_". */
  lemma PropertyNameHasNoUnderscore(fieldName: string)
    ensures '_' !in PropertyName(fieldName)
  {
    var parts := Split(fieldName, '_');
    SplitPartsFree(fieldName, '_');
    forall k | 0 <= k < |parts|
      ensures '_' !in PartNames(parts)[k]
    {
      PartNameKeepsUnderscore(parts[k]);
    }
    JoinAddsNothing(PartNames(parts), '_');
  }

  /** A name without "_" is a single part, converted on its own. */
  lemma PropertyNameOnePart(fieldName: string)
    requires '_' !in fieldName
    ensures PropertyName(fieldName) == PartName(fieldName)
  {
    SplitWithout(fieldName, '_');
    assert PartNames([fieldName]) == [PartName(fieldName)];
  }

  /** A name without "_" that is not all lower case, as "giftID", is kept as it is. */
  lemma PropertyNameKeepsMixedCase(fieldName: string)
    requires '_' !in fieldName && Lower(fieldName) != fieldName
    ensures PropertyName(fieldName) == fieldName
  {
    PropertyNameOnePart(fieldName);
    assert Lower("id") == "id";
  }

  /** The property of "<first>_<rest>" is the converted first part followed by the
      property of the rest, so "user_id" gives "User" + "ID". */
  lemma PropertyNameOfParts(first: string, rest: string)
    requires '_' !in first
    ensures PropertyName(first + "_" + rest) == PartName(first) + PropertyName(rest)
  {
    var tail := Split(rest, '_');
    var names := PartNames(tail);
    calc {
      PropertyName(first + "_" + rest);
      Join("", PartNames(Split(first + "_" + rest, '_')));
      { SplitAt(first, rest, '_'); }
      Join("", PartNames([first] + tail));
      { PartNamesCons(first, tail); }
      Join("", [PartName(first)] + names);
      { JoinCons("", PartName(first), names); }
      PartName(first) + "" + Join("", names);
      { assert PartName(first) + "" == PartName(first); }
      PartName(first) + PropertyName(rest);
    }
  }

  lemma PartNamesCons(part: string, parts: seq<string>)
    ensures PartNames([part] + parts) == [PartName(part)] + PartNames(parts)
  {
    var all := [part] + parts;
    forall k | 0 < k < |all|
      ensures PartNames(all)[k] == PartNames(parts)[k - 1]
    {
      assert all[k] == parts[k - 1];
    }
  }

  // ---------------------------------------------------------------------------
  // Table aliases

  const TablePrefixes: set<string> := {"tbl", "def", "rel"}

  /** preg_replace('#^(tbl|def|rel)_?#', ''): drops a leading tbl/def/rel and one
      underscore after it. */
  function StripTablePrefix(tableName: string): (r: string)
    ensures |r| <= |tableName|
    ensures IsSuffix(r, tableName)
    ensures r == tableName <==> !(|tableName| >= 3 && tableName[..3] in TablePrefixes)
    ensures r != tableName ==> tableName == tableName[..3] + r || tableName == tableName[..3] + "_" + r
    ensures r != tableName && |tableName| > 3 && tableName[3] == '_' ==> tableName == tableName[..3] + "_" + r
  {
    if |tableName| >= 3 && tableName[..3] in TablePrefixes then
      if |tableName| > 3 && tableName[3] == '_' then tableName[4..] else tableName[3..]
    else tableName
  }

  /** The capital letters A-Z of s, lower-cased, in order. */
  function CapitalLetters(s: string): (r: string)
    ensures |r| <= |s|
    decreases |s|
  {
    if |s| == 0 then ""
    else
      var last := s[|s| - 1];
      CapitalLetters(s[..|s| - 1]) + (if 'A' <= last <= 'Z' then [LowerChar(last)] else "")
  }

  /** The lower-cased first character of each part ("" for an empty part). */
  function Initials(parts: seq<string>): (r: seq<string>)
    ensures |r| == |parts|
    ensures forall k :: 0 <= k < |parts| ==> r[k] == Lower(if |parts[k]| == 0 then "" else parts[k][..1])
  {
    seq(|parts|, k requires 0 <= k < |parts| => Lower(if |parts[k]| == 0 then "" else parts[k][..1]))
  }

  /** generateTableAlias: after the prefix is dropped, a single-part name gives its
      capitals and a multi-part name the initials of its parts. */
  function TableAlias(tableName: string): string
  {
    var nameParts := Split(StripTablePrefix(tableName), '_');
    if |nameParts| == 1 then CapitalLetters(nameParts[0]) else Join("", Initials(nameParts))
  }

  method GenerateTableAlias(tableName: string) returns (alias: string)
    ensures alias == TableAlias(tableName)
  {
    var stripped := StripTablePrefix(tableName);
    var nameParts := Split(stripped, '_');
    if |nameParts| == 1 {
      var firstPart := nameParts[0];
      alias := "";
      var i := 0;
      while i < |firstPart|
        invariant 0 <= i <= |firstPart|
        invariant alias == CapitalLetters(firstPart[..i])
      {
        var ch := firstPart[i];
        assert firstPart[..i + 1][..i] == firstPart[..i];
        if 'A' <= ch <= 'Z' {
          alias := alias + [LowerChar(ch)];
        }
        i := i + 1;
      }
      assert firstPart[..i] == firstPart;
    } else {
      var namePartsTr: seq<string> := [];
      var i := 0;
      while i < |nameParts|
        invariant 0 <= i <= |nameParts|
        invariant namePartsTr == Initials(nameParts[..i])
      {
        var namePart := nameParts[i];
        namePartsTr := namePartsTr + [Lower(if |namePart| == 0 then "" else namePart[..1])];
        i := i + 1;
      }
      assert nameParts[..i] == nameParts;
      alias := Join("", namePartsTr);
    }
  }

  /** An alias from a name without underscores consists of lower-case letters only,
      one per capital. */
  lemma SinglePartAliasIsLowerCase(tableName: string)
    requires '_' !in StripTablePrefix(tableName)
    ensures TableAlias(tableName) == CapitalLetters(StripTablePrefix(tableName))
    ensures forall i :: 0 <= i < |TableAlias(tableName)| ==> 'a' <= TableAlias(tableName)[i] <= 'z'
  {
    SplitWithout(StripTablePrefix(tableName), '_');
    CapitalLettersAreLower(StripTablePrefix(tableName));
  }

  /** Every letter collected is a lower-case letter. */
  lemma {:induction false} CapitalLettersAreLower(s: string)
    ensures forall i :: 0 <= i < |CapitalLetters(s)| ==> 'a' <= CapitalLetters(s)[i] <= 'z'
    decreases |s|
  {
    if |s| > 0 {
      CapitalLettersAreLower(s[..|s| - 1]);
    }
  }

  /** Capitals of a concatenation are those of each half. */
  lemma {:induction false} CapitalLettersAppend(a: string, b: string)
    ensures CapitalLetters(a + b) == CapitalLetters(a) + CapitalLetters(b)
    decreases |b|
  {
    if |b| == 0 {
      assert a + b == a;
    } else {
      var init := b[..|b| - 1];
      var last := b[|b| - 1];
      assert (a + b)[..|a + b| - 1] == a + init;
      assert (a + b)[|a + b| - 1] == last;
      CapitalLettersAppend(a, init);
      var extra: string := if 'A' <= last <= 'Z' then [LowerChar(last)] else "";
      assert CapitalLetters(a + b) == CapitalLetters(a + init) + extra;
      assert CapitalLetters(b) == CapitalLetters(init) + extra;
    }
  }

  lemma {:induction false} NoCapitals(s: string)
    requires forall i :: 0 <= i < |s| ==> !('A' <= s[i] <= 'Z')
    ensures CapitalLetters(s) == ""
    decreases |s|
  {
    if |s| > 0 {
      NoCapitals(s[..|s| - 1]);
    }
  }

  /** A capitalised word contributes its lower-cased initial. */
  lemma CapitalisedWord(w: string)
    requires |w| > 0 && 'A' <= w[0] <= 'Z'
    requires forall i :: 1 <= i < |w| ==> !('A' <= w[i] <= 'Z')
    ensures CapitalLetters(w) == [LowerChar(w[0])]
  {
    assert w == [w[0]] + w[1..];
    CapitalLettersAppend([w[0]], w[1..]);
    NoCapitals(w[1..]);
    assert CapitalLetters([w[0]]) == CapitalLetters([]) + [LowerChar(w[0])];
  }

  /** A capitalised word: an initial A-Z followed by no further capital. */
  predicate IsCapitalisedWord(w: string)
  {
    |w| > 0 && 'A' <= w[0] <= 'Z' && forall i :: 1 <= i < |w| ==> !('A' <= w[i] <= 'Z')
  }

  /** The capitals of capitalised words written together are their lower-cased
      initials, one per word. */
  lemma {:induction false} CapitalisedWordsInitials(words: seq<string>)
    requires forall k :: 0 <= k < |words| ==> |words[k]| > 0 && IsCapitalisedWord(words[k])
    ensures |CapitalLetters(Join("", words))| == |words|
    ensures forall k :: 0 <= k < |words| ==> CapitalLetters(Join("", words))[k] == LowerChar(words[k][0])
    decreases |words|
  {
    if |words| == 1 {
      CapitalisedWord(words[0]);
    } else if |words| > 1 {
      var init := words[..|words| - 1];
      var last := words[|words| - 1];
      assert words == init + [last];
      CapitalisedWordsInitials(init);
      JoinAppend("", init, last);
      assert Join("", words) == Join("", init) + last;
      CapitalLettersAppend(Join("", init), last);
      CapitalisedWord(last);
    }
  }

  /** A table name made of capitalised words after its prefix, as tblUserGiftQueue,
      gets the lower-cased initials of the words as its alias ("ugq"). */
  lemma CapitalisedTableAlias(tableName: string, words: seq<string>)
    requires StripTablePrefix(tableName) == Join("", words) && '_' !in StripTablePrefix(tableName)
    requires forall k :: 0 <= k < |words| ==> |words[k]| > 0 && IsCapitalisedWord(words[k])
    ensures |TableAlias(tableName)| == |words|
    ensures forall k :: 0 <= k < |words| ==> TableAlias(tableName)[k] == LowerChar(words[k][0])
  {
    SinglePartAliasIsLowerCase(tableName);
    CapitalisedWordsInitials(words);
  }

  /** Concatenated one-character strings: character k is the k-th string. */
  lemma {:induction false} JoinSingles(ps: seq<string>)
    requires forall k :: 0 <= k < |ps| ==> |ps[k]| == 1
    ensures |Join("", ps)| == |ps|
    ensures forall k :: 0 <= k < |ps| ==> Join("", ps)[k] == ps[k][0]
    decreases |ps|
  {
    if |ps| > 1 {
      var init := ps[..|ps| - 1];
      JoinSingles(init);
      JoinAppend("", init, ps[|ps| - 1]);
      assert ps == init + [ps[|ps| - 1]];
    }
  }

  /** A name with "_" after its prefix gets one letter per part: the part's
      lower-cased initial (an empty part adds nothing). */
  lemma MultiPartAlias(tableName: string)
    requires '_' in StripTablePrefix(tableName)
    ensures var parts := Split(StripTablePrefix(tableName), '_');
      TableAlias(tableName) == Join("", Initials(parts))
      && ((forall k :: 0 <= k < |parts| ==> |parts[k]| > 0) ==>
        |TableAlias(tableName)| == |parts|
        && forall k :: 0 <= k < |parts| ==> TableAlias(tableName)[k] == LowerChar(parts[k][0]))
  {
    var parts := Split(StripTablePrefix(tableName), '_');
    CountPositive(StripTablePrefix(tableName), '_');
    SplitCount(StripTablePrefix(tableName), '_');
    if forall k :: 0 <= k < |parts| ==> |parts[k]| > 0 {
      JoinSingles(Initials(parts));
    }
  }

  // ---------------------------------------------------------------------------
  // Types and casts

  const StringTypes: set<string> := {"varchar", "text", "mediumtext", "longtext", "tinytext", "date", "time", "datetime", "timestamp"}
  const IntTypes: set<string> := {"tinyint", "smallint", "mediumint", "int", "bigint"}
  const FloatTypes: set<string> := {"double", "float", "decimal"}

  /** The PHP type of a column: text and date types are strings, integer types int,
      anything else keeps its database name. */
  function MappedType(dbType: string): (r: string)
    ensures dbType in StringTypes ==> r == "string"
    ensures dbType in IntTypes ==> r == "int"
    ensures dbType !in StringTypes && dbType !in IntTypes ==> r == dbType
  {
    if dbType in StringTypes then "string" else if dbType in IntTypes then "int" else dbType
  }

  /** The cast the constructor applies to a column of the given PHP type. */
  function CastOperator(typeName: string): string
  {
    if typeName == "int" then "(int)" else if typeName in FloatTypes then "(float)" else ""
  }

  /** A column is cast to int exactly when it has an integer type, to float exactly
      when it has a floating type, and otherwise copied as it is. */
  lemma CastOfColumnType(dbType: string)
    ensures CastOperator(MappedType(dbType)) == "(int)" <==> dbType in IntTypes
    ensures CastOperator(MappedType(dbType)) == "(float)" <==> dbType in FloatTypes
    ensures CastOperator(MappedType(dbType)) == "" <==> dbType !in IntTypes && dbType !in FloatTypes
  {
  }

  // ---------------------------------------------------------------------------
  // Status and order columns

  /** '#^(status|is_enabled|is_active)$#i', '#(_status)$#i' or '#(Status)$#'. */
  predicate IsStatusName(name: string)
  {
    Lower(name) in {"status", "is_enabled", "is_active"} || IsSuffix("_status", Lower(name)) || IsSuffix("Status", name)
  }

  /** '#^(sira|sira_no|order|order_no)$#i', '#(_sira)$#i' or '#(Order)$#'. */
  predicate IsOrderName(name: string)
  {
    Lower(name) in {"sira", "sira_no", "order", "order_no"} || IsSuffix("_sira", Lower(name)) || IsSuffix("Order", name)
  }

  /** The first field whose name matches, scanning in column order. */
  function FirstMatch(fields: seq<FieldDef>, matches: string -> bool): (r: Option<FieldDef>)
    decreases |fields|
  {
    if |fields| == 0 then None
    else
      var earlier := FirstMatch(fields[..|fields| - 1], matches);
      if earlier.None? && matches(fields[|fields| - 1].name) then Some(fields[|fields| - 1]) else earlier
  }

  /** FirstMatch finds the first matching field, and nothing when no field matches. */
  lemma {:induction false} FirstMatchIsFirst(fields: seq<FieldDef>, matches: string -> bool)
    ensures FirstMatch(fields, matches).None? <==> forall k :: 0 <= k < |fields| ==> !matches(fields[k].name)
    ensures FirstMatch(fields, matches).Some? ==>
      exists k :: 0 <= k < |fields| && fields[k] == FirstMatch(fields, matches).value && matches(fields[k].name)
        && forall j :: 0 <= j < k ==> !matches(fields[j].name)
    decreases |fields|
  {
    if |fields| > 0 {
      var init := fields[..|fields| - 1];
      FirstMatchIsFirst(init, matches);
      assert forall k :: 0 <= k < |init| ==> init[k] == fields[k];
      if FirstMatch(init, matches).Some? {
        var k :| 0 <= k < |init| && init[k] == FirstMatch(init, matches).value && matches(init[k].name)
          && forall j :: 0 <= j < k ==> !matches(init[j].name);
        assert fields[k] == FirstMatch(fields, matches).value;
      } else if matches(fields[|fields| - 1].name) {
        assert fields[|fields| - 1] == FirstMatch(fields, matches).value;
      }
    }
  }

  /** The primary-key fields, in column order. */
  function PkFields(fields: seq<FieldDef>): (r: seq<FieldDef>)
    ensures |r| <= |fields|
    ensures forall k :: 0 <= k < |r| ==> r[k].primaryKey && r[k] in fields
    ensures forall f :: f in fields && f.primaryKey ==> f in r
    decreases |fields|
  {
    if |fields| == 0 then []
    else
      var init := PkFields(fields[..|fields| - 1]);
      if fields[|fields| - 1].primaryKey then init + [fields[|fields| - 1]] else init
  }

  /** The key fields of consecutive column lists are those of the first list
      followed by those of the second: the scan keeps column order. */
  lemma {:induction false} PkFieldsAppend(a: seq<FieldDef>, b: seq<FieldDef>)
    ensures PkFields(a + b) == PkFields(a) + PkFields(b)
    decreases |b|
  {
    if |b| == 0 {
      assert a + b == a;
    } else {
      var init := b[..|b| - 1];
      assert (a + b)[..|a + b| - 1] == a + init;
      PkFieldsAppend(a, init);
    }
  }

  // ---------------------------------------------------------------------------
  // The class plan

  datatype PropertyDecl = PropertyDecl(typeName: string, propName: string)
  datatype Assignment = Assignment(propName: string, cast: string, column: string)
  /** get<Class>ByID: the key column, its parameter's documented type, the cast
      applied to the argument, the parameter name, and the SQL after "FROM ... AS a". */
  datatype ByIdGetter = ByIdGetter(idField: string, paramType: string, paramCast: string, paramName: string, whereSql: string)
  datatype SetCall = SetCall(column: string, propName: string)
  /** update<Class>: the key column and property, and the Set calls it chains. */
  datatype UpdateMethod = UpdateMethod(idField: string, idProperty: string, sets: seq<SetCall>)
  datatype ClassPlan = ClassPlan(
    className: string,
    tableName: string,
    properties: seq<PropertyDecl>,
    assignments: seq<Assignment>,
    alias: string,
    selectList: string,
    byId: Option<ByIdGetter>,
    listSql: string,
    update: Option<UpdateMethod>)

  /** $fieldTypes: column name to PHP type; a later column of the same name wins. */
  function TypeMap(fields: seq<FieldDef>): (m: map<string, string>)
    ensures forall k :: 0 <= k < |fields| ==> fields[k].name in m
    decreases |fields|
  {
    if |fields| == 0 then map[]
    else
      var last := fields[|fields| - 1];
      assert forall k :: 0 <= k < |fields| - 1 ==> fields[..|fields| - 1][k] == fields[k];
      TypeMap(fields[..|fields| - 1])[last.name := MappedType(last.dbType)]
  }

  /** $fieldTypes holds exactly the column names, each mapped to the type of the
      last column of that name. */
  lemma {:induction false} TypeMapLastWins(fields: seq<FieldDef>)
    ensures forall n :: n in TypeMap(fields) ==> exists k :: 0 <= k < |fields| && fields[k].name == n
    ensures forall k :: 0 <= k < |fields| && (forall j :: k < j < |fields| ==> fields[j].name != fields[k].name) ==>
      TypeMap(fields)[fields[k].name] == MappedType(fields[k].dbType)
  {
    TypeMapKeys(fields);
    TypeMapValues(fields);
  }

  lemma {:induction false} TypeMapKeys(fields: seq<FieldDef>)
    ensures forall n :: n in TypeMap(fields) ==> exists k :: 0 <= k < |fields| && fields[k].name == n
    decreases |fields|
  {
    if |fields| > 0 {
      var init := fields[..|fields| - 1];
      var last := fields[|fields| - 1];
      TypeMapKeys(init);
      assert TypeMap(fields) == TypeMap(init)[last.name := MappedType(last.dbType)];
      forall n | n in TypeMap(fields)
        ensures exists k :: 0 <= k < |fields| && fields[k].name == n
      {
        if n != last.name {
          var k :| 0 <= k < |init| && init[k].name == n;
          assert fields[k] == init[k];
        }
      }
    }
  }

  lemma {:induction false} TypeMapValues(fields: seq<FieldDef>)
    ensures forall k :: 0 <= k < |fields| && (forall j :: k < j < |fields| ==> fields[j].name != fields[k].name) ==>
      TypeMap(fields)[fields[k].name] == MappedType(fields[k].dbType)
    decreases |fields|
  {
    if |fields| > 0 {
      var init := fields[..|fields| - 1];
      var last := fields[|fields| - 1];
      TypeMapValues(init);
      assert TypeMap(fields) == TypeMap(init)[last.name := MappedType(last.dbType)];
      forall k | 0 <= k < |fields| && (forall j :: k < j < |fields| ==> fields[j].name != fields[k].name)
        ensures TypeMap(fields)[fields[k].name] == MappedType(fields[k].dbType)
      {
        if k < |init| {
          assert fields[k] == init[k];
          assert forall j :: k < j < |init| ==> init[j] == fields[j];
        }
      }
    }
  }

  /** $fieldProperties: column name to property name. */
  function PropMap(fields: seq<FieldDef>): (m: map<string, string>)
    ensures forall k :: 0 <= k < |fields| ==> fields[k].name in m
    decreases |fields|
  {
    if |fields| == 0 then map[]
    else
      var last := fields[|fields| - 1];
      assert forall k :: 0 <= k < |fields| - 1 ==> fields[..|fields| - 1][k] == fields[k];
      PropMap(fields[..|fields| - 1])[last.name := PropertyName(last.name)]
  }

  /** Each column's property is the generated name of that column. */
  lemma {:induction false} PropMapNames(fields: seq<FieldDef>)
    ensures forall n :: n in PropMap(fields) ==> PropMap(fields)[n] == PropertyName(n)
    decreases |fields|
  {
    if |fields| > 0 {
      PropMapNames(fields[..|fields| - 1]);
    }
  }

  function Properties(fields: seq<FieldDef>): (r: seq<PropertyDecl>)
    ensures |r| == |fields|
    ensures forall k :: 0 <= k < |fields| ==> r[k] == PropertyDecl(MappedType(fields[k].dbType), PropertyName(fields[k].name))
  {
    seq(|fields|, k requires 0 <= k < |fields| => PropertyDecl(MappedType(fields[k].dbType), PropertyName(fields[k].name)))
  }

  function Assignments(fields: seq<FieldDef>): (r: seq<Assignment>)
    ensures |r| == |fields|
    ensures forall k :: 0 <= k < |fields| ==>
      r[k] == Assignment(PropMap(fields)[fields[k].name], CastOperator(TypeMap(fields)[fields[k].name]), fields[k].name)
  {
    var types := TypeMap(fields);
    var props := PropMap(fields);
    seq(|fields|, k requires 0 <= k < |fields| => Assignment(props[fields[k].name], CastOperator(types[fields[k].name]), fields[k].name))
  }

  function SelectItems(alias: string, fields: seq<FieldDef>): (r: seq<string>)
    ensures |r| == |fields|
    ensures forall k :: 0 <= k < |fields| ==> r[k] == alias + "." + fields[k].name
  {
    seq(|fields|, k requires 0 <= k < |fields| => alias + "." + fields[k].name)
  }

  /** lcfirst as the generator writes it. */
  function LowerFirst(s: string): string
  {
    if |s| == 0 then "" else Lower(s[..1]) + s[1..]
  }

  function StatusFilter(alias: string, status: Option<FieldDef>, keyword: string): string
  {
    if status.Some? then keyword + alias + "." + status.value.name + "=1" else ""
  }

  function ListSql(alias: string, status: Option<FieldDef>, order: Option<FieldDef>): string
  {
    StatusFilter(alias, status, " WHERE ") + (if order.Some? then " ORDER BY " + alias + "." + order.value.name else "")
  }

  function ByIdOf(fields: seq<FieldDef>, alias: string, status: Option<FieldDef>): Option<ByIdGetter>
  {
    var pks := PkFields(fields);
    if |pks| != 1 then None
    else
      var idField := pks[0].name;
      assert pks[0] in fields;
      var idType := TypeMap(fields)[idField];
      var paramType := if idType in {"int", "string"} then idType else "mixed";
      Some(ByIdGetter(idField, paramType, if paramType == "int" then "(int) " else "",
        LowerFirst(PropMap(fields)[idField]),
        " WHERE " + alias + "." + idField + "=?" + StatusFilter(alias, status, " AND ")))
  }

  /** The Set calls of the update method: every column but the key, in order. */
  function SetCalls(fields: seq<FieldDef>, idField: string): (r: seq<SetCall>)
    decreases |fields|
  {
    if |fields| == 0 then []
    else
      var init := SetCalls(fields[..|fields| - 1], idField);
      var last := fields[|fields| - 1];
      if last.name != idField then init + [SetCall(last.name, PropertyName(last.name))] else init
  }

  function UpdateOf(fields: seq<FieldDef>): Option<UpdateMethod>
  {
    var pks := PkFields(fields);
    if |pks| != 1 then None
    else Some(UpdateMethod(pks[0].name, PropertyName(pks[0].name), SetCalls(fields, pks[0].name)))
  }

  /** What generateTableCodeClass decides for a table, its class name and its
      columns. */
  function PlanOf(tableName: string, className: string, fields: seq<FieldDef>): ClassPlan
  {
    var alias := TableAlias(tableName);
    var status := FirstMatch(fields, IsStatusName);
    var order := FirstMatch(fields, IsOrderName);
    ClassPlan(className, tableName, Properties(fields), Assignments(fields), alias, Join(",", SelectItems(alias, fields)),
      ByIdOf(fields, alias, status), ListSql(alias, status, order), UpdateOf(fields))
  }

  lemma FieldMapsStep(fields: seq<FieldDef>, i: nat)
    requires i < |fields|
    ensures TypeMap(fields[..i + 1]) == TypeMap(fields[..i])[fields[i].name := MappedType(fields[i].dbType)]
    ensures PropMap(fields[..i + 1]) == PropMap(fields[..i])[fields[i].name := PropertyName(fields[i].name)]
  {
    assert fields[..i + 1][..i] == fields[..i];
  }

  lemma PropertiesStep(fields: seq<FieldDef>, i: nat)
    requires i < |fields|
    ensures Properties(fields[..i + 1]) == Properties(fields[..i]) + [PropertyDecl(MappedType(fields[i].dbType), PropertyName(fields[i].name))]
  {
    var next := Properties(fields[..i]) + [PropertyDecl(MappedType(fields[i].dbType), PropertyName(fields[i].name))];
    assert forall k :: 0 <= k < i + 1 ==> Properties(fields[..i + 1])[k] == next[k];
  }

  /** The first loop of generateTableCodeClass: property declarations, and the
      column-to-type and column-to-property maps. */
  method DeclareProperties(fields: seq<FieldDef>)
    returns (fieldTypes: map<string, string>, fieldProperties: map<string, string>, properties: seq<PropertyDecl>)
    ensures fieldTypes == TypeMap(fields) && fieldProperties == PropMap(fields)
    ensures properties == Properties(fields)
  {
    fieldTypes := map[];
    fieldProperties := map[];
    properties := [];
    var i := 0;
    while i < |fields|
      invariant 0 <= i <= |fields|
      invariant fieldTypes == TypeMap(fields[..i])
      invariant fieldProperties == PropMap(fields[..i])
      invariant properties == Properties(fields[..i])
    {
      var field := fields[i];
      var typeName := MappedType(field.dbType);
      fieldTypes := fieldTypes[field.name := typeName];
      var propName := GeneratePropertyName(field.name);
      fieldProperties := fieldProperties[field.name := propName];
      properties := properties + [PropertyDecl(typeName, propName)];
      FieldMapsStep(fields, i);
      PropertiesStep(fields, i);
      i := i + 1;
    }
    assert fields[..i] == fields;
  }

  /** The constructor: one assignment per column, cast by the column's type. */
  method ConstructorAssignments(fields: seq<FieldDef>, fieldTypes: map<string, string>, fieldProperties: map<string, string>)
    returns (assignments: seq<Assignment>)
    requires fieldTypes == TypeMap(fields) && fieldProperties == PropMap(fields)
    ensures assignments == Assignments(fields)
  {
    assignments := [];
    var i := 0;
    while i < |fields|
      invariant 0 <= i <= |fields|
      invariant assignments == Assignments(fields)[..i]
    {
      var field := fields[i];
      AssignmentAt(fields, i);
      var typeName := fieldTypes[field.name];
      var propName := fieldProperties[field.name];
      var castOperator := CastOperator(typeName);
      assignments := assignments + [Assignment(propName, castOperator, field.name)];
      i := i + 1;
    }
  }

  lemma AssignmentAt(fields: seq<FieldDef>, i: nat)
    requires i < |fields|
    ensures fields[i].name in TypeMap(fields) && fields[i].name in PropMap(fields)
    ensures Assignments(fields)[..i + 1] == Assignments(fields)[..i]
      + [Assignment(PropMap(fields)[fields[i].name], CastOperator(TypeMap(fields)[fields[i].name]), fields[i].name)]
  {
    SliceExtend(Assignments(fields), i);
  }

  lemma SliceExtend<T>(s: seq<T>, i: nat)
    requires i < |s|
    ensures s[..i + 1] == s[..i] + [s[i]]
  {
  }

  /** The scan for the select list, the key columns and the first status and order
      columns. */
  method ScanFields(fields: seq<FieldDef>, tableAlias: string)
    returns (defaultSelectList: seq<string>, pkFields: seq<FieldDef>, statusField: Option<FieldDef>, orderField: Option<FieldDef>)
    ensures defaultSelectList == SelectItems(tableAlias, fields)
    ensures pkFields == PkFields(fields)
    ensures statusField == FirstMatch(fields, IsStatusName)
    ensures orderField == FirstMatch(fields, IsOrderName)
  {
    defaultSelectList := [];
    pkFields := [];
    statusField := None;
    orderField := None;
    var i := 0;
    while i < |fields|
      invariant 0 <= i <= |fields|
      invariant defaultSelectList == SelectItems(tableAlias, fields[..i])
      invariant pkFields == PkFields(fields[..i])
      invariant statusField == FirstMatch(fields[..i], IsStatusName)
      invariant orderField == FirstMatch(fields[..i], IsOrderName)
    {
      var field := fields[i];
      ScanStep(fields, i);
      SelectItemsStep(tableAlias, fields, i);
      defaultSelectList := defaultSelectList + [tableAlias + "." + field.name];
      if field.primaryKey {
        pkFields := pkFields + [field];
      }
      if statusField.None? && IsStatusName(field.name) {
        statusField := Some(field);
      }
      if orderField.None? && IsOrderName(field.name) {
        orderField := Some(field);
      }
      i := i + 1;
    }
    assert fields[..i] == fields;
  }

  lemma ScanStep(fields: seq<FieldDef>, i: nat)
    requires i < |fields|
    ensures PkFields(fields[..i + 1]) == PkFields(fields[..i]) + (if fields[i].primaryKey then [fields[i]] else [])
    ensures FirstMatch(fields[..i + 1], IsStatusName) ==
      if FirstMatch(fields[..i], IsStatusName).None? && IsStatusName(fields[i].name) then Some(fields[i]) else FirstMatch(fields[..i], IsStatusName)
    ensures FirstMatch(fields[..i + 1], IsOrderName) ==
      if FirstMatch(fields[..i], IsOrderName).None? && IsOrderName(fields[i].name) then Some(fields[i]) else FirstMatch(fields[..i], IsOrderName)
  {
    var prefix := fields[..i + 1];
    assert prefix[..i] == fields[..i];
    assert prefix[i] == fields[i];
  }

  lemma SelectItemsStep(alias: string, fields: seq<FieldDef>, i: nat)
    requires i < |fields|
    ensures SelectItems(alias, fields[..i + 1]) == SelectItems(alias, fields[..i]) + [alias + "." + fields[i].name]
  {
    var next := SelectItems(alias, fields[..i]) + [alias + "." + fields[i].name];
    assert forall k :: 0 <= k < i + 1 ==> SelectItems(alias, fields[..i + 1])[k] == next[k];
  }

  /** The update method's Set calls: every column but the key. */
  method UpdateSets(fields: seq<FieldDef>, idFieldName: string, fieldProperties: map<string, string>) returns (sets: seq<SetCall>)
    requires fieldProperties == PropMap(fields)
    ensures sets == SetCalls(fields, idFieldName)
  {
    PropMapNames(fields);
    sets := [];
    var i := 0;
    while i < |fields|
      invariant 0 <= i <= |fields|
      invariant sets == SetCalls(fields[..i], idFieldName)
    {
      var field := fields[i];
      assert fields[..i + 1][..i] == fields[..i];
      if field.name != idFieldName {
        sets := sets + [SetCall(field.name, fieldProperties[field.name])];
      }
      i := i + 1;
    }
    assert fields[..i] == fields;
  }

  /** The by-ID getter: only for a single key column; its parameter is typed
      int or string when the column maps to one of them, and the status column,
      when there is one, narrows the query. */
  method ByIdGetterFor(fields: seq<FieldDef>, fieldTypes: map<string, string>, fieldProperties: map<string, string>,
                       pkFields: seq<FieldDef>, tableAlias: string, statusField: Option<FieldDef>)
    returns (byId: Option<ByIdGetter>)
    requires fieldTypes == TypeMap(fields) && fieldProperties == PropMap(fields)
    requires pkFields == PkFields(fields)
    ensures byId == ByIdOf(fields, tableAlias, statusField)
  {
    byId := None;
    if |pkFields| == 1 {
      var idFieldName := pkFields[0].name;
      assert pkFields[0] in fields;
      PropMapNames(fields);
      var idFieldType := fieldTypes[idFieldName];
      var idFieldTypeMapped := if idFieldType in {"int", "string"} then idFieldType else "mixed";
      var idParamCast := if idFieldTypeMapped == "int" then "(int) " else "";
      var idFieldParam := LowerFirst(fieldProperties[idFieldName]);
      var extraSql := if statusField.None? then "" else " AND " + tableAlias + "." + statusField.value.name + "=1";
      byId := Some(ByIdGetter(idFieldName, idFieldTypeMapped, idParamCast, idFieldParam,
        " WHERE " + tableAlias + "." + idFieldName + "=?" + extraSql));
    }
  }

  /** The list query's filter and order: the status column when there is one,
      then the order column when there is one. */
  method ListQuerySql(tableAlias: string, statusField: Option<FieldDef>, orderField: Option<FieldDef>) returns (listSql: string)
    ensures listSql == ListSql(tableAlias, statusField, orderField)
  {
    listSql := "";
    if statusField.Some? {
      listSql := listSql + " WHERE " + tableAlias + "." + statusField.value.name + "=1";
      assert listSql == " WHERE " + tableAlias + "." + statusField.value.name + "=1";
    }
    ghost var filter := listSql;
    assert filter == StatusFilter(tableAlias, statusField, " WHERE ");
    if orderField.Some? {
      var orderPart := " ORDER BY " + tableAlias + "." + orderField.value.name;
      listSql := listSql + orderPart;
    }
    assert listSql == filter + (if orderField.Some? then " ORDER BY " + tableAlias + "." + orderField.value.name else "");
  }

  /** The update method: only for a single key column. */
  method UpdateMethodFor(fields: seq<FieldDef>, fieldProperties: map<string, string>, pkFields: seq<FieldDef>)
    returns (update: Option<UpdateMethod>)
    requires fieldProperties == PropMap(fields)
    requires pkFields == PkFields(fields)
    ensures update == UpdateOf(fields)
  {
    update := None;
    if |pkFields| == 1 {
      var idFieldName := pkFields[0].name;
      assert pkFields[0] in fields;
      PropMapNames(fields);
      var sets := UpdateSets(fields, idFieldName, fieldProperties);
      update := Some(UpdateMethod(idFieldName, fieldProperties[idFieldName], sets));
    }
  }

  method GenerateTableCodeClass(tableName: string, className: string, fields: seq<FieldDef>) returns (plan: ClassPlan)
    ensures plan == PlanOf(tableName, className, fields)
  {
    var fieldTypes, fieldProperties, properties := DeclareProperties(fields);
    var assignments := ConstructorAssignments(fields, fieldTypes, fieldProperties);
    var tableAlias := GenerateTableAlias(tableName);
    var defaultSelectList, pkFields, statusField, orderField := ScanFields(fields, tableAlias);
    var selectList := Join(",", defaultSelectList);
    var byId := ByIdGetterFor(fields, fieldTypes, fieldProperties, pkFields, tableAlias, statusField);
    var listSql := ListQuerySql(tableAlias, statusField, orderField);
    var update := UpdateMethodFor(fields, fieldProperties, pkFields);
    plan := ClassPlan(className, tableName, properties, assignments, tableAlias, selectList, byId, listSql, update);
  }

  /** The Set calls cover every column except the key, in column order. */
  lemma {:induction false} SetCallsSkipKey(fields: seq<FieldDef>, idField: string)
    ensures forall c :: c in SetCalls(fields, idField) ==> c.column != idField && c.propName == PropertyName(c.column)
    ensures |SetCalls(fields, idField)| == |fields| - CountNamed(fields, idField)
    decreases |fields|
  {
    if |fields| > 0 {
      SetCallsSkipKey(fields[..|fields| - 1], idField);
    }
  }

  /** The number of columns with the given name. */
  function CountNamed(fields: seq<FieldDef>, name: string): (n: nat)
    ensures n <= |fields|
    decreases |fields|
  {
    if |fields| == 0 then 0
    else CountNamed(fields[..|fields| - 1], name) + (if fields[|fields| - 1].name == name then 1 else 0)
  }

  /** The class declares one property per column, named after the column and typed
      by the column's type, and its constructor assigns each column to that
      property; when column names are distinct, with the cast of the column's own
      type. */
  lemma PlanColumns(tableName: string, className: string, fields: seq<FieldDef>)
    ensures var plan := PlanOf(tableName, className, fields);
      |plan.properties| == |fields| && |plan.assignments| == |fields|
      && forall k :: 0 <= k < |fields| ==>
        plan.properties[k] == PropertyDecl(MappedType(fields[k].dbType), PropertyName(fields[k].name))
        && plan.assignments[k].column == fields[k].name
        && plan.assignments[k].propName == PropertyName(fields[k].name)
    ensures var plan := PlanOf(tableName, className, fields);
      (forall i, j :: 0 <= i < j < |fields| ==> fields[i].name != fields[j].name) ==>
        forall k :: 0 <= k < |fields| ==> plan.assignments[k].cast == CastOperator(MappedType(fields[k].dbType))
  {
    PropMapNames(fields);
    TypeMapLastWins(fields);
  }

  /** The by-ID getter and the update method exist together, exactly when the
      table has a single key column; the update sets every other column, and the
      status column, when there is one, filters both the getter and the list. */
  lemma PlanChoices(tableName: string, className: string, fields: seq<FieldDef>)
    ensures var plan := PlanOf(tableName, className, fields);
      (plan.byId.Some? <==> |PkFields(fields)| == 1) && (plan.update.Some? <==> |PkFields(fields)| == 1)
    ensures var plan := PlanOf(tableName, className, fields);
      plan.update.Some? ==>
        plan.update.value.idField == plan.byId.value.idField
        && (forall c :: c in plan.update.value.sets ==> c.column != plan.update.value.idField)
        && |plan.update.value.sets| == |fields| - CountNamed(fields, plan.update.value.idField)
    ensures var plan := PlanOf(tableName, className, fields);
      var status := FirstMatch(fields, IsStatusName);
      status.Some? ==>
        IsPrefix(" WHERE " + plan.alias + "." + status.value.name + "=1", plan.listSql)
        && (plan.byId.Some? ==> IsSuffix(" AND " + plan.alias + "." + status.value.name + "=1", plan.byId.value.whereSql))
  {
    var plan := PlanOf(tableName, className, fields);
    if plan.update.Some? {
      SetCallsSkipKey(fields, plan.update.value.idField);
    }
  }
}
