# gift-sender query layer, in Dafny

This project models the data-access core of the gift-sender PHP application, together with the small business objects built on it.

- **UpdateDataQuery** builds INSERT, UPDATE and DELETE statements. It keeps ordered lists of WHERE specifications and SET operations and refuses misuse: WHERE on an INSERT, SET on a DELETE.
- **GetGenericWhereClause** compiles the WHERE specifications. SelectExtendedDataQuery, a fluent SELECT builder, reuses it.
- **SelectDataQuery** holds a command, its parameters and a paging window, and delegates its getters to the data source.
- **MySQLDataSource** is the MySQL data source:
  - identifier and value escaping;
  - bind-marker substitution;
  - LIMIT/OFFSET suffixes;
  - the lazy connection state (`$db`, `loadDatabaseCalled`);
  - select error classification into fatal and non-fatal DBOperationExceptions;
  - the record and result readers;
  - update execution.
- **Value types:** UpdateQueryResult, OperationResult, DBOperationException and SetValueOperation.
- **BaseCacheConnector** provides cache-key mapping and the read-through, local-cache and simple-data policies. The cache is an abstract key-value map.
- **DataClassGenerator** derives property names and table aliases, maps types and casts, and makes the choices that depend on the primary key.
- **JSONConvertibleTrait** serializes properties that differ from their defaults, reads properties from arrays, and builds object arrays.
- **UserInfo, UserGift and SessionProfile.TryAuthenticate** are modelled as the queries they build and run.

## How the model is organised

The data-source escaping capability is a record of three functions, `DataSources.DataSource`. The MySQL data source offers one instance of it, `MySqlDialect.Dialect`.

mysqli and the server behind it are a parameter, `MySql.Server`. It gives:
- how the n-th connection attempt ends;
- the answer to the n-th query sent;
- whether closing or pinging succeeds;
- `real_escape_string`.

Objects whose fields the PHP code updates in place are classes:
- the builders;
- the data source;
- the cache connector;
- the JSON-convertible object;
- the user, gift and session objects.

Each class's state is summarised by a function (`Descriptor()`, `Parts()`, `State()`, `Data()`). Each method states its new state and result through a specification function of the old state. Lemmas about those functions carry the properties. Loops in the source are `while` loops proved equal to their specification functions.

PHP values are `PhpValues.Value`: null, booleans, integers, strings, and arrays as ordered key/value lists. An object is represented by its property array.

## Model

| member | source | states |
|---|---|---|
| QueryExecution.ObjectOf | application/classes/DB/SelectDataQuery.php:144-154 | an object exactly when the record is a non-empty array, built from that record |
| QueryExecution.GetRecordset | application/classes/DB/SelectDataQuery.php:106-109 | the data source runs the paged SQL with the parameters; its new state and the rows are those of the select |
| QueryExecution.GetRecord | application/classes/DB/SelectDataQuery.php:118-121 | as GetRecordset, yielding the first row or null |
| QueryExecution.GetResult | application/classes/DB/SelectDataQuery.php:130-133 | as GetRecordset, yielding the first column of the first row or the default |
| QueryExecution.GetObject | application/classes/DB/SelectDataQuery.php:144-154 | as GetRecord, yielding the object of the record when there is one |
| QueryExecution.GetObjectSet | application/classes/DB/SelectDataQuery.php:163-180 | as GetRecordset, yielding the rows mapped one by one, in order, to objects built from them |
| QueryExecution.ObjectPresentIff | application/classes/DB/SelectDataQuery.php:144-154 | an object is returned exactly when the select produced a first row with at least one column |
| QueryExecution.ExecuteUpdate | application/classes/DB/UpdateDataQuery.php:558-561 | the data source's new state and the result are those of ExecuteUpdateQuery on the query's state |
| QueryExecution.GetRecordsetExtended | application/classes/DB/SelectExtendedDataQuery.php:377-380 | the assembled SQL is run without parameters; state and rows are those of the select |
| QueryExecution.GetRecordExtended | application/classes/DB/SelectExtendedDataQuery.php:389-392 | as GetRecordsetExtended, yielding the first row or null |
| QueryExecution.GetResultExtended | application/classes/DB/SelectExtendedDataQuery.php:401-404 | as GetRecordsetExtended, yielding the first column of the first row or the default |
| QueryExecution.GetObjectExtended | application/classes/DB/SelectExtendedDataQuery.php:415-418 | as GetRecordExtended, yielding the object of the record |
| QueryExecution.GetObjectSetExtended | application/classes/DB/SelectExtendedDataQuery.php:427-430 | as GetRecordsetExtended, yielding one object per row |
| SelectQueries.SelectDataQuery.constructor | application/classes/DB/SelectDataQuery.php:39-47 | the query holds the command, parameters, offset and limit given |
| SelectQueries.SelectDataQuery.Create | application/classes/DB/SelectDataQuery.php:59-64 | a new query holding the command, parameters, offset and limit given |
| SelectQueries.SelectDataQuery.AddParameter | application/classes/DB/SelectDataQuery.php:73-79 | appends one parameter; command and window are unchanged |
| SelectQueries.SelectDataQuery.SetLimit | application/classes/DB/SelectDataQuery.php:90-97 | replaces offset and limit; command and parameters are unchanged |
| SelectBuilders.NormalizeJoinType | application/classes/DB/SelectExtendedDataQuery.php:141-150 | always a supported join keyword: the trimmed upper-cased request when it is supported, INNER otherwise |
| SelectBuilders.NormalizeJoinTypeIdempotent | application/classes/DB/SelectExtendedDataQuery.php:141-150 | normalising a normalised join type changes nothing |
| SelectBuilders.NormalizePaddedJoinType | application/classes/DB/SelectExtendedDataQuery.php:141-150 | a join type in any letter case, padded with trimmed characters, normalizes to its upper-case form |
| SelectBuilders.SelectSqlAgreesIff | application/classes/DB/SelectExtendedDataQuery.php:342-368 | the SQL as written equals the corrected SQL exactly when no WHERE specification was registered or the clause is not empty |
| SelectBuilders.DanglingWhere | application/classes/DB/SelectExtendedDataQuery.php:351-355 | a query filtered only by NOT IN over an empty list ends in " WHERE " as written; the corrected SQL has no WHERE part |
| SelectBuilders.SelectWherePart | application/classes/DB/SelectExtendedDataQuery.php:342-368 | in the corrected SQL, filters yielding no conjunct act as no filter, and a non-empty clause follows the FROM list after WHERE |
| SelectBuilders.DistinctPlacement | application/classes/DB/SelectExtendedDataQuery.php:342-368 | DISTINCT follows SELECT exactly when Distinct() was called, and the select list comes next |
| SelectBuilders.SelectExtendedDataQuery.constructor | application/classes/DB/SelectExtendedDataQuery.php:62-82 | each non-empty part given starts its list; no filter, no window, not distinct |
| SelectBuilders.SelectExtendedDataQuery.Create | application/classes/DB/SelectExtendedDataQuery.php:92-94 | a new builder with the given select list and FROM item |
| SelectBuilders.SelectExtendedDataQuery.Select | application/classes/DB/SelectExtendedDataQuery.php:102-107 | appends a select item; nothing else changes |
| SelectBuilders.SelectExtendedDataQuery.Distinct | application/classes/DB/SelectExtendedDataQuery.php:113-118 | sets the distinct flag; nothing else changes |
| SelectBuilders.SelectExtendedDataQuery.From | application/classes/DB/SelectExtendedDataQuery.php:126-131 | appends a FROM item; nothing else changes |
| SelectBuilders.SelectExtendedDataQuery.Join | application/classes/DB/SelectExtendedDataQuery.php:141-150 | appends "<TYPE> JOIN <table> ON <fields>" to the FROM items |
| SelectBuilders.SelectExtendedDataQuery.WhereInternal | application/classes/DB/SelectExtendedDataQuery.php:161-167 | appends a WHERE specification, never refused |
| SelectBuilders.SelectExtendedDataQuery.Where | application/classes/DB/SelectExtendedDataQuery.php:177-179 | appends a value comparison |
| SelectBuilders.SelectExtendedDataQuery.WhereExpression | application/classes/DB/SelectExtendedDataQuery.php:189-191 | appends an expression comparison |
| SelectBuilders.SelectExtendedDataQuery.WhereCustom | application/classes/DB/SelectExtendedDataQuery.php:198-200 | appends a custom clause |
| SelectBuilders.SelectExtendedDataQuery.WhereNull | application/classes/DB/SelectExtendedDataQuery.php:208-210 | appends an equality with null |
| SelectBuilders.SelectExtendedDataQuery.WhereNotNull | application/classes/DB/SelectExtendedDataQuery.php:218-220 | appends an inequality with null |
| SelectBuilders.SelectExtendedDataQuery.WhereIn | application/classes/DB/SelectExtendedDataQuery.php:229-231 | appends an IN list |
| SelectBuilders.SelectExtendedDataQuery.WhereNotIn | application/classes/DB/SelectExtendedDataQuery.php:240-242 | appends a NOT IN list |
| SelectBuilders.SelectExtendedDataQuery.WhereLike | application/classes/DB/SelectExtendedDataQuery.php:251-253 | appends a LIKE pattern |
| SelectBuilders.SelectExtendedDataQuery.WhereNotLike | application/classes/DB/SelectExtendedDataQuery.php:262-264 | appends a NOT LIKE pattern |
| SelectBuilders.SelectExtendedDataQuery.WhereExists | application/classes/DB/SelectExtendedDataQuery.php:272-274 | appends an EXISTS subquery |
| SelectBuilders.SelectExtendedDataQuery.WhereNotExists | application/classes/DB/SelectExtendedDataQuery.php:282-284 | appends a NOT EXISTS subquery |
| SelectBuilders.SelectExtendedDataQuery.GroupBy | application/classes/DB/SelectExtendedDataQuery.php:292-297 | appends a GROUP BY item |
| SelectBuilders.SelectExtendedDataQuery.OrderBy | application/classes/DB/SelectExtendedDataQuery.php:305-310 | appends an ORDER BY item |
| SelectBuilders.SelectExtendedDataQuery.SetLimit | application/classes/DB/SelectExtendedDataQuery.php:320-326 | replaces offset and limit |
| SelectBuilders.SelectExtendedDataQuery.GetLimit | application/classes/DB/SelectExtendedDataQuery.php:332-334 | the current limit |
| SelectBuilders.SelectExtendedDataQuery.GetSelectDataQuery | application/classes/DB/SelectExtendedDataQuery.php:342-368 | a new plain query with the corrected SQL, no parameters and this builder's window |
| WhereClauses.GetGenericWhereClause | application/classes/DB/UpdateDataQuery.php:392-469 | the loop computes the conjuncts of all specifications joined by " AND ", or ""; an IN list is the values escaped one by one, in order |
| WhereClauses.FragmentsAppend | application/classes/DB/UpdateDataQuery.php:396-468 | the conjuncts of two lists are those of the first followed by those of the second |
| WhereClauses.WhereClauseExtend | application/classes/DB/UpdateDataQuery.php:396-468 | one more specification leaves the clause as it was or adds exactly one " AND " conjunct (or starts the clause) |
| WhereClauses.NullComparisonNotEscaped | application/classes/DB/UpdateDataQuery.php:408-415 | a null comparison is written IS NULL / IS NOT NULL and never goes through value escaping |
| WhereClauses.EmptyInList | application/classes/DB/UpdateDataQuery.php:430-443 | IN over nothing is the false clause 0=1; NOT IN over nothing drops out |
| WhereClauses.UnknownKindIgnored | application/classes/DB/UpdateDataQuery.php:398-461 | a specification of an unknown kind contributes nothing |
| UpdateQueries.BuildersKeepConsistent | application/classes/DB/UpdateDataQuery.php:116-156 | every builder keeps an INSERT free of WHERE clauses and a DELETE free of SET clauses, and a builder that throws changes nothing |
| UpdateQueries.WhereMultiIsRepeatedWhere | application/classes/DB/UpdateDataQuery.php:148-156 | WhereMulti adds the entries one by one as Where would, stopping at the first that throws |
| UpdateQueries.SetMultiIsRepeatedSet | application/classes/DB/UpdateDataQuery.php:314-322 | SetMulti adds the entries one by one as Set would, stopping at the first that throws |
| UpdateQueries.AssignmentsPairColumnsWithValues | application/classes/DB/UpdateDataQuery.php:487-492 | each UPDATE assignment is the escaped column, "=", and the value of the same SET operation |
| UpdateQueries.SqlForType | application/classes/DB/UpdateDataQuery.php:534-549 | a statement exactly for INSERT, UPDATE and DELETE, beginning with that keyword; any other type throws "Invalid query type: <type>" |
| UpdateQueries.NoWhereMeansWholeTable | application/classes/DB/UpdateDataQuery.php:488-525 | an UPDATE or DELETE without WHERE specifications has no WHERE part at all |
| UpdateQueries.InsertPairsColumnsWithValues | application/classes/DB/UpdateDataQuery.php:366-382 | the INSERT's column list and value list grow together, one field and its value per SET clause |
| UpdateQueries.UpdateDataQuery.constructor | application/classes/DB/UpdateDataQuery.php:55-59 | a query of the given type and table with no clauses and no key value |
| UpdateQueries.UpdateDataQuery.Create | application/classes/DB/UpdateDataQuery.php:68-71 | a new query of the given type and table with no clauses |
| UpdateQueries.UpdateDataQuery.CreateInsert | application/classes/DB/UpdateDataQuery.php:79-82 | a new INSERT query with no clauses |
| UpdateQueries.UpdateDataQuery.CreateUpdate | application/classes/DB/UpdateDataQuery.php:90-93 | a new UPDATE query with no clauses |
| UpdateQueries.UpdateDataQuery.CreateDelete | application/classes/DB/UpdateDataQuery.php:101-104 | a new DELETE query with no clauses |
| UpdateQueries.UpdateDataQuery.WhereInternal | application/classes/DB/UpdateDataQuery.php:116-128 | appends the WHERE specification for UPDATE and DELETE; any other type throws a DomainException and nothing changes |
| UpdateQueries.UpdateDataQuery.Where | application/classes/DB/UpdateDataQuery.php:138-141 | WhereInternal with a value comparison |
| UpdateQueries.UpdateDataQuery.WhereMulti | application/classes/DB/UpdateDataQuery.php:148-156 | a non-array throws InvalidArgumentException; otherwise one equality per entry, refused on the first entry for a type without WHERE |
| UpdateQueries.UpdateDataQuery.WhereKey | application/classes/DB/UpdateDataQuery.php:165-169 | records the key value, even when the equality is then refused |
| UpdateQueries.UpdateDataQuery.WhereExpression | application/classes/DB/UpdateDataQuery.php:179-182 | WhereInternal with an expression comparison |
| UpdateQueries.UpdateDataQuery.WhereNull | application/classes/DB/UpdateDataQuery.php:190-193 | WhereInternal with an equality with null |
| UpdateQueries.UpdateDataQuery.WhereNotNull | application/classes/DB/UpdateDataQuery.php:201-204 | WhereInternal with an inequality with null |
| UpdateQueries.UpdateDataQuery.WhereIn | application/classes/DB/UpdateDataQuery.php:213-216 | WhereInternal with an IN list |
| UpdateQueries.UpdateDataQuery.WhereNotIn | application/classes/DB/UpdateDataQuery.php:225-228 | WhereInternal with a NOT IN list |
| UpdateQueries.UpdateDataQuery.WhereLike | application/classes/DB/UpdateDataQuery.php:237-240 | WhereInternal with a LIKE pattern |
| UpdateQueries.UpdateDataQuery.WhereNotLike | application/classes/DB/UpdateDataQuery.php:249-252 | WhereInternal with a NOT LIKE pattern |
| UpdateQueries.UpdateDataQuery.WhereExists | application/classes/DB/UpdateDataQuery.php:260-263 | WhereInternal with an EXISTS subquery |
| UpdateQueries.UpdateDataQuery.WhereNotExists | application/classes/DB/UpdateDataQuery.php:271-274 | WhereInternal with a NOT EXISTS subquery |
| UpdateQueries.UpdateDataQuery.SetInternal | application/classes/DB/UpdateDataQuery.php:284-295 | appends the SET clause for INSERT and UPDATE; any other type throws a DomainException and nothing changes |
| UpdateQueries.UpdateDataQuery.Set | application/classes/DB/UpdateDataQuery.php:304-307 | SetInternal with a plain value |
| UpdateQueries.UpdateDataQuery.SetMulti | application/classes/DB/UpdateDataQuery.php:314-322 | a non-array throws InvalidArgumentException; otherwise one plain SET per entry, refused on the first entry for a type without SET |
| UpdateQueries.UpdateDataQuery.SetKey | application/classes/DB/UpdateDataQuery.php:331-335 | records the key value, even when the SET is then refused |
| UpdateQueries.UpdateDataQuery.SetExpression | application/classes/DB/UpdateDataQuery.php:344-347 | SetInternal with an expression |
| UpdateQueries.UpdateDataQuery.SetNull | application/classes/DB/UpdateDataQuery.php:355-358 | SetInternal with null |
| UpdateQueries.UpdateDataQuery.InsertSql | application/classes/DB/UpdateDataQuery.php:366-382 | the loop builds the INSERT whose column and value lists pair each SET clause's field with its value |
| UpdateQueries.UpdateDataQuery.UpdateSql | application/classes/DB/UpdateDataQuery.php:488-507 | the loop builds the UPDATE with every assignment and the WHERE part only when the clause is not empty |
| UpdateQueries.UpdateDataQuery.DeleteSql | application/classes/DB/UpdateDataQuery.php:515-525 | the DELETE with the WHERE part only when the clause is not empty |
| UpdateQueries.UpdateDataQuery.SqlByCurrentType | application/classes/DB/UpdateDataQuery.php:534-549 | the statement SqlForType gives for the query's type |
| MySqlDialect.EscapeIdentifier | application/classes/DB/MySQLDataSource.php:237-243 | the result starts with a backtick: a name already starting with one is kept, any other is wrapped in backticks |
| MySqlDialect.EscapeIdentifierIdempotent | application/classes/DB/MySQLDataSource.php:237-243 | quoting a quoted identifier changes nothing |
| MySqlDialect.EscapeValue | application/classes/DB/MySQLDataSource.php:252-265 | NULL for null; a string becomes its real_escape_string form in single quotes; a boolean 0 or 1; anything else its (string) conversion |
| MySqlDialect.NullDistinctFromString | application/classes/DB/MySQLDataSource.php:252-265 | no string value, not even "NULL", renders like a null value |
| MySqlDialect.Dialect | application/classes/DB/MySQLDataSource.php:237-277 | the builders see the MySQL identifier and value escaping, and GetOperator as the identity |
| MySqlDialect.MySqlFragmentSubstantial | application/classes/DB/UpdateDataQuery.php:396-461 | with escaped field names no conjunct is "" or "0" |
| MySqlDialect.MySqlFragmentsSubstantial | application/classes/DB/UpdateDataQuery.php:396-461 | every conjunct of a list is substantial |
| MySqlDialect.MySqlWhereEmptyIff | application/classes/DB/UpdateDataQuery.php:502-520 | under MySQL the !empty test on the WHERE clause holds exactly when some specification contributed a conjunct |
| MySqlDialect.UsedBinds | application/classes/DB/MySQLDataSource.php:313-316 | exactly the first min(number of binds, number of markers) binds are used, in order |
| MySqlDialect.CompileBinds | application/classes/DB/MySQLDataSource.php:303-328 | the loop computes the corrected substitution: each bind escaped one by one, in order, replaces its marker |
| MySqlDialect.InterleaveMarkers | application/classes/DB/MySQLDataSource.php:319-327 | rendering every bind as the marker itself rebuilds the text |
| MySqlDialect.CompileBindsFixedKeepsText | application/classes/DB/MySQLDataSource.php:303-328 | corrected substitution loses no text: with every bind rendered as "?" the SQL comes back unchanged, for any number of binds |
| MySqlDialect.SurplusBindsIgnored | application/classes/DB/MySQLDataSource.php:313-316 | binds beyond the number of markers are ignored |
| MySqlDialect.OneMarkerBound | application/classes/DB/MySQLDataSource.php:303-328 | one marker is filled by the first bind |
| MySqlDialect.TwoMarkersBound | application/classes/DB/MySQLDataSource.php:303-328 | two markers are filled by the first two binds in order |
| MySqlDialect.ThreeMarkersBound | application/classes/DB/MySQLDataSource.php:303-328 | three markers are filled by the first three binds in order |
| MySqlDialect.AsWrittenAgreesWhenEnoughBinds | application/classes/DB/MySQLDataSource.php:303-328 | when every marker has a bind, the code as written and the corrected substitution agree |
| MySqlDialect.CompileBindsAsWrittenDropsTail | application/classes/DB/MySQLDataSource.php:303-328 | as written, "?,?" with one bind rendered as "?" gives "?,"; the corrected substitution keeps "?,?" |
| MySqlDialect.PagedSql | application/classes/DB/MySQLDataSource.php:379-387 | the command, then " LIMIT n" when the limit is not negative, then " OFFSET m" when the offset is not negative |
| MySql.CreatedOptionsDebugInfo | application/classes/DB/MySQLDataSource.php:66-125 | the options CreateDataSource builds always yield "server:<host>" and "<user>@<host>:<database>" as debug texts |
| MySql.OptionsLookups | application/classes/DB/MySQLDataSource.php:66-78 | the built options hold the host, user and database under their keys |
| MySql.LoadException | application/classes/DB/MySQLDataSource.php:134-139 | a fatal DBOperationException whose message ends with the server text and whose additional data is the connection text |
| MySql.ErrorMessageOf | application/classes/DB/MySQLDataSource.php:291-293 | null exactly when there is no connection object, otherwise the last error text |
| MySql.SelectExceptionFatalIff | application/classes/DB/MySQLDataSource.php:335-344 | fatal exactly for the lost-connection errors, which alone carry the connection report; any other error quotes the failed SQL |
| MySql.LoadRunSettled | application/classes/DB/MySQLDataSource.php:148-183 | once LoadDatabase has run, further loads change nothing |
| MySql.AtMostOneConnectAttempt | application/classes/DB/MySQLDataSource.php:148-183 | any run of loads makes at most one connection attempt, and none once LoadDatabase has run |
| MySql.LoadOnceSuffices | application/classes/DB/MySQLDataSource.php:148-183 | after a load that produced a connection, a second load changes nothing and reports it again |
| MySql.CheckedLoadConnects | application/classes/DB/MySQLDataSource.php:148-183 | a load with the recursion check either throws or yields a connection |
| MySql.ConnectResetsLastQuery | application/classes/DB/MySQLDataSource.php:148-183 | a new connection has an empty error and insert id 0; a setup failure keeps the error it raised; no connection has no error message |
| MySql.FailedLoadIsSticky | application/classes/DB/MySQLDataSource.php:148-183 | after a failed open, a checked load throws "Recursive failed LoadDatabase call!" and an unchecked one reports no connection; neither retries |
| MySql.CloseThenReconnect | application/classes/DB/MySQLDataSource.php:217-229 | after a successful close there is no error message, and the next load makes a new connection attempt; when that attempt connects the load succeeds with an empty error and insert id 0 |
| MySql.SqlSelectRepliesSucceeded | application/classes/DB/MySQLDataSource.php:354-370 | a select hands back only result sets or completed statements; every failure is a DBOperationException |
| MySql.SelectAfterFailedLoad | application/classes/DB/MySQLDataSource.php:354-370 | after a failed open every select throws the fatal recursion error without contacting the server |
| MySql.FetchedRows | application/classes/DB/MySQLDataSource.php:399-409 | the fetch loop collects at most the rows there are |
| MySql.FetchedAllRows | application/classes/DB/MySQLDataSource.php:399-409 | when every row has a column, the fetch loop collects all rows |
| MySql.ResultDefaults | application/classes/DB/MySQLDataSource.php:521-561 | both single-value readers return the default exactly when no row came back, and otherwise agree on the first column of the first row |
| MySql.UpdateOutcome | application/classes/DB/MySQLDataSource.php:593-633 | success exactly when the statement did not fail, the server's error on failure, the new id on an insert; after a failed open nothing is sent and the result is "Database connection error" |
| MySql.MySqlWherePart | application/classes/DB/UpdateDataQuery.php:515-525 | under MySQL a DELETE carries a WHERE part exactly when a specification yields a conjunct, otherwise it affects the whole table |
| MySql.MySqlDataSource.constructor | application/classes/DB/MySQLDataSource.php:41-43 | holds the configuration; no connection is opened yet |
| MySql.MySqlDataSource.CreateDataSource | application/classes/DB/MySQLDataSource.php:92-95 | a new data source holding the options array, not yet connected |
| MySql.MySqlDataSource.LoadDatabase | application/classes/DB/MySQLDataSource.php:148-183 | the new connection state and the outcome follow the load policy the lemmas above describe; a new connection starts with an empty error and insert id 0 |
| MySql.MySqlDataSource.TryConnect | application/classes/DB/MySQLDataSource.php:189-197 | true exactly when a load yields a connection; exceptions become false |
| MySql.MySqlDataSource.PingConnection | application/classes/DB/MySQLDataSource.php:203-211 | true exactly when a connection is available and answers the ping |
| MySql.MySqlDataSource.Close | application/classes/DB/MySQLDataSource.php:217-229 | an open connection is closed and forgotten when closing succeeds, so no error message is left (ErrorMessageOf is null) and the next load connects afresh with no error and insert id 0 (CloseThenReconnect); a failed close changes nothing; without a connection it succeeds and nothing changes |
| MySql.MySqlDataSource.EscapeValueOf | application/classes/DB/MySQLDataSource.php:252-265 | loads the connection, then renders the value by EscapeValue |
| MySql.MySqlDataSource.GetOperator | application/classes/DB/MySQLDataSource.php:274-277 | loads the connection, then returns the operator unchanged |
| MySql.MySqlDataSource.GetIdentity | application/classes/DB/MySQLDataSource.php:283-286 | loads the connection, then returns the insert id of the last statement on the current connection; a fresh connection reports 0 |
| MySql.MySqlDataSource.GetErrorMessage | application/classes/DB/MySQLDataSource.php:291-293 | the error of the last statement on the current connection, null when there is no connection object |
| MySql.MySqlDataSource.SendQuery | application/classes/DB/MySQLDataSource.php:360 | the server's answer; error and insert id are updated from it |
| MySql.MySqlDataSource.SqlSelectQuery | application/classes/DB/MySQLDataSource.php:354-370 | the new state and outcome are those of the select policy |
| MySql.MySqlDataSource.SelectQuery | application/classes/DB/MySQLDataSource.php:379-389 | the select of the paged command with its parameters |
| MySql.MySqlDataSource.FetchAll | application/classes/DB/MySQLDataSource.php:402-407 | the loop collects the rows of a result set |
| MySql.MySqlDataSource.GetSqlRecordset | application/classes/DB/MySQLDataSource.php:399-409 | the select's rows |
| MySql.MySqlDataSource.GetSqlObjectset | application/classes/DB/MySQLDataSource.php:419-429 | the select's rows, as objects |
| MySql.MySqlDataSource.GetSqlRecord | application/classes/DB/MySQLDataSource.php:440-450 | the first row, or FALSE |
| MySql.MySqlDataSource.GetSqlObject | application/classes/DB/MySQLDataSource.php:461-471 | the first row, or null |
| MySql.MySqlDataSource.GetRecordset | application/classes/DB/MySQLDataSource.php:480-490 | the rows of the paged query |
| MySql.MySqlDataSource.GetRecord | application/classes/DB/MySQLDataSource.php:500-510 | the first row of the paged query, or null |
| MySql.MySqlDataSource.GetSqlResult | application/classes/DB/MySQLDataSource.php:521-534 | the first column of the first row, or the default |
| MySql.MySqlDataSource.GetResult | application/classes/DB/MySQLDataSource.php:544-561 | the first column of the first row of the paged query, or the default |
| MySql.MySqlDataSource.ExecuteQuery | application/classes/DB/MySQLDataSource.php:571-584 | PHP false without a connection, otherwise the server's answer, a driver exception passed through |
| MySql.MySqlDataSource.ExecuteUpdateQuery | application/classes/DB/MySQLDataSource.php:593-633 | the new state and result are those UpdateOutcome describes |
| MySql.MySqlDataSource.SendUpdate | application/classes/DB/MySQLDataSource.php:608-631 | sends the statement and reads the error, insert id or affected rows off the connection |
| JsonConvertible.NonDefaultKeysFromDefaults | application/classes/Model/JSONConvertibleTrait.php:168-177 | only keys of the defaults array are ever serialized |
| JsonConvertible.NonDefaultIff | application/classes/Model/JSONConvertibleTrait.php:168-177 | a key is serialized exactly when it has a default and its current value is not identical to it, and the serialized value is the current one |
| JsonConvertible.NonDefaultKeepsOrder | application/classes/Model/JSONConvertibleTrait.php:168-177 | the serialized keys keep the order of the defaults |
| JsonConvertible.AllDefaultsGiveEmptyObject | application/classes/Model/JSONConvertibleTrait.php:168-177 | the result is the empty JSON object exactly when every property holds its default |
| JsonConvertible.KeyedObjectsLookup | application/classes/Model/JSONConvertibleTrait.php:96-106 | with distinct keys, each input key looks up the object made from its entry, and a key not in the input looks up nothing |
| JsonConvertible.GetObjectArray | application/classes/Model/JSONConvertibleTrait.php:78-88 | the loop builds the list of the objects made from the values one by one, in order, under keys 0, 1, ... |
| JsonConvertible.GetAssociativeObjectArray | application/classes/Model/JSONConvertibleTrait.php:96-106 | the loop builds the objects under the input's own keys |
| JsonConvertible.ObjectArraysAgree | application/classes/Model/JSONConvertibleTrait.php:78-106 | both conversions build the same objects in the same order; the list form numbers them, the associative form keeps the input keys |
| JsonConvertible.AppendObjectsNumbered | application/classes/Model/JSONConvertibleTrait.php:134-138 | appending keeps the existing entries and adds one object per item, in order, under the integer keys NextIndex(existing), NextIndex(existing)+1, ... |
| JsonConvertible.AppendObjectsNextIndex | application/classes/Model/JSONConvertibleTrait.php:134-138 | after appending n items the next integer key is n higher |
| JsonConvertible.AppendObjectsKeepsExisting | application/classes/Model/JSONConvertibleTrait.php:129-140 | the existing entries stay in front and one object per item follows, in order |
| JsonConvertible.StoreObjectsLookup | application/classes/Model/JSONConvertibleTrait.php:148-159 | afterwards each input key holds the object built from its entry and every other key keeps its old value |
| PhpValues.PushKey | application/classes/Model/JSONConvertibleTrait.php:137 | appending uses a key not yet in the array; in a list it is the length |
| PhpValues.KeyIndexOfIndex | application/classes/Model/JSONConvertibleTrait.php:137 | the key written for index n reads back as integer key n |
| PhpValues.NextIndexWithoutIntKeys | application/classes/Model/JSONConvertibleTrait.php:137 | an array without integer keys appends under key "0" |
| JsonConvertible.ReadValuesLookup | application/classes/Model/JSONConvertibleTrait.php:62-70 | a property takes the input's value exactly when it is listed and the input has the key (even a null value); nothing else changes, and an empty input changes nothing |
| JsonConvertible.ReadNamesLookup | application/classes/Model/JSONConvertibleTrait.php:62-70 | the copy loop sets exactly the listed properties present in the input |
| JsonConvertible.JsonObject.constructor | application/classes/Model/JSONConvertibleTrait.php:51-55 | an object holding the given properties |
| JsonConvertible.JsonObject.JsonSerializeDefault | application/classes/Model/JSONConvertibleTrait.php:168-177 | the loop yields the properties that differ from their defaults, or the empty object |
| JsonConvertible.JsonObject.ReadValuesFromArray | application/classes/Model/JSONConvertibleTrait.php:62-70 | the properties afterwards are those ReadValuesLookup describes |
| JsonConvertible.JsonObject.NullToEmptyArray | application/classes/Model/JSONConvertibleTrait.php:131-133 | a null property becomes an empty array; an array property is kept |
| JsonConvertible.JsonObject.AppendToProperty | application/classes/Model/JSONConvertibleTrait.php:134-138 | only the property changes; its array gets one object per item appended under PHP's next integer keys (AppendObjects, described by AppendObjectsNumbered) |
| JsonConvertible.JsonObject.StoreInProperty | application/classes/Model/JSONConvertibleTrait.php:153-157 | each object is stored in the property's array under its input key |
| JsonConvertible.JsonObject.ReadObjectArray | application/classes/Model/JSONConvertibleTrait.php:129-140 | null becomes an array, then the input's objects are appended when the input holds an array under the key |
| JsonConvertible.JsonObject.ReadAssociativeObjectArray | application/classes/Model/JSONConvertibleTrait.php:148-159 | as ReadObjectArray, with the objects stored under the input keys |
| JsonConvertible.ReadObjectArrayAppends | application/classes/Model/JSONConvertibleTrait.php:129-140 | after readObjectArray the property is the array it held (none when null) followed by one object per input entry, under integer keys counting from that array's next index |
| JsonConvertible.FromJsonInternal | application/classes/Model/JSONConvertibleTrait.php:185-193 | throws "Invalid JSON data" exactly when there is no text or it decodes to null; otherwise a new instance reads the decoded data |
| Exceptions.NewDBOperationException | application/classes/DB/DBOperationException.php:32-36 | a DBOperationException with the message, code and fatal flag and no additional data |
| Exceptions.SetAdditionalData | application/classes/DB/DBOperationException.php:42-44 | the additional data is replaced by the new map; message, code and fatal flag are kept |
| Exceptions.SetAdditionalDataReplaces | application/classes/DB/DBOperationException.php:42-44 | setting the data twice keeps only the second map |
| OperationResults.Success | application/classes/Model/OperationResult.php:61-63 | a success with the given message and data |
| OperationResults.SuccessFormatted | application/classes/Model/OperationResult.php:71-75 | a success with the formatted message and no data |
| OperationResults.Failed | application/classes/Model/OperationResult.php:83-85 | a failure with the given message and data |
| OperationResults.FailedFormatted | application/classes/Model/OperationResult.php:93-97 | a failure with the formatted message and no data |
| OperationResults.FormattedWithoutArguments | application/classes/Model/OperationResult.php:40-53 | with no arguments the message is "", and with only a format it is that format, unformatted |
| OperationResults.FromUpdateQueryResult | application/classes/Model/OperationResult.php:104-108 | success exactly when the database flag is set, carrying the database message and no data |
| OperationResults.FromCreated | application/classes/Model/OperationResult.php:104-108 | a database success or error converts to an operation success or failure with the same message |
| UpdateQueryResults.NewUpdateQueryResult | application/classes/DB/UpdateQueryResult.php:40-44 | the flag is 1 exactly when the success value is truthy, else 0; the counters start at 0 |
| UpdateQueryResults.CreateSuccess | application/classes/DB/UpdateQueryResult.php:52-55 | a success with the message and zero counters |
| UpdateQueryResults.CreateError | application/classes/DB/UpdateQueryResult.php:63-66 | a failure with the message and zero counters |
| SetValueOperations.ExpressionNotEscaped | application/classes/DB/SetValueOperation.php:46-53 | the SQL of an expression does not depend on the data source; the SQL of a value is the same under two data sources exactly when they escape it the same way |
| CacheConnectors.MapKey | application/classes/Cache/BaseCacheConnector.php:55-58 | the stored key is the prefix followed by the whole key (nothing is added for an empty prefix) |
| CacheConnectors.UnmapKey | application/classes/Cache/BaseCacheConnector.php:65-68 | drops as many characters as the prefix has; a key shorter than the prefix gives "" |
| CacheConnectors.MapKeyRoundTrip | application/classes/Cache/BaseCacheConnector.php:55-68 | UnmapKey undoes MapKey, and distinct keys never share a cache entry |
| CacheConnectors.MapKeyAsWrittenAgrees | application/classes/Cache/BaseCacheConnector.php:55-58 | the mapping as written (empty() test on the prefix) agrees with the intended one for every prefix except "0" |
| CacheConnectors.MapKeyAsWrittenLosesCharacter | application/classes/Cache/BaseCacheConnector.php:55-68 | with prefix "0" the key "ab" comes back from UnmapKey as "b"; the intended mapping gives "ab" back |
| CacheConnectors.CustomCacheKey | application/classes/Cache/BaseCacheConnector.php:190-192 | the key starts with "O.<type>_<creator>" and ends with "_<id>" |
| CacheConnectors.ObjectCacheKeysDistinct | application/classes/Cache/BaseCacheConnector.php:137-142 | two objects of one type and callback share a cache key exactly when their IDs print the same |
| CacheConnectors.DefaultKeyNotCustom | application/classes/Cache/BaseCacheConnector.php:137-142 | the default key of an ID without "_" differs from every key made with another callback |
| CacheConnectors.CustomCacheKeysCanCollide | application/classes/Cache/BaseCacheConnector.php:190-192 | creator name and publication id are joined without a separator, so two different pairs can share one cache entry |
| CacheConnectors.ReadThroughHit | application/classes/Cache/BaseCacheConnector.php:158-175 | with caching on, a hit returns the cached value, does not call the creator and changes nothing |
| CacheConnectors.ReadThroughDisabled | application/classes/Cache/BaseCacheConnector.php:158-175 | with cacheTime <= 0 the cache is neither read nor written and the creator's result is returned |
| CacheConnectors.ReadThroughNeverStoresFalse | application/classes/Cache/BaseCacheConnector.php:158-175 | FALSE is never stored: a FALSE result leaves the cache unchanged and every new entry is not FALSE |
| CacheConnectors.ReadThroughTwice | application/classes/Cache/BaseCacheConnector.php:216-227 | right after a call that cached its value, a second call with any creator returns that value from the cache |
| CacheConnectors.SimpleReadThroughMatches | application/classes/Cache/BaseCacheConnector.php:272-289 | the simple-data variant agrees with the object variant on scalars; it throws only for an array from the creator, and then caches nothing |
| CacheConnectors.LocalReadThroughProperties | application/classes/Cache/BaseCacheConnector.php:247-258 | a local hit touches neither cache; only the requested key with a non-empty value is added locally; once kept, later calls return it with any creator |
| CacheConnectors.InvalidateForcesCreate | application/classes/Cache/BaseCacheConnector.php:137-175 | after InvalidateCachedObject the next GetCachedObject for the same object misses and calls the creator |
| CacheConnectors.CacheConnector.constructor | application/classes/Cache/BaseCacheConnector.php:25-26 | a connector with the given prefix and backing store and an empty local cache |
| CacheConnectors.CacheConnector.Get | application/classes/Cache/BaseCacheConnector.php:340 | the value stored under the prefixed key, FALSE on a miss |
| CacheConnectors.CacheConnector.Set | application/classes/Cache/BaseCacheConnector.php:333 | stores the value under the prefixed key and nothing else changes |
| CacheConnectors.CacheConnector.Add | application/classes/Cache/BaseCacheConnector.php:324 | stores only when the prefixed key is absent, and reports exactly that |
| CacheConnectors.CacheConnector.Delete | application/classes/Cache/BaseCacheConnector.php:354 | removes the prefixed key and reports whether it was there |
| CacheConnectors.CacheConnector.AddObject | application/classes/Cache/BaseCacheConnector.php:79-82 | Add under the prefixed key: stores only an absent key |
| CacheConnectors.CacheConnector.SetObject | application/classes/Cache/BaseCacheConnector.php:91-94 | Set under the prefixed key |
| CacheConnectors.CacheConnector.GetObject | application/classes/Cache/BaseCacheConnector.php:103-110 | the cached object, FALSE on a miss |
| CacheConnectors.CacheConnector.GetObjectList | application/classes/Cache/BaseCacheConnector.php:118-126 | for every requested key present in the cache its object, and no entry for any other key |
| CacheConnectors.CacheConnector.InvalidateCachedObject | application/classes/Cache/BaseCacheConnector.php:137-144 | deletes exactly the entry GetCachedObject uses for that object |
| CacheConnectors.CacheConnector.ReadThroughKey | application/classes/Cache/BaseCacheConnector.php:164-174 | the new store and the result are those of the read-through policy |
| CacheConnectors.CacheConnector.GetCachedObject | application/classes/Cache/BaseCacheConnector.php:158-175 | read-through under the object key, the creator applied to the id |
| CacheConnectors.CacheConnector.GetCachedObjectCustom | application/classes/Cache/BaseCacheConnector.php:189-203 | read-through under the custom key, the creator applied to publication id and object id |
| CacheConnectors.CacheConnector.GetCachedObjectCallback | application/classes/Cache/BaseCacheConnector.php:216-227 | read-through under the caller's key |
| CacheConnectors.CacheConnector.GetLocalCachedObject | application/classes/Cache/BaseCacheConnector.php:247-258 | both caches and the result follow the local read-through policy |
| CacheConnectors.CacheConnector.GetCachedSimpleDataCallback | application/classes/Cache/BaseCacheConnector.php:272-289 | store and outcome follow the simple-data policy, which refuses arrays |
| DataClassGeneration.PartName | application/classes/Model/DataClassGenerator.php:21-31 | "id" becomes "ID", an all-lower-case part gets an upper-case first letter, any other part is kept; the length never changes |
| DataClassGeneration.GeneratePropertyName | application/classes/Model/DataClassGenerator.php:18-34 | the loop computes the concatenation of the converted "_"-separated parts |
| DataClassGeneration.PropertyNameHasNoUnderscore | application/classes/Model/DataClassGenerator.php:18-34 | a generated property name never contains "_" |
| DataClassGeneration.PropertyNameOnePart | application/classes/Model/DataClassGenerator.php:18-34 | a name without "_" is converted as one part |
| DataClassGeneration.PropertyNameOfParts | application/classes/Model/DataClassGenerator.php:18-34 | the name of "first_rest" is the converted first part followed by the name of the rest |
| DataClassGeneration.PropertyNameKeepsMixedCase | application/classes/Model/DataClassGenerator.php:18-34 | a name without "_" that is not all lower case is kept as it is |
| DataClassGeneration.StripTablePrefix | application/classes/Model/DataClassGenerator.php:37 | a leading tbl, def or rel is dropped together with one following "_" when there is one; any other name is unchanged |
| DataClassGeneration.CapitalLetters | application/classes/Model/DataClassGenerator.php:41-49 | the collected capitals are at most as many as the characters |
| DataClassGeneration.GenerateTableAlias | application/classes/Model/DataClassGenerator.php:36-57 | the loop computes the alias: the capitals of a single-part name, the initials of a multi-part one |
| DataClassGeneration.SinglePartAliasIsLowerCase | application/classes/Model/DataClassGenerator.php:41-49 | the alias of a name without "_" is its capitals and holds only the letters a-z |
| DataClassGeneration.CapitalLettersAreLower | application/classes/Model/DataClassGenerator.php:41-49 | every collected letter is lower case |
| DataClassGeneration.CapitalLettersAppend | application/classes/Model/DataClassGenerator.php:41-49 | the capitals of a concatenation are those of each half |
| DataClassGeneration.CapitalisedWordsInitials | application/classes/Model/DataClassGenerator.php:41-49 | the capital letters of capitalised words run together are the words' initials, lower-cased, in order |
| DataClassGeneration.CapitalisedTableAlias | application/classes/Model/DataClassGenerator.php:36-57 | a one-part table name made of capitalised words has one alias letter per word, its lower-cased initial |
| DataClassGeneration.MultiPartAlias | application/classes/Model/DataClassGenerator.php:36-57 | a name with "_" after the prefix has as alias the lower-cased first letters of its parts, one per non-empty part |
| DataClassGeneration.CastOfColumnType | application/classes/Model/DataClassGenerator.php:116-121 | a column is cast to int exactly for an integer type, to float exactly for a floating type, and copied otherwise |
| DataClassGeneration.FirstMatchIsFirst | application/classes/Model/DataClassGenerator.php:139-150 | the status/order scan finds the first matching column, and none exactly when no column matches |
| DataClassGeneration.PkFields | application/classes/Model/DataClassGenerator.php:136-138 | exactly the columns marked primary |
| DataClassGeneration.PkFieldsAppend | application/classes/Model/DataClassGenerator.php:136-138 | the key columns of two column lists are those of the first followed by those of the second, so the table order is kept |
| DataClassGeneration.TypeMapLastWins | application/classes/Model/DataClassGenerator.php:98 | every key is a column name, and each name maps to the type of its last column |
| DataClassGeneration.PlanColumns | application/classes/Model/DataClassGenerator.php:89-124 | one property and one constructor assignment per column, in order, with the column's mapped type, property name and, for distinct names, cast |
| DataClassGeneration.PropMap | application/classes/Model/DataClassGenerator.php:99 | every column name has a property name |
| DataClassGeneration.PropMapNames | application/classes/Model/DataClassGenerator.php:99 | each column's property name is its generated property name |
| DataClassGeneration.DeclareProperties | application/classes/Model/DataClassGenerator.php:89-107 | the loop builds the type map, the property map and the declarations |
| DataClassGeneration.ConstructorAssignments | application/classes/Model/DataClassGenerator.php:112-124 | the loop builds every column's assignment |
| DataClassGeneration.ScanFields | application/classes/Model/DataClassGenerator.php:128-151 | the scan yields the select list, the key columns, and the first status and first order column |
| DataClassGeneration.UpdateSets | application/classes/Model/DataClassGenerator.php:228-232 | the loop builds the Set calls of every column but the key |
| DataClassGeneration.ByIdGetterFor | application/classes/Model/DataClassGenerator.php:158-181 | the by-ID getter exists only for a single key column, typed by that column and filtered by the status column |
| DataClassGeneration.ListQuerySql | application/classes/Model/DataClassGenerator.php:183-189 | the list query filters by the status column and orders by the order column when they exist |
| DataClassGeneration.UpdateMethodFor | application/classes/Model/DataClassGenerator.php:207-242 | the update method exists only for a single key column |
| DataClassGeneration.GenerateTableCodeClass | application/classes/Model/DataClassGenerator.php:65-248 | the generator's choices for a table are the plan PlanChoices describes |
| DataClassGeneration.SetCallsSkipKey | application/classes/Model/DataClassGenerator.php:228-232 | the update sets every column except the key, each through its generated property name |
| DataClassGeneration.PlanChoices | application/classes/Model/DataClassGenerator.php:136-242 | getter and update method exist together, exactly for one key column; the update skips only the key; the status column filters the list and the getter |
| Users.PropsDistinct | application/classes/Model/UserInfo.php:181-192 | the user's properties are listed under distinct names |
| Users.UserRowRoundTrip | application/classes/Model/UserInfo.php:61-74 | reading a user back from its own properties loses nothing when the password is not null |
| Users.SimpleRowKeepsDefaults | application/classes/Model/UserInfo.php:61-74 | a row without userCoin leaves coin, life count and items at their defaults, and without a password leaves the password "" |
| Users.UserJsonKeyIff | application/classes/Model/UserInfo.php:181-192 | a property appears in the JSON exactly when it differs from its default, and then with its own value |
| Users.DefaultsMatchProps | application/classes/Model/UserInfo.php:181-192 | the defaults list each of the eight properties once, in declaration order |
| Users.PasswordSerializedIff | application/classes/Model/UserInfo.php:181-192 | the stored password hash is serialized exactly when it is not empty |
| Users.SimpleRowOmitsInventory | application/classes/Model/UserInfo.php:181-192 | a user read without the inventory columns serializes no coin, life count or items |
| Users.SaveShape | application/classes/Model/UserInfo.php:146-164 | an INSERT exactly for a user without an id, writing e-mail, the md5 of the password, uid and the profile; otherwise an UPDATE of the profile of the row with that id |
| Users.UpdateKeepsCredentials | application/classes/Model/UserInfo.php:155-163 | saving an existing user never rewrites e-mail, password or uid, and filters on the id alone |
| Users.AfterSaveKeepsProfile | application/classes/Model/UserInfo.php:166-168 | saving changes at most the id, and only a successful insert adopts the new one |
| Users.AsWrittenDeletesMissColumns | application/classes/Model/UserInfo.php:119-140 | as written, both deletes run against tblUser and filter only on gift-queue columns it does not have |
| Users.CorrectedDeletesTargetGiftQueue | application/classes/Model/UserInfo.php:119-140 | the corrected deletes run against the gift queue, filter on its columns, never empty the whole queue, and expire exactly the gifts acceptGift would still accept |
| Users.ByEmailBindsEmail | application/classes/Model/UserInfo.php:88-92 | the e-mail fills the one marker of the query for active users |
| Users.UserInfo.constructor | application/classes/Model/UserInfo.php:61-74 | the user read from the row |
| Users.UserInfo.JsonSerialize | application/classes/Model/UserInfo.php:181-192 | the default serialization over the user's defaults |
| Users.UserInfo.GetUserInfoByEmail | application/classes/Model/UserInfo.php:88-92 | runs the e-mail query; null exactly for a missing or empty record, otherwise a new user read from it; exceptions pass through |
| Users.UserInfo.UpdateUserInfo | application/classes/Model/UserInfo.php:146-171 | runs the save query; the result converts the database result, and the user afterwards is AfterSave's |
| Users.UserInfo.ResetUserSendGifts | application/classes/Model/UserInfo.php:119-126 | runs the corrected reset delete and converts its result |
| Users.UserInfo.ExpireUnclaimedGifts | application/classes/Model/UserInfo.php:132-140 | runs the corrected expiry delete and converts its result |
| UserGifts.GiftRowRoundTrip | application/classes/Model/UserGift.php:65-78 | reading a gift back from its own row loses nothing when its optional columns are not null |
| UserGifts.PlainRowKeepsDefaults | application/classes/Model/UserGift.php:72-77 | a row without the joined columns leaves the user and gift type fields "" |
| UserGifts.SendGiftLogFollowsQueue | application/classes/Model/UserGift.php:95-112 | the log insert runs only after a successful queue insert, with the same columns; the result reflects the queue insert alone |
| UserGifts.SentColumns | application/classes/Model/UserGift.php:96-104 | a gift is sent with sender, receiver, formatted date, timestamp and type, in that order |
| UserGifts.AcceptTargetsPendingGift | application/classes/Model/UserGift.php:129-139 | the UPDATE sets the accepted flag to 1 only on a still pending gift, and does not depend on the object's own flag |
| UserGifts.GiftInfoBindsInOrder | application/classes/Model/UserGift.php:89-93 | the three markers take sender, receiver and date in that order |
| UserGifts.GiftQueueDropsDate | application/classes/Model/UserGift.php:118-126 | as written the date is never bound: two cut-off dates give the same SQL, which compares the gift date with the text '%s' |
| UserGifts.GiftQueueFixedBindsDate | application/classes/Model/UserGift.php:118-126 | with a third marker every bind is used and the date lands in the comparison |
| UserGifts.UserGift.constructor | application/classes/Model/UserGift.php:65-78 | the numeric columns cast to int, the joined columns copied only when set |
| UserGifts.UserGift.GetUserGiftInfo | application/classes/Model/UserGift.php:89-93 | runs the gift query; null exactly for a missing or empty record, otherwise a new gift read from it |
| UserGifts.UserGift.GetUserGiftQueue | application/classes/Model/UserGift.php:118-126 | runs the corrected queue query; one new gift per row, in order |
| UserGifts.UserGift.GiftsOf | application/classes/Model/UserGift.php:125 | one new gift per row, in order |
| UserGifts.UserGift.SendUserGift | application/classes/Model/UserGift.php:95-112 | the queue insert, then the log insert on success, as SendGiftLogFollowsQueue describes |
| UserGifts.UserGift.AcceptGift | application/classes/Model/UserGift.php:129-139 | the object is marked accepted first, then the UPDATE runs and its result is converted |
| Sessions.VerdictSuccessIff | application/classes/Model/SessionProfile.php:52-76 | a login succeeds exactly when a salt was issued, the user exists and the digest matches; a success carries no message |
| Sessions.VerdictFailureOrder | application/classes/Model/SessionProfile.php:52-76 | a missing salt is reported first, then a missing user, then a wrong digest |
| Sessions.SaltIsSingleUse | application/classes/Model/SessionProfile.php:52-76 | without a fresh salt every attempt fails with "Invalid password code" |
| Sessions.SessionProfile.constructor | application/classes/Model/SessionProfile.php:17-27 | not logged in, no salt, no user |
| Sessions.SessionProfile.GenerateLoginRandomSalt | application/classes/Model/SessionProfile.php:48-50 | the salt becomes md5 of the random material; nothing else changes |
| Sessions.SessionProfile.TryAuthenticate | application/classes/Model/SessionProfile.php:52-76 | an exception from the lookup leaves the session as it was; otherwise the salt is spent, the result is the verdict, and the session is logged in with the found user exactly on success |

## Left out

- The Redis connector and the other concrete cache back ends are not part of this model. The cache is a map from keys to values, and the abstract Add/Set/Get/GetList/Delete act on it directly.
- Cache expiry times (`expireTime`) are not modelled: an entry stays until it is deleted. The Sentry logging of cache errors is left out.
- mysqli connection details are reduced to one connection outcome per attempt: host/port handling, charset and collation statements, and the ping round trip. `real_escape_string` is an uninterpreted function.
- md5 (RFC 1321), `date`/`strtotime`, `vsprintf`, `json_decode`, `uniqid`/`mt_rand` and `session_id` are function parameters. Their results are not computed.
- Runtime reflection (`new $objectType($row)`, `readFromJSONDefault`, `getAsObject`, `readObjectProperty`) is replaced by a caller-supplied constructor function (`make`/`read`). `toJSON` (json_encode of the serialization) is not modelled beyond `SerializedEntries`.
- ZyngaObjectTrait's `GetObject`/`GetObjectSet` are not separate members. The business objects inline them, because a class constructor is not a function value in Dafny.
- `UserInfo.getUserFriendList` is not modelled: it is a query wrapped in the object cache callback, and both halves are modelled on their own. `SessionProfile.GetInformation` reads `$_SESSION` and is left out.
- Sessions.SessionProfile.TryAuthenticate: the digest comparison is strict string equality. PHP's `!=` compares two numeric strings numerically, so two different "0e..." digests compare equal there. That case is not modelled.
- The `$where` argument of the SelectExtendedDataQuery constructor is left out: it pushes a raw string into the structured WHERE list, which the compiler cannot read.
- DBOperationException is modelled as a value: `setAdditionalData` returns the exception with its new data rather than updating it in place.
- Exceptions.Exception: `isFatalException` and `getAdditionalData` are the `isFatal` and `additionalData` fields.
- Float columns and casts are not modelled: PHP values hold no floats. DataClassGenerator's `(float)` cast is chosen, but no float value is ever produced.
- DataClassGenerator's generated PHP text is not reproduced; only the choices pasted into it are (the `ClassPlan`). `DataClassGenerator.getDB` and the column list it reads are replaced by the field list passed in.
- The status-column and order-column regular expressions are written as predicates over the patterns' fixed alternatives.
- GiftType.php is not part of this model.
- MySqlDialect.CompileBinds: the loop is proved equal to the corrected substitution, in which a marker left without a bind stays in the text; the code as written truncates the SQL after the last bind instead. The code as written is `CompileBindsAsWritten` (see Findings); the two agree whenever every marker has a bind. The only comment on the loop (application/classes/DB/MySQLDataSource.php:312-313) is about surplus binds; nothing in the source says what fewer binds should do. Every member that compiles binds therefore runs the corrected text: MySql.SqlSelect, MySql.ExecuteQuerySpec, and the methods MySql.MySqlDataSource.SqlSelectQuery, SelectQuery, GetSqlRecordset, GetSqlObjectset, GetSqlRecord, GetSqlObject, GetRecordset, GetRecord, GetSqlResult, GetResult and ExecuteQuery, as do QueryExecution.GetRecordset, GetRecord, GetResult, GetObject and GetObjectSet and the business-object queries built on them.
- Users.UserInfo.ResetUserSendGifts and Users.UserInfo.ExpireUnclaimedGifts run the corrected deletes against the gift queue. The deletes as written are `ResetDescriptorAsWritten` and `ExpireDescriptorAsWritten` (see Findings).
- UserGifts.UserGift.GetUserGiftQueue runs the corrected query with a third marker. The query as written is `GiftQueueSql` (see Findings).
- SelectBuilders.SelectExtendedDataQuery.GetSelectDataQuery builds the corrected SQL. The SQL as written is `SelectSqlAsWritten` (see Findings). QueryExecution.GetRecordsetExtended, GetRecordExtended, GetResultExtended, GetObjectExtended and GetObjectSetExtended run the same corrected SQL; they differ from the code as written only for the query shapes `SelectSqlAgreesIff` names.
- CacheConnectors.MapKey is the corrected mapping. The mapping as written is `MapKeyAsWritten` (see Findings). Every cache member keys through the corrected mapping: CacheConnectors.CacheConnector.Get, Set, Add, Delete, AddObject, SetObject, GetObject, GetObjectList, InvalidateCachedObject, ReadThroughKey and the GetCached* members, and the functions CacheConnectors.ReadThrough, SimpleReadThrough and LocalReadThrough. They differ from the code as written only for the prefix "0": there PHP stores key "ab" under "ab", where the model stores it under "0ab".
- CacheConnectors.CacheConnector.GetObjectList: the result is specified by lookup per key, not by the order of the keys.
- PhpValues.LeadingInt (used by the `(int)` casts): the exponent form ("1e3" is 1000 since PHP 7.1) and the saturation of out-of-range values at the 64-bit limits are not modelled; only leading whitespace, an optional sign and the leading decimal digits are read.
- PhpValues.KeyIndex: only canonical non-negative decimal strings are integer keys. A negative integer key ("-5") counts as a string key, so it never raises the next index; PHP before 8.3 behaves the same way for negative keys, PHP 8.3 does not.
- DataClassGeneration.PartName: the comparison with `strtolower` is strict string equality. PHP's loose `==` also equates two numeric strings of equal value ("1E1" and "1e1"); that case is not modelled.
- MySql.Server: the text of an exception thrown while setting up a new connection (charset, collation) is part of the server parameter (`SetupThrew`).

## Findings

| source | as written | input that shows it | evidently intended | confidence | as-written member | corrected member |
|---|---|---|---|---|---|---|
| application/classes/DB/MySQLDataSource.php:303-328 | with fewer binds than '?' markers the loop stops after the last bind, and every segment after it, including the remaining markers, is dropped | SQL "?,?" with one bind comes out as "<bind>," | markers without a bind stay in the text | high; not executed | MySqlDialect.CompileBindsAsWrittenDropsTail | MySqlDialect.CompileBindsFixedKeepsText |
| application/classes/Cache/BaseCacheConnector.php:55-68 | MapKey skips the prefix when `empty($prefix)`, which also holds for "0", while UnmapKey always strips `strlen($prefix)` characters | prefix "0", key "ab": stored as "ab", unmapped as "b" | only an empty prefix is skipped, so UnmapKey undoes MapKey | high; not executed | CacheConnectors.MapKeyAsWrittenLosesCharacter | CacheConnectors.MapKeyRoundTrip |
| application/classes/DB/SelectExtendedDataQuery.php:351-355 | " WHERE " is emitted whenever a WHERE specification was registered, even when the compiled clause is empty | WhereNotIn("f", []) on "SELECT a FROM t" gives "SELECT a FROM t WHERE " | the WHERE keyword only with a non-empty clause, as UpdateSql and DeleteSql do | high; not executed | SelectBuilders.DanglingWhere | SelectBuilders.SelectWherePart |
| application/classes/Model/UserGift.php:118-126 | the query has two '?' markers and a literal '%s' for three binds, so the cut-off date is never bound | two different cut-off dates produce the same SQL, which compares giftDate with the text '%s' | the date fills a third marker | high; not executed | UserGifts.GiftQueueDropsDate | UserGifts.GiftQueueFixedBindsDate |
| application/classes/Model/UserInfo.php:119-140 | both deletes target `self::$tableName`, which is tblUser, but filter on gift-queue columns | resetUserSendGifts(5) deletes from tblUser where fromUserID and giftDate match, columns tblUser lacks | delete from the gift queue, tblUserGiftQueue | medium; not executed | Users.AsWrittenDeletesMissColumns | Users.CorrectedDeletesTargetGiftQueue |
