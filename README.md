# spitfire, modelled in Dafny

This project models the core of the spitfire PHP framework and proves properties
of the model. The core covers the ORM and SQL layer, the router, and a handful of
small helpers and validators.

- **Logical fields** (`Logical`): flags, the `getPhysical()` memo, and `validate()`.
- **Tables**, in two versions:
  - the older one (`LegacyTables`) flattens the physical fields into a name-keyed
    map and keeps a record cache;
  - the newer one (`Tables`) delegates to its layout;
  - both compute a primary key and an auto-increment column once and bind
    `getById()` ids positionally (`TableKeys`).
- **Query-building pieces**: the `Queriable` shorthands and the fuzzy LIKE
  rewrite (`Queries`, `Queriables`), query tables with a process-wide alias
  counter (`QueryTables`), query fields (`QueryFields`) and restriction groups
  (`RestrictionGroups`).
- **SQL text generation**:
  - the MySQL restriction renderer (`MysqlRestrictions`);
  - the column and FOREIGN KEY definitions of the standard SQL table (`StdSqlTables`);
  - the statements of the MySQL PDO collection (`MysqlCollections`);
  - the driver's execute/repair/retry policy, quoting, lazy connection and
    memoised object factory (`Drivers`).
- **Router** (`Routing`): route registration and the first-conclusive-wins rewrite
  scan, with scoping.
- **Small helpers and validators**:
  - the legacy dispatcher's `init()`/`getPath()`/`baseUrl()` (`Bootstrap`);
  - an application's URL space (`Apps`);
  - the positive-number validation rule (`Validation`);
  - the session front (`Sessions`).

Shared pieces:
- `Wrappers` holds Option and Result.
- `Php` writes out the PHP string primitives the code relies on: implode,
  explode, trim, strpos, decimal formatting and pathinfo.
- `OrderedMaps` models PHP's ordered arrays as sequences of key/value pairs,
  with assignment, unset and array_merge.
- `Entities` holds the values passed around: PHP values, field flags,
  physical fields, restrictions, records and exceptions.

Some operations change state in the source. Those become classes whose methods
update fields, with `modifies` clauses and contracts against specification
functions: the field memo, the table caches, the alias counter, the router's
route list, the driver's connection and event trace, the dispatcher's statics
and the session. Pure operations stay functions.

The following are parameters, not code:
- the database connection: an outcome per statement sent, plus a connect error;
- the connection's quoting primitive and value encoding;
- the route matcher: `test` and `rewrite`;
- `rand()`: the successive values it returns;
- the legacy static router's rewrite;
- `$_SERVER` and the environment settings;
- `session_regenerate_id()`: its outcome.

## Model

| member | source | states |
|---|---|---|
| Logical.Field.constructor | model/Field.php:67-94 | a new field is nullable, not unique, not primary, not auto-increment, with nothing materialised |
| Logical.Field.SetPhysical | model/Field.php:127-130 | the memo is set to the given value and no flag changes |
| Logical.Field.MakePhysical | model/Field.php:137-142 | fails with the Error of a call on null exactly when the field has no schema or its schema has no table, and otherwise asks the factory; it stores nothing, and every physical field it gives names this field as its logical field |
| Logical.Stamp | model/Field.php:137-142 | getFieldInstance($this, $this->getName()): the factory's physical fields, same count and order, each pointing back at the given logical field; a single column is named after the field |
| Logical.Field.GetPhysical | model/Field.php:151-163 | succeeds exactly when the memo is set or makePhysical() can reach the factory; the first successful call materialises and memoises, later calls reuse the memo without asking, a failing call leaves the memo empty, and the result is always a list (a single field wrapped, an array as it is) |
| Logical.GetPhysicalTwice | model/Field.php:151-163 | two calls return the same outcome; a field that can materialise asks the factory at most once, and one that cannot fails both times and asks twice |
| Logical.SetThenGet | model/Field.php:127-130 | after setPhysical(p), getPhysical() succeeds with p as a list and never asks the factory |
| Logical.Field.IsAutoIncrement | model/Field.php:172-175 | the auto-increment flag |
| Logical.Field.SetAutoIncrement | model/Field.php:185-189 | stores the truthiness of the argument, returns the same field, touches no other flag, and makes the field primary exactly when it is flagged primary or the argument is truthy |
| Logical.Field.SetPrimary | model/Field.php:312-316 | stores the truthiness of the argument and returns the same field; a truthy argument makes the field primary and indexed |
| Logical.Field.SetUnique | model/Field.php:344-348 | stores the argument unconverted and returns the same field; indexed exactly when primary or the argument is truthy |
| Logical.Field.IsUnique | model/Field.php:328-332 | the stored value, whose truthiness is the unique flag |
| Logical.Field.SetNullable | model/Field.php:216-219 | stores the argument unconverted and nothing else |
| Logical.Field.GetNullable | model/Field.php:221-224 | the stored value, whose truthiness is the nullable flag |
| Logical.Field.SetName | model/Field.php:209-213 | the name changes, and so does `__toString()`/`getName()`; the same field is returned |
| Logical.Field.SetDefault | model/Field.php:231-235 | the default changes, nothing else; the same field is returned |
| Logical.Field.SetSchema | model/Field.php:276-279 | the field's schema becomes the given one; nothing else changes, the memo included |
| Logical.Field.GetTable | model/Field.php:287-290 | the table of the field's schema; a field without a schema raises the Error of a call on null |
| Logical.TableDb | model/Field.php:140-141 | the receiver of getDb() in makePhysical(): the table of the schema (getModel(), lines 250-253), or the Error of getTable() on a null schema or of getDb() on a null table |
| Logical.TableDbFollowsGetTable | model/Field.php:140 | makePhysical() reaches the factory exactly when the field's getTable() (lines 287-290) succeeds with a non-null table, and a getTable() Error is the one makePhysical() raises |
| Logical.TableOf | spitfire/storage/database/Table.php:138 | a column's getTable() is its logical field's getTable() |
| Logical.Field.Validate | model/Field.php:389-395 | an error exactly when the field is not nullable and the value is falsy (null, false, 0, "", "0", empty array); never for a nullable field |
| Logical.FlagRules | model/Field.php:299-302 | isPrimary is primary or auto-increment, and isIndexed is primary or unique (lines 362-365): primary implies both, and auto-increment alone is primary but not indexed |
| Logical.LiveFlags | spitfire/storage/database/Table.php:183 | getLogicalField()->isPrimary() reads the logical field as it is at the call: each physical field's logical field maps to its current flags, and only logical fields are in the view |
| Logical.Schema.SetTable | storage/database/Table.php:92-94 | the schema points back at its table |
| TableKeys.PutAllGet | spitfire/storage/database/Table.php:112-123 | every physical field lands in the map under its name, and the last field carrying a name wins |
| TableKeys.PutAllKeys | spitfire/storage/database/Table.php:112-123 | the map's keys are exactly the names seen, none repeated |
| TableKeys.PutAllNamed | spitfire/storage/database/Table.php:112-123 | every entry is filed under its own field's name |
| TableKeys.LastNamed | spitfire/storage/database/Table.php:119-121 | the field a name ends up mapping to: present exactly when the name occurs, and the last such field |
| TableKeys.PrimaryPairsMember | spitfire/storage/database/Table.php:174-187 | an entry is in the primary key exactly when it is a field whose logical field is primary |
| TableKeys.PrimaryPairsAppend | storage/database/Table.php:145-158 | the selection keeps field order |
| TableKeys.PrimaryOfIsPairs | storage/database/Table.php:145-158 | with distinct names, the keyed assignment builds exactly the primary entries in order |
| TableKeys.FirstAutoIncrement | spitfire/storage/database/Table.php:189-200 | the first field flagged auto-increment, or none when no field is |
| TableKeys.LivePrimaryMember | spitfire/storage/database/Table.php:182-184 | through the live flags, an entry is in the primary key exactly when it is in the map and its logical field is primary now |
| TableKeys.ScanPrimary | spitfire/storage/database/Table.php:179-186 | the foreach keeps exactly the fields whose logical field is primary at the call, under their names, in order |
| TableKeys.ScanAutoIncrement | spitfire/storage/database/Table.php:193-199 | the first field whose logical field is auto-increment at the call, or none |
| TableKeys.Components | spitfire/storage/database/Table.php:215 | a non-array id is split on ':' |
| TableKeys.Bind | spitfire/storage/database/Table.php:222-223 | one equality restriction per primary-key field, the n-th bound to the n-th component, null when components run out |
| TableKeys.BindIgnoresSurplus | spitfire/storage/database/Table.php:222-223 | surplus components are ignored |
| TableKeys.NumericStringKey | spitfire/storage/database/Table.php:234 | a number and its decimal string address the same cache slot |
| LegacyTables.FileAll | spitfire/storage/database/Table.php:118-121 | the array_shift loop files the fields in order, as a fold of assignments |
| LegacyTables.FileField | spitfire/storage/database/Table.php:117-120 | one turn of the foreach: getPhysical() succeeds exactly when the field is materialised or its factory is reachable, and on success its physical fields are filed after the earlier ones |
| LegacyTables.FileFields | spitfire/storage/database/Table.php:112-123 | the first field whose getPhysical() raises ends the loop with that Error; otherwise every logical field is materialised (an existing memo is kept) and all physical fields are filed; names and schemas do not change |
| LegacyTables.Table.constructor | spitfire/storage/database/Table.php:96-107 | the schema points back at the table, the name is prefix plus table name, and nothing is memoised yet |
| LegacyTables.Table.MakeFields | spitfire/storage/database/Table.php:112-123 | succeeds exactly when every logical field can give its physical fields, and then the field map is the fold of all of them, in order; otherwise the first failing field's Error is returned and the map is not assigned |
| LegacyTables.Make | spitfire/storage/database/Table.php:96-110 | a missing schema is refused with a PrivateException; otherwise the schema points at the new table and construction fails exactly when some field has no memo and no reachable factory, with that field's Error; a new table's map holds all physical fields with distinct names, and when the schema's fields belong to it and their memos were made for them, construction succeeds and getField() accepts every column of the map |
| LegacyTables.Table.GetField | spitfire/storage/database/Table.php:136-148 | a column whose getTable() is this table is returned as it is, one of another table is refused, an Error from getTable() propagates, and a name is found exactly when it is in the map |
| LegacyTables.OwnFieldsAccepted | spitfire/storage/database/Table.php:96-139 | after construction over a schema whose fields belong to it, getField() returns every column of the field map unchanged |
| LegacyTables.FieldLookup | spitfire/storage/database/Table.php:136-148 | after construction a name is found exactly when some physical field carries it, and the last one wins |
| LegacyTables.Table.GetPrimaryKey | spitfire/storage/database/Table.php:174-187 | computed once from the map and the logical fields' flags as they are at that call, then answered from the memo even when empty |
| LegacyTables.Table.GetAutoIncrement | spitfire/storage/database/Table.php:189-200 | the first field whose logical field is auto-increment at the call, memoised only when there is one |
| LegacyTables.Table.GetById | spitfire/storage/database/Table.php:213-229 | a new query on this table whose restrictions bind the primary key positionally to the id's components |
| LegacyTables.Table.Cache | spitfire/storage/database/Table.php:231-236 | a record with exactly one primary-key component is filed under that value's array key and found again by hitCache; an array or object value raises PHP's "Illegal offset type" and leaves the cache as it was |
| LegacyTables.Table.HitCache | spitfire/storage/database/Table.php:238-241 | the record filed under the id's key, or null; an id that cannot be an array key raises PHP's isset error |
| LegacyTables.CacheHitByString | spitfire/storage/database/Table.php:238-241 | hitCache("5") and hitCache(5) agree |
| Tables.Table.constructor | storage/database/Table.php:84-101 | the schema points back at the table; nothing is memoised yet |
| Tables.Make | storage/database/Table.php:88-90 | a missing schema is refused with a PrivateException |
| Tables.Delegation | storage/database/Table.php:110-129 | getFields/getField/getTablename answer what the layout answers; getModel and getSchema (lines 214-216, 249-251) both give the schema |
| Tables.Table.GetPrimaryKey | storage/database/Table.php:145-158 | the layout fields whose logical field is primary at the call, keyed by name, memoised |
| Tables.Table.GetAutoIncrement | storage/database/Table.php:160-171 | the first layout field whose logical field is auto-increment at the call, memoised only when found |
| Tables.Table.GetById | storage/database/Table.php:190-207 | one equality restriction per primary-key field, bound by position |
| Queries.Query.AddRestriction | storage/database/Queriable.php:25 | the restriction is appended after the earlier ones |
| Queriables.Get | storage/database/Queriable.php:22-28 | a new query carrying exactly the one restriction |
| Queriables.GetAll | storage/database/Queriable.php:37-41 | a new query with no restriction |
| Queriables.Like | storage/database/Queriable.php:60-71 | a new query with one LIKE restriction; the value unchanged when not fuzzy |
| Queriables.FuzzyPattern | storage/database/Queriable.php:63-65 | the escaped value between a leading and a trailing '%' |
| Queriables.FuzzyEscapeIsPerChar | storage/database/Queriable.php:64 | the two-pass replace equals a per-character rewrite ('%' to "[%]", ' ' to '%'): the second pass only touches the original spaces |
| Queriables.FuzzyHasNoSpace | storage/database/Queriable.php:63-65 | the fuzzy pattern holds no space |
| Queriables.FuzzyKeepsPlainText | storage/database/Queriable.php:64 | text without spaces or '%' is not changed |
| QueryTables.AliasCounter.constructor | storage/database/QueryTable.php:21 | the counter starts at 1 |
| QueryTables.QueryTable.constructor | storage/database/QueryTable.php:25-30 | takes the counter's value as its id, increments the counter, and is not aliased |
| QueryTables.TwoOccurrences | storage/database/QueryTable.php:27 | two successive tables get strictly increasing, distinct ids |
| QueryTables.QueryTable.SetId | storage/database/QueryTable.php:36-38 | overwrites the id without touching the counter |
| QueryTables.QueryTable.NewId | storage/database/QueryTable.php:40-42 | the counter's current value, then the counter moves on |
| QueryTables.QueryTable.SetAliased | storage/database/QueryTable.php:44-50 | setAliased/isAliased round-trip |
| QueryTables.QueryTable.Alias | storage/database/QueryTable.php:52-60 | "name_id" when aliased, the bare name otherwise |
| QueryTables.AliasSplits | storage/database/QueryTable.php:59 | the last '_' of an alias separates the name from the id |
| QueryTables.AliasInjective | storage/database/QueryTable.php:59 | different (name, id) pairs never share an alias |
| QueryTables.AliasesDiffer | storage/database/QueryTable.php:59 | two aliases of one table with different ids differ |
| QueryFields.QueryField.constructor | storage/database/QueryField.php:42-45 | stores the query table and the field; no query yet |
| QueryFields.Accessors | storage/database/QueryField.php:64-80 | getQueryTable/getField give back what was stored; isLogical holds exactly for a logical field |
| QueryFields.QueryField.SetQuery | storage/database/QueryField.php:52-62 | setQuery/getQuery round-trip |
| QueryFields.QueryField.GetPhysical | storage/database/QueryField.php:82-89 | nothing for a physical field; for a logical one, the Error of its getPhysical() exactly when it cannot materialise; otherwise, with a query, one scoped query field per physical field in the same order and count, and with no query set, an empty list when there are no physical fields and otherwise the failure of queryFieldInstance() called on null; the logical field's memo is kept when set, and otherwise filled by one factory call |
| RestrictionGroups.RestrictionGroup.constructor | spitfire/db/restrictionGroup.php:10-13 | stores the enclosing group and the initial restrictions |
| RestrictionGroups.RestrictionGroup.AddRestriction | spitfire/db/restrictionGroup.php:15-18 | appends at the end, keeps the earlier ones, returns the same group, and extends the rendered text by " AND " and the new restriction |
| RestrictionGroups.RestrictionGroup.GetRestriction | spitfire/db/restrictionGroup.php:24-26 | the restriction at the index, or null outside the list |
| RestrictionGroups.RestrictionGroup.GetValues | spitfire/db/restrictionGroup.php:28-32 | one value per restriction, in order |
| RestrictionGroups.RestrictionGroup.SetStringify | spitfire/db/restrictionGroup.php:38-41 | the callback is kept and handed to every member |
| RestrictionGroups.Texts | spitfire/db/restrictionGroup.php:43-45 | the members' strings, in order |
| RestrictionGroups.ToStringSmall | spitfire/db/restrictionGroup.php:43-45 | an empty group renders as "" and a single member as itself |
| RestrictionGroups.ToStringGrows | spitfire/db/restrictionGroup.php:43-45 | one more member adds exactly " AND " and its own SQL at the end; the first member is the whole string |
| MysqlRestrictions.Render | db/drivers/mysqlPDORestriction.php:13-69 | fails exactly for a field that is not a query field, or a relation field compared with something other than null, a query or a model; any success is non-empty |
| MysqlRestrictions.EmptyIffFailed | db/drivers/mysqlPDORestriction.php:64-68 | the rendered text is "" exactly when rendering raised |
| MysqlRestrictions.ModelRendersAsItsQuery | db/drivers/mysqlPDORestriction.php:25-27 | for a relation field a model renders as its query |
| MysqlRestrictions.SubQueryRelation | db/drivers/mysqlPDORestriction.php:29-31 | a query renders as its restrictions, each rendered on its own, joined by " AND " in parentheses |
| MysqlRestrictions.RenderAll | db/drivers/mysqlPDORestriction.php:30 | one rendered text per sub-restriction, in order |
| MysqlRestrictions.NullRelation | db/drivers/mysqlPDORestriction.php:33-35 | the null comparison text, stray brace included |
| MysqlRestrictions.QuoteAll | db/drivers/mysqlPDORestriction.php:46-48 | every array element quoted on its own, in order |
| MysqlRestrictions.QuoteEach | db/drivers/mysqlPDORestriction.php:46-48 | the by-reference loop computes exactly the element-wise quoting |
| MysqlRestrictions.ScalarArray | db/drivers/mysqlPDORestriction.php:45-51 | a plain field with an array lists the quoted elements joined by "," in parentheses |
| MysqlRestrictions.ScalarValue | db/drivers/mysqlPDORestriction.php:54-61 | a query-field value is unquoted, anything else quoted |
| StdSqlTables.ColumnDefinition | db/drivers/stdSQLTable.php:19 | the backticked name, a space, and the field's column definition |
| StdSqlTables.ColumnDefs | db/drivers/stdSQLTable.php:16-22 | one definition per field, in order |
| StdSqlTables.ColumnDefinitions | db/drivers/stdSQLTable.php:16-22 | the same keys in the same order, each mapped to its definition |
| StdSqlTables.References | db/drivers/stdSQLTable.php:35-37 | only Reference fields remain |
| StdSqlTables.ReferencesMember | db/drivers/stdSQLTable.php:35-37 | an entry remains exactly when it is a Reference field |
| StdSqlTables.UnsetNonReferences | db/drivers/stdSQLTable.php:35-37 | the unset loop leaves exactly the Reference fields, in order |
| StdSqlTables.NoReferencesNoClauses | db/drivers/stdSQLTable.php:39 | a model without Reference fields has no clauses |
| StdSqlTables.FieldNames | db/drivers/stdSQLTable.php:46-53 | the names of the fields, in order |
| StdSqlTables.NamesOf | db/drivers/stdSQLTable.php:46-53 | the collecting loops compute exactly those names |
| StdSqlTables.FkClause | db/drivers/stdSQLTable.php:55-60 | every clause ends with ON DELETE CASCADE ON UPDATE CASCADE |
| StdSqlTables.Clause | db/drivers/stdSQLTable.php:55-60 | the sprintf of one clause: local names and the target's primary-key names in order |
| StdSqlTables.FkClauses | db/drivers/stdSQLTable.php:41-63 | one clause per reference, the n-th under the n-th rand() name |
| StdSqlTables.RepairTargetsMember | db/drivers/stdSQLTable.php:43-44 | a table is repaired exactly when some reference targets it and it is not the model's own |
| StdSqlTables.ClausesOf | db/drivers/stdSQLTable.php:41-63 | the loop yields exactly the clauses and the repairs |
| StdSqlTables.ForeignKeyDefinitions | db/drivers/stdSQLTable.php:30-66 | one clause per Reference field in order, repairs only of other models' tables |
| StdSqlTables.ClausesCascade | db/drivers/stdSQLTable.php:57-60 | every clause returned cascades |
| MysqlCollections.Assignments | storage/database/drivers/mysqlpdo/Collection.php:69-74 | "column = quoted value" per pair, in order |
| MysqlCollections.AssignEach | storage/database/drivers/mysqlpdo/Collection.php:69-70 | the loop computes exactly those assignments |
| MysqlCollections.Delete | storage/database/drivers/mysqlpdo/Collection.php:63-76 | the DELETE statement of the record's primary data, starting with "DELETE FROM table WHERE " |
| MysqlCollections.DeleteSnoc | storage/database/drivers/mysqlpdo/Collection.php:71-74 | one more key pair adds exactly one " AND k = q(v)" |
| MysqlCollections.DeleteSingleKey | storage/database/drivers/mysqlpdo/Collection.php:71-74 | a single key deletes by one equality |
| OrderedMaps.MergeGet | storage/database/drivers/mysqlpdo/Collection.php:116-118 | array_merge: the keys are the union, the second array's values win, the first's stay elsewhere |
| MysqlCollections.MergeInto | storage/database/drivers/mysqlpdo/Collection.php:116-118 | the pair-by-pair merge equals array_merge |
| MysqlCollections.WriteData | storage/database/drivers/mysqlpdo/Collection.php:116-118 | the adapters' data merged in turn |
| MysqlCollections.MergeAllUnique | storage/database/drivers/mysqlpdo/Collection.php:116-118 | merging never repeats a column |
| MysqlCollections.LaterAdapterWins | storage/database/drivers/mysqlpdo/Collection.php:116-118 | of two adapters writing a column, the later one's value is written |
| MysqlCollections.Backticked | storage/database/drivers/mysqlpdo/Collection.php:120-122 | each name between backticks, in order |
| MysqlCollections.Insert | storage/database/drivers/mysqlpdo/Collection.php:109-133 | the column list and the value list come from one merged map: same length, the i-th value is the quoted value of the i-th column |
| MysqlCollections.Update | storage/database/drivers/mysqlpdo/Collection.php:135-161 | SET assignments of the merged data joined by ", ", WHERE equalities of the key joined by " AND ", all quoted |
| MysqlCollections.UpdateSingle | storage/database/drivers/mysqlpdo/Collection.php:151-157 | the statement for one column and one key |
| MysqlCollections.CleanMember | storage/database/drivers/mysqlpdo/Collection.php:181 | array_filter keeps exactly the definitions other than "" and "0" |
| MysqlCollections.FilterEmpty | storage/database/drivers/mysqlpdo/Collection.php:181 | the filter loop computes exactly that |
| MysqlCollections.CleanAppend | storage/database/drivers/mysqlpdo/Collection.php:181 | the filter works on parts separately |
| MysqlCollections.Create | storage/database/drivers/mysqlpdo/Collection.php:167-189 | column definitions, then the foreign keys, then the backticked primary key, filtered and joined; the repairs of the foreign-key pass |
| MysqlCollections.CreateShape | storage/database/drivers/mysqlpdo/Collection.php:176-186 | the primary key clause, when there is one, comes last; no empty definition survives |
| MysqlCollections.ForeignKeysKept | storage/database/drivers/mysqlpdo/Collection.php:181 | foreign-key clauses are never filtered out |
| MysqlCollections.Without | storage/database/drivers/mysqlpdo/Collection.php:44-50 | the fields left are the declared ones whose names were not reported, in order |
| MysqlCollections.RemoveWithout | storage/database/drivers/mysqlpdo/Collection.php:46-48 | one more unset is one more name left out |
| MysqlCollections.Unreported | storage/database/drivers/mysqlpdo/Collection.php:44-50 | the row loop as written: the unreported fields when every row resolves, otherwise what the first unresolved row raises |
| MysqlCollections.FirstUnresolved | storage/database/drivers/mysqlpdo/Collection.php:46 | none exactly when every row resolves; otherwise what the earliest unresolved row raises |
| MysqlCollections.UnsetAsWritten | storage/database/drivers/mysqlpdo/Collection.php:44-50 | succeeds exactly when every row resolves, and then leaves the declared fields no row resolved to |
| MysqlCollections.AddedBack | storage/database/drivers/mysqlpdo/Collection.php:52 | the failure of the row loop, or the fields left in order |
| MysqlCollections.UnresolvedRowAborts | storage/database/drivers/mysqlpdo/Collection.php:45-49 | see Findings: one unresolved row makes the loop as written fail with the first unresolved row's error |
| MysqlCollections.Repair | storage/database/drivers/mysqlpdo/Collection.php:32-53 | DESCRIBE runs with repair disabled and its failure propagates; an unresolved row aborts with what it raised; otherwise add() once per unreported field, in declaration order |
| MysqlCollections.RepairAddsMissing | storage/database/drivers/mysqlpdo/Collection.php:44-52 | corrected: a declared field is added exactly when no reported row resolves to it; when every row resolves the loop as written leaves the same fields |
| Drivers.ConnectFailure | storage/database/drivers/mysqlpdo/Driver.php:55-60 | error 1049 means the database is missing (FileNotFoundException, code 1709051253); anything else is refused |
| Drivers.Driver.Connect | storage/database/drivers/mysqlpdo/Driver.php:41-63 | opens the connection, or fails; only a non-1049 failure is logged |
| Drivers.Driver.GetConnection | storage/database/drivers/mysqlpdo/Driver.php:71-74 | connects only when there is no connection yet |
| Drivers.Driver.Execute | storage/database/drivers/mysqlpdo/Driver.php:88-116 | the events and the result are those of the execute specification, or the connect failure |
| Drivers.ExecBounds | storage/database/drivers/mysqlpdo/Driver.php:109-114 | at most two attempts and one repair; a repair happens exactly when repair is allowed and the failure code is 1051, 1054 or 1146; with repair disabled exactly one attempt |
| Drivers.LoggedBeforeRun | storage/database/drivers/mysqlpdo/Driver.php:93-96 | each attempt is logged right before it is sent |
| Drivers.CountAppend | storage/database/drivers/mysqlpdo/Driver.php:113-114 | counting the events of a retry adds up |
| Drivers.QuoteWith | storage/database/drivers/mysqlpdo/Driver.php:125-134 | null gives "null", 0 and false give "'0'", everything else is encoded and connection-quoted |
| Drivers.ZeroStringIsQuotedByConnection | storage/database/drivers/mysqlpdo/Driver.php:126-133 | the string "0" is not a special case |
| Drivers.Driver.Quote | storage/database/drivers/mysqlpdo/Driver.php:125-134 | the special cases need no connection; anything else goes through the lazily opened connection |
| Drivers.GetObjectFactory | storage/database/drivers/mysqlpdo/Driver.php:141-144 | built on the first call, the same object afterwards |
| Routing.Router.constructor | core/router/Routable.php:23-25 | a new router has no routes |
| Routing.Router.AddRoute | core/router/Routable.php:118-139 | an accepted target appends exactly one route at the end (an array becoming a parametrized path); any other target adds nothing and returns null |
| Routing.RegisterTwo | core/router/Routable.php:118 | routes are appended in registration order with the default masks 0x03 |
| Routing.Router.Request | core/router/Routable.php:36-38 | an accepted target appends exactly one route with this pattern, the GET, POST and HEAD mask and the default protocol (an array becoming a parametrized path); any other target adds nothing and gives null |
| Routing.Router.Get | core/router/Routable.php:48-50 | an accepted target appends exactly one route with this pattern, the GET mask and the default protocol (an array becoming a parametrized path); any other target adds nothing and gives null |
| Routing.Router.Options | core/router/Routable.php:64-66 | an accepted target appends exactly one route with this pattern, the OPTIONS mask and the default protocol (an array becoming a parametrized path); any other target adds nothing and gives null |
| Routing.Router.Put | core/router/Routable.php:77-79 | an accepted target appends exactly one route with this pattern, the PUT mask and the default protocol (an array becoming a parametrized path); any other target adds nothing and gives null |
| Routing.Router.Delete | core/router/Routable.php:90-92 | an accepted target appends exactly one route with this pattern, the DELETE mask and the default protocol (an array becoming a parametrized path); any other target adds nothing and gives null |
| Routing.Router.Post | core/router/Routable.php:103-105 | an accepted target appends exactly one route with this pattern, the POST mask and the default protocol (an array becoming a parametrized path); any other target adds nothing and gives null |
| Routing.TrailingSlashRemoved | core/router/Router.php:89-92 | a URL ending in "/" loses that slash and gets extension "php" |
| Routing.ExtensionSplit | core/router/Router.php:93-96 | otherwise the extension is split off and the URL rebuilt from dirname and filename |
| Routing.BasenameHasNoSlash | core/router/Router.php:90 | the basename holds no slash |
| Routing.Scan | core/router/Router.php:99-112 | whatever the scan returns is a Path or a Response |
| Routing.FirstConclusiveWins | core/router/Router.php:99-107 | the first conclusive route's rewrite is returned, at the URL the earlier routes left |
| Routing.NoneConclusive | core/router/Router.php:112 | false exactly when no route is conclusive |
| Routing.FailingRouteSkipped | core/router/Router.php:102 | a route whose test fails is skipped |
| Routing.RewriteCarriesOn | core/router/Router.php:108 | a rewritten URL carries on to the following routes |
| Routing.Router.Rewrite | core/router/Router.php:83-114 | the scan over the routes of the normalised URL and extension |
| Routing.ScopeAsWrittenLosesSeparator | core/router/Router.php:125 | as written, a parent not ending in "/" and a scope "/name" join as parent + name, with no "/" between them (see Findings) |
| Routing.ScopeAsWrittenExample | core/router/Router.php:125 | as written, parent "/api" and scope "/v1" give "/apiv1" |
| Routing.ScopedNamespace | core/router/Router.php:125 | corrected: the parent's namespace, then exactly one "/" |
| Routing.ScopedNamespaceIgnoresSlashes | core/router/Router.php:125 | corrected: extra slashes at the joint do not matter |
| Routing.ScopedNamespaceKeepsSeparator | core/router/Router.php:125 | corrected: the same parent and scope join as parent + "/" + name, with exactly one "/" at the joint (see Findings) |
| Routing.ScopedNamespaceExample | core/router/Router.php:125 | corrected: parent "/api" and scope "/v1" give "/api/v1" |
| Routing.Router.Scope | core/router/Router.php:123-131 | as written: the child router is under the parent's namespace and the scope joined with no "/" put back, and the call never returns normally: without a callback, calling null is an Error; with one, pushing onto the never-initialised children list is an Error |
| Bootstrap.BaseUrl | spitfire/spitfire.php:79-82 | the part of the script path before the first "/index.php", or all of it |
| Bootstrap.ParsePath | spitfire/spitfire.php:107-124 | a success always carries an action and an object |
| Bootstrap.ParseRejections | spitfire/spitfire.php:123-124 | the maintenance controller gives 401, an action starting with '_' gives not-found, and nothing else fails |
| Bootstrap.ParseRoundTrip | spitfire/spitfire.php:109-115 | without defaults, controller, action and object joined by "/" give back the path after its first character |
| Bootstrap.EmptySegmentsDefault | spitfire/spitfire.php:109-120 | a path of at most two segments, all empty ("" or "0"), dispatches to the defaults; from a third segment on, the segments are the object |
| Bootstrap.EmptyPathDefaults | spitfire/spitfire.php:118-120 | an empty path dispatches to the configured defaults |
| Bootstrap.Dispatcher.GetPath | spitfire/spitfire.php:99-134 | maintenance mode names the maintenance controller with action and object false; otherwise the parse is stored, or its exception propagates with nothing stored |
| Bootstrap.Dispatcher.Init | spitfire/spitfire.php:27-58 | once started it returns false and does nothing; otherwise started exactly when the path was accepted |
| Bootstrap.InitTwice | spitfire/spitfire.php:29 | a second init after a successful one returns false |
| Apps.NormaliseUrl | App.php:32-34 | the stored URL starts with "/", and after it has no slash or backslash at either end |
| Apps.NormaliseUrlCutsOnlySlashes | App.php:33 | what follows the "/" is a piece of the input, and only slashes and backslashes were cut around it |
| Apps.NormaliseUrlIdempotent | App.php:33 | normalising a normalised URL changes nothing |
| Apps.NormaliseUrlPlain | App.php:33 | a URL with no slash at either end only gains the leading "/" |
| Apps.NewApp | App.php:32-43 | url() returns the normalised URL given to the constructor |
| Validation.NewRule | validation/rules/PositiveNumberValidationRule.php:29-32 | stores both messages |
| Validation.DefaultExtendedMessage | validation/rules/PositiveNumberValidationRule.php:29 | the extended message defaults to "" |
| Validation.Test | validation/rules/PositiveNumberValidationRule.php:42-51 | an error exactly for a negative number, carrying the rule's two messages; null and non-negative numbers pass |
| Validation.TestMonotone | validation/rules/PositiveNumberValidationRule.php:47-50 | whatever passes, every larger number passes |
| Validation.TestIgnoresMessages | validation/rules/PositiveNumberValidationRule.php:42-51 | the verdict does not depend on the messages |
| Sessions.FailureMessage | io/session/Session.php:159 | "Session ID generation failed" when regeneration was allowed, "Session ID validation failed" otherwise |
| Sessions.SessionIdAsWritten | io/session/Session.php:147-163 | see Findings: always the id it read; fails exactly for an unaccepted id that is not regenerated |
| Sessions.TrailingNewlineAccepted | io/session/Session.php:153 | see Findings |
| Sessions.StaleIdReturned | io/session/Session.php:150-162 | see Findings |
| Sessions.SessionId | io/session/Session.php:147-163 | corrected: an empty or well-formed id comes back unchanged; a malformed one fails with the validation message when regeneration is disallowed, with the generation message when it fails, and gives the new id when it succeeds |
| Sessions.WellFormedHasNoNewline | io/session/Session.php:153 | an id ending in a newline is refused |
| Sessions.RegeneratedIdReturned | io/session/Session.php:147-163 | given a well-formed fresh id, no malformed id is ever returned |
| Sessions.SessionIdAgrees | io/session/Session.php:147-163 | both versions agree except on a trailing newline or a successful regeneration |
| Sessions.Session.SessionIdentifier | io/session/Session.php:147-163 | as written: the id read before the call comes back, or the validation or generation failure; after a successful regeneration the session's id is the new one, which is not what is returned; otherwise the id is unchanged |
| Sessions.Session.Get | io/session/Session.php:67-86 | as written: without a cookie the default comes back and nothing is started; otherwise start() runs, and the stored value or the default comes back, except that an object which found the session already running has no accessor and fails with an Error |
| Sessions.Session.constructor | io/session/Session.php:44-47 | a new Session object has no accessor, over a PHP session that may already be running |
| Sessions.Session.Start | io/session/Session.php:91-97 | afterwards the session is active; the accessor is made exactly when this call opened the session |
| Sessions.Lookup | io/session/Session.php:82-84 | has($key) ? get($key) : $default: the stored value when the key is present, the default otherwise |
| Sessions.GetAsWritten | io/session/Session.php:67-86 | as written: no cookie gives the default; a cookie gives the lookup when the accessor exists or start() makes it, and the has()-on-null Error when the session was already active and no accessor was made |
| Sessions.GetMended | io/session/Session.php:67-86 | corrected: with a cookie the stored value or the default, whether or not the session was already running; without one the default |
| Sessions.AlreadyActiveGetFails | io/session/Session.php:80-84 | see Findings: on an already active session a fresh object's get() fails, where the corrected one answers |
| Sessions.GetAgrees | io/session/Session.php:67-97 | when the session is not yet running or this object made the accessor, both versions give the same answer |

## Left out

- Database I/O is not modelled: PDO, prepared statements, fetch(), lastInsertId(). Statements are the strings a method would send, and a connection's answers are parameters.
- LegacyTables.Table.GetById: returns the query it would fetch; the fetch itself is I/O.
- Tables.Table.GetById: the same.
- Collection::increment is left out. `$key` is overwritten by the primary data before use, so its SET clause has no coherent meaning.
- MysqlCollections.Repair: the catches around DESCRIBE and around getField() name `Exception` inside a namespace that imports nothing, so they catch nothing and failures propagate. That is what the model does; create() is therefore never reached from repair().
- MysqlCollections.Delete: the parameter type `Model` (Collection.php:63) is unqualified in a file that imports nothing, so PHP resolves it inside the driver's namespace, where no such class is declared; with a real record the call would raise a TypeError before any SQL is built. The model assumes the declaration accepts the record and builds the statement.
- MysqlCollections.Insert: the same unresolved `Model` parameter type (Collection.php:109) is assumed to accept the record.
- MysqlCollections.Update: the same unresolved `Model` parameter type (Collection.php:135) is assumed to accept the record.
- MysqlCollections.Update: the getField() lookup of a column is a parameter; an unknown key, which throws in the source, is not modelled.
- StdSqlTables.ForeignKeyDefinitions: the fields of the model are a parameter, and repair() of a target table is recorded by name and not carried out.
- Drivers.Driver.Execute: the PDO error state and message are oracle values. Logging goes to an event trace.
- MysqlRestrictions.ToString: the two error_log() calls in the catch-all (mysqlPDORestriction.php:65-66) are not modelled; only the "" it returns is.
- Tables.Table.GetFields: the E_USER_DEPRECATED notice raised by trigger_error() (storage/database/Table.php:111) is not modelled; only the value returned is.
- Tables.Table.GetField: the same deprecation notice (storage/database/Table.php:116) is not modelled.
- Tables.Table.GetTablename: the same deprecation notice (storage/database/Table.php:127) is not modelled.
- Drivers.Driver.Execute: DB::repair() is recorded as a `Repair` event; the statements it sends and whether it throws are not modelled.
- Logical.Field.Validate: the message is the translation key `err_field_null`; `_t()` translation is not modelled.
- Queriables.Like: `Restriction::LIKE_OPERATOR` is taken to be "LIKE"; its declaration is not part of this model.
- LegacyTables.Table.HitCache: a float id, which PHP truncates to an integer key, is not modelled; the model has no floating-point values.
- LegacyTables.Table.GetField: DBField::getTable() is not part of this model; a column's table is taken to be its logical field's table.
- LegacyTables.OwnFieldsAccepted: that each logical field's schema is the schema holding it is a hypothesis; the schema's registration of its fields is not part of this model.
- Logical.Stamp: a list of columns, made by field types that override makePhysical() (not part of this model), keeps the names the factory gives it; only a single column is named after the field.
- Routing.Router.AddRoute: the numeric values of the Route method flags are not part of this model's sources; those used here (GET 1, POST 2, HEAD 4, PUT 8, DELETE 16, OPTIONS 32) are assumed.
- Routing.Router.Scope: what the `$do` callback does to the child is left out; the call itself always ends in an Error, modelled as a failure.
- Routing.Router.Rewrite: `Route`, `URIPattern` and `Path` are not part of this model. Route matching and rewriting are a parameter (`Matcher`).
- Bootstrap.Dispatcher.GetPath: the controller is compared with the maintenance controller by exact string equality, not PHP's loose `==`, which treats numeric strings as numbers.
- Bootstrap.Dispatcher.Init: the autoloader, includes, error handlers and environment loading are left out; the legacy static router's rewrite is a parameter.
- Validation.Test: only null and numbers are modelled. PHP's loose `<` on strings, booleans and arrays is left out.
- Sessions.Session.Get: the dot-notation accessor is modelled as a plain key lookup, and session_start() only marks the session active.
- Sessions.Session.Start: the data under the namespace is fixed for the request; set() and other writers are not modelled.
- Session::start, set and destroy are left out (the PHP session extension and cookies).
- QueryTable::getField/getFields are left out: they go through the database's object factory, which is not part of this model.
- core/Response.php and the kernel wiring are left out.
- 32- or 64-bit integer bounds are not modelled: ids and the alias counter are unbounded naturals.

## Findings

| source | as written | input that shows it | evidently intended | confidence | as-written member | corrected member |
|---|---|---|---|---|---|---|
| core/router/Router.php:125 | rtrim(parent, '/') . ltrim(scope, '/') drops the separator | parent "/api", scope "/v1" gives "/apiv1" | "/api/v1", a namespace under the parent | not executed; high | Routing.ScopeAsWrittenLosesSeparator | Routing.ScopedNamespaceKeepsSeparator |
| io/session/Session.php:153 | the pattern `^[-,a-zA-Z0-9]{1,128}$` has no D modifier, so `$` also matches before a final newline | session id "abc\n" is accepted | only ids made entirely of the allowed characters | not executed; medium | Sessions.TrailingNewlineAccepted | Sessions.WellFormedHasNoNewline |
| io/session/Session.php:150-162 | after a successful session_regenerate_id() it returns `$sid`, read before the regeneration | session id "a b" with regeneration allowed and succeeding returns "a b" | the new, valid id | not executed; high | Sessions.StaleIdReturned | Sessions.RegeneratedIdReturned |
| io/session/Session.php:80-97 | start() makes the accessor only when it starts the session itself, so get() on a Session object created while the session is already running calls has() on null | a session started by another Session object, then `(new Session())->get("k")` with a cookie | the stored value or the default | not executed; medium | Sessions.AlreadyActiveGetFails | Sessions.GetMended |
| storage/database/drivers/mysqlpdo/Collection.php:45-49 | `catch(Exception $e)` inside the namespace `spitfire\storage\database\drivers\mysqlpdo`, with no `use`, names a class that does not exist, so a DESCRIBE row getField() cannot resolve aborts repair() | a table whose DESCRIBE lists a column the model no longer declares | the row is ignored ("/*Ignore*/") and the missing fields are added | not executed; high | MysqlCollections.UnresolvedRowAborts | MysqlCollections.RepairAddsMissing |
