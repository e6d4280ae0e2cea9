/**
 * The MySQL collection (storage/database/drivers/mysqlpdo/Collection.php): the SQL text
 * of DELETE, INSERT, UPDATE and CREATE TABLE for a record or a table, and repair(),
 * which adds back the declared columns a DESCRIBE of the table does not report.
 *
 * The driver's quote() and the SQL text of a table's field are parameters; the
 * statements are handed to the driver's execute() (module Drivers).
 */
module MysqlCollections {
  import opened Wrappers
  import opened OrderedMaps
  import opened Php
  import opened Entities
  import opened Drivers
  import opened StdSqlTables

  /** "column = quoted value" for each pair of a map, in order. */
  function Assignments(m: OMap<Value>, column: string -> string, quote: Value -> string): (r: seq<string>)
    ensures |r| == |m| && forall i :: 0 <= i < |m| ==> r[i] == column(m[i].0) + " = " + quote(m[i].1)
  {
    seq(|m|, i requires 0 <= i < |m| => column(m[i].0) + " = " + quote(m[i].1))
  }

  /** foreach ($key as $k => $v) $restrictions[] = ...: one assignment per pair, appended in order. */
  method AssignEach(m: OMap<Value>, column: string -> string, quote: Value -> string) returns (parts: seq<string>)
    ensures parts == Assignments(m, column, quote)
  {
    parts := [];
    var i := 0;
    while i < |m|
      invariant 0 <= i <= |m| && |parts| == i
      invariant forall j :: 0 <= j < i ==> parts[j] == column(m[j].0) + " = " + quote(m[j].1)
    {
      parts := parts + [column(m[i].0) + " = " + quote(m[i].1)];
      i := i + 1;
    }
  }

  /** The key names of delete() are used as they are ('%s = %s'). */
  function Verbatim(k: string): string { k }

  /** The DELETE statement for a record: its table, then one "k = quote(v)" conjunct per primary-data pair. */
  function DeleteSql(table: string, key: OMap<Value>, quote: Value -> string): string
  {
    "DELETE FROM " + table + " WHERE " + Join(Assignments(key, Verbatim, quote), " AND ")
  }

  /** delete($record): the statement it executes. */
  method Delete(table: string, record: Record, quote: Value -> string) returns (stmt: string)
    ensures stmt == DeleteSql(table, record.primaryData, quote)
    ensures |stmt| >= |"DELETE FROM " + table + " WHERE "| && stmt[..|"DELETE FROM " + table + " WHERE "|] == "DELETE FROM " + table + " WHERE "
  {
    var restrictions := AssignEach(record.primaryData, Verbatim, quote);
    stmt := "DELETE FROM " + table + " WHERE " + Join(restrictions, " AND ");
  }

  /** A further primary-key pair adds exactly one " AND k = quote(v)" conjunct at the end. */
  lemma DeleteSnoc(table: string, key: OMap<Value>, k: string, v: Value, quote: Value -> string)
    requires key != []
    ensures DeleteSql(table, key + [(k, v)], quote) == DeleteSql(table, key, quote) + " AND " + k + " = " + quote(v)
  {
    var parts := Assignments(key, Verbatim, quote);
    assert Assignments(key + [(k, v)], Verbatim, quote) == parts + [k + " = " + quote(v)];
    JoinSnoc(parts, k + " = " + quote(v), " AND ");
  }

  /** A record with a single primary key deletes by that one equality. */
  lemma DeleteSingleKey(table: string, k: string, v: Value, quote: Value -> string)
    ensures DeleteSql(table, [(k, v)], quote) == "DELETE FROM " + table + " WHERE " + k + " = " + quote(v)
  {
    assert Assignments([(k, v)], Verbatim, quote) == [k + " = " + quote(v)];
  }

  /** The data written for a record: each adapter's dbGetData() merged in turn over the ones before. */
  function MergeAll(data: seq<OMap<Value>>): OMap<Value>
  {
    if data == [] then [] else Merge(MergeAll(data[..|data| - 1]), data[|data| - 1])
  }

  /** $write = array_merge($write, $d): the pairs of d assigned into write one by one. */
  method MergeInto(write: OMap<Value>, d: OMap<Value>) returns (r: OMap<Value>)
    ensures r == Merge(write, d)
  {
    r := write;
    var i := 0;
    while i < |d|
      invariant 0 <= i <= |d|
      invariant r == Merge(write, d[..i])
    {
      assert d[..i + 1][..i] == d[..i];
      r := Put(r, d[i].0, d[i].1);
      i := i + 1;
    }
    assert d[..i] == d;
  }

  /** foreach ($data as $value) $write = array_merge($write, $value->dbGetData()); */
  method WriteData(data: seq<OMap<Value>>) returns (write: OMap<Value>)
    ensures write == MergeAll(data)
  {
    write := [];
    var i := 0;
    while i < |data|
      invariant 0 <= i <= |data|
      invariant write == MergeAll(data[..i])
    {
      assert data[..i + 1][..i] == data[..i];
      write := MergeInto(write, data[i]);
      i := i + 1;
    }
    assert data[..i] == data;
  }

  /** Merging adapters that each have distinct columns never repeats a column. */
  lemma {:induction false} MergeAllUnique(data: seq<OMap<Value>>)
    requires forall i :: 0 <= i < |data| ==> UniqueKeys(data[i])
    ensures UniqueKeys(MergeAll(data))
  {
    if data != [] {
      var pre := data[..|data| - 1];
      assert forall i :: 0 <= i < |pre| ==> pre[i] == data[i];
      MergeAllUnique(pre);
      MergeGet(MergeAll(pre), data[|data| - 1]);
    }
  }

  /** Of two adapters writing the same column, the later one's value is written. */
  lemma LaterAdapterWins(earlier: seq<OMap<Value>>, d: OMap<Value>, k: string)
    requires UniqueKeys(d) && k in KeySet(d)
    ensures Get(MergeAll(earlier + [d]), k) == Get(d, k)
  {
    assert (earlier + [d])[..|earlier + [d]| - 1] == earlier;
    MergeGet(MergeAll(earlier), d);
  }

  function Backticked(ks: seq<string>): (r: seq<string>)
    ensures |r| == |ks| && forall i :: 0 <= i < |ks| ==> r[i] == "`" + ks[i] + "`"
  {
    seq(|ks|, i requires 0 <= i < |ks| => "`" + ks[i] + "`")
  }

  /** The INSERT statement: the written columns backticked and their values quoted, both in the order of the merged data. */
  function InsertSql(table: string, write: OMap<Value>, quote: Value -> string): string
  {
    "INSERT INTO " + table + " (" + Join(Backticked(Keys(write)), ", ") + ") VALUES (" +
    Join(seq(|write|, i requires 0 <= i < |write| => quote(write[i].1)), ", ") + ")"
  }

  /**
   * insert($record): the statement it executes. The column list and the value list
   * come from one merged map, so they have the same length and the i-th value is the
   * quoted value written to the i-th column.
   */
  method Insert(table: string, record: Record, quote: Value -> string)
    returns (stmt: string, columns: seq<string>, quoted: seq<string>)
    ensures stmt == "INSERT INTO " + table + " (" + Join(columns, ", ") + ") VALUES (" + Join(quoted, ", ") + ")"
    ensures var write := MergeAll(record.data);
            |columns| == |quoted| == |write| &&
            forall i :: 0 <= i < |write| ==> columns[i] == "`" + write[i].0 + "`" && quoted[i] == quote(write[i].1)
    ensures stmt == InsertSql(table, MergeAll(record.data), quote)
  {
    var write := WriteData(record.data);
    var fields := Keys(write);
    columns := [];
    var i := 0;
    while i < |fields|
      invariant 0 <= i <= |fields| && |columns| == i
      invariant forall j :: 0 <= j < i ==> columns[j] == "`" + fields[j] + "`"
    {
      columns := columns + ["`" + fields[i] + "`"];
      i := i + 1;
    }
    quoted := seq(|write|, i requires 0 <= i < |write| => quote(write[i].1));
    stmt := "INSERT INTO " + table + " (" + Join(columns, ", ") + ") VALUES (" + Join(quoted, ", ") + ")";
    assert columns == Backticked(Keys(write));
  }

  /** The UPDATE statement: the written columns as SET assignments, the primary key as WHERE conjuncts, all values quoted. */
  function UpdateSql(table: string, key: OMap<Value>, write: OMap<Value>, column: string -> string, quote: Value -> string): string
  {
    "UPDATE " + table + " SET " + Join(Assignments(write, column, quote), ", ") +
    " WHERE " + Join(Assignments(key, column, quote), " AND ")
  }

  /** update($record): the statement it executes; column(k) is the SQL text of the table's field k. */
  method Update(table: string, record: Record, column: string -> string, quote: Value -> string)
    returns (stmt: string)
    ensures stmt == UpdateSql(table, record.primaryData, MergeAll(record.data), column, quote)
  {
    var restrictions := AssignEach(record.primaryData, column, quote);
    var write := WriteData(record.data);
    var quoted := AssignEach(write, column, quote);
    stmt := "UPDATE " + table + " SET " + Join(quoted, ", ") + " WHERE " + Join(restrictions, " AND ");
  }

  /** A single-key record with a single written column updates that column where the key matches. */
  lemma UpdateSingle(table: string, k: string, kv: Value, c: string, cv: Value, column: string -> string, quote: Value -> string)
    ensures UpdateSql(table, [(k, kv)], [(c, cv)], column, quote) ==
              "UPDATE " + table + " SET " + column(c) + " = " + quote(cv) + " WHERE " + column(k) + " = " + quote(kv)
  {
    assert Assignments([(k, kv)], column, quote) == [column(k) + " = " + quote(kv)];
    assert Assignments([(c, cv)], column, quote) == [column(c) + " = " + quote(cv)];
  }

  /** array_filter() on strings: "" and "0" are falsy and dropped; the rest keep their order. */
  function Clean(defs: seq<string>): seq<string>
  {
    if defs == [] then []
    else
      var rest := Clean(defs[..|defs| - 1]);
      var last := defs[|defs| - 1];
      if last == "" || last == "0" then rest else rest + [last]
  }

  /** The filter keeps exactly the definitions that are neither "" nor "0". */
  lemma {:induction false} CleanMember(defs: seq<string>)
    ensures forall d :: d in Clean(defs) <==> d in defs && d != "" && d != "0"
  {
    if defs != [] {
      CleanMember(defs[..|defs| - 1]);
      assert defs == defs[..|defs| - 1] + [defs[|defs| - 1]];
    }
  }

  /** $clean = array_filter($definitions) */
  method FilterEmpty(defs: seq<string>) returns (clean: seq<string>)
    ensures clean == Clean(defs)
  {
    clean := [];
    var i := 0;
    while i < |defs|
      invariant 0 <= i <= |defs|
      invariant clean == Clean(defs[..i])
    {
      assert defs[..i + 1][..i] == defs[..i];
      if defs[i] != "" && defs[i] != "0" {
        clean := clean + [defs[i]];
      }
      i := i + 1;
    }
    assert defs[..i] == defs;
  }

  /** Clean works on the two parts of a list separately. */
  lemma {:induction false} CleanAppend(a: seq<string>, b: seq<string>)
    ensures Clean(a + b) == Clean(a) + Clean(b)
    decreases |b|
  {
    if b == [] {
      assert a + b == a;
    } else {
      var pre := b[..|b| - 1];
      assert (a + b)[..|a + b| - 1] == a + pre;
      CleanAppend(a, pre);
    }
  }

  function PrimaryKeyClause(pk: seq<string>): string
  {
    "PRIMARY KEY(" + Join(pk, ", ") + ")"
  }

  /**
   * The definitions of CREATE TABLE before filtering: the column definitions, then the
   * foreign keys when there are any, then the primary key when it is not empty.
   */
  function Definitions(columns: seq<string>, foreignKeys: seq<string>, pk: seq<string>): seq<string>
  {
    columns + foreignKeys + (if pk == [] then [] else [PrimaryKeyClause(pk)])
  }

  function CreateSql(table: string, columns: seq<string>, foreignKeys: seq<string>, pk: seq<string>): string
  {
    "CREATE TABLE " + table + " (" + Join(Clean(Definitions(columns, foreignKeys, pk)), ", ") + ")"
  }

  /**
   * create(): the statement it executes, from the table's fields, the references of
   * its model (module StdSqlTables) and its primary key; also the targets repaired
   * on the way.
   */
  method Create(table: string, fields: OMap<DBField>, refs: OMap<RefInfo>, self: string, rnd: nat -> nat, pk: OMap<DBField>)
    returns (stmt: string, repaired: seq<string>)
    requires UniqueKeys(fields) && UniqueKeys(refs)
    ensures stmt == CreateSql(table, ColumnDefs(fields), FkClauses(References(refs), rnd), Backticked(FieldNames(Values(pk))))
    ensures repaired == RepairTargets(References(refs), self)
  {
    var definitions := ColumnDefinitions(fields);
    var foreignKeys;
    foreignKeys, repaired := ForeignKeyDefinitions(refs, self, rnd);
    var pkNames := NamesOf(Values(pk));
    var ticked: seq<string> := [];
    var i := 0;
    while i < |pkNames|
      invariant 0 <= i <= |pkNames| && |ticked| == i
      invariant forall j :: 0 <= j < i ==> ticked[j] == "`" + pkNames[j] + "`"
    {
      ticked := ticked + ["`" + pkNames[i] + "`"];
      i := i + 1;
    }
    var defs := Values(definitions);
    if foreignKeys != [] {
      defs := defs + foreignKeys;
    }
    if ticked != [] {
      defs := defs + [PrimaryKeyClause(ticked)];
    }
    assert ticked == Backticked(FieldNames(Values(pk)));
    assert defs == Definitions(Values(definitions), foreignKeys, ticked);
    var clean := FilterEmpty(defs);
    stmt := "CREATE TABLE " + table + " (" + Join(clean, ", ") + ")";
  }

  /**
   * The primary key, when there is one, is the last definition; empty definitions are
   * dropped; every non-empty column definition and foreign key is kept, in order.
   */
  lemma CreateShape(columns: seq<string>, foreignKeys: seq<string>, pk: seq<string>)
    ensures pk != [] ==> var c := Clean(Definitions(columns, foreignKeys, pk));
                         |c| > 0 && c[|c| - 1] == PrimaryKeyClause(pk)
    ensures pk == [] ==> Clean(Definitions(columns, foreignKeys, pk)) == Clean(columns) + Clean(foreignKeys)
    ensures "" !in Clean(Definitions(columns, foreignKeys, pk))
  {
    CleanAppend(columns, foreignKeys);
    CleanMember(Definitions(columns, foreignKeys, pk));
    if pk != [] {
      var clause := PrimaryKeyClause(pk);
      assert clause[0] == 'P';
      CleanAppend(columns + foreignKeys, [clause]);
      assert Clean([clause]) == [clause] by { assert [clause][..0] == []; }
    } else {
      assert Definitions(columns, foreignKeys, pk) == columns + foreignKeys;
    }
  }

  /** Foreign-key clauses are never dropped by the filter. */
  lemma {:induction false} ForeignKeysKept(foreignKeys: seq<string>)
    requires forall i :: 0 <= i < |foreignKeys| ==> EndsWith(foreignKeys[i], Cascade)
    ensures Clean(foreignKeys) == foreignKeys
  {
    if foreignKeys != [] {
      var pre := foreignKeys[..|foreignKeys| - 1];
      var last := foreignKeys[|foreignKeys| - 1];
      assert forall i :: 0 <= i < |pre| ==> pre[i] == foreignKeys[i];
      ForeignKeysKept(pre);
      assert |last| >= |Cascade| > 1;
      assert foreignKeys == pre + [last];
    }
  }

  /** The fields of a table, minus those whose names are in gone, in order. */
  function Without(fields: OMap<DBField>, gone: set<string>): (r: OMap<DBField>)
    ensures forall i :: 0 <= i < |r| ==> r[i] in fields && r[i].0 !in gone
    ensures forall i :: 0 <= i < |fields| && fields[i].0 !in gone ==> fields[i] in r
  {
    if fields == [] then []
    else if fields[0].0 in gone then Without(fields[1..], gone)
    else [fields[0]] + Without(fields[1..], gone)
  }

  /** unset() of one more name from the remaining fields is the same as leaving out one more name. */
  lemma {:induction false} RemoveWithout(fields: OMap<DBField>, gone: set<string>, k: string)
    ensures Remove(Without(fields, gone), k) == Without(fields, gone + {k})
  {
    if fields != [] {
      RemoveWithout(fields[1..], gone, k);
    }
  }

  /**
   * What $this->getField($f['Field'])->getName() gives for one DESCRIBE row: the field
   * name, or what is raised (getField()'s exception, or the Error of calling getName()
   * on null).
   */
  type Resolver = string -> Result<string, Exception>

  /** The names of the fields the DESCRIBE rows resolve to (rows that do not resolve are passed over). */
  function Resolved(rows: seq<string>, getField: Resolver): set<string>
  {
    set i | 0 <= i < |rows| && getField(rows[i]).Success? :: getField(rows[i]).value
  }

  lemma ResolvedSnoc(rows: seq<string>, j: nat, getField: Resolver)
    requires j < |rows|
    ensures Resolved(rows[..j + 1], getField) ==
            Resolved(rows[..j], getField) + (if getField(rows[j]).Success? then {getField(rows[j]).value} else {})
  {
    var a := rows[..j + 1];
    var b := rows[..j];
    forall x ensures x in Resolved(a, getField) <==> x in Resolved(b, getField) + (if getField(rows[j]).Success? then {getField(rows[j]).value} else {}) {
      if x in Resolved(a, getField) {
        var i :| 0 <= i < |a| && getField(a[i]).Success? && getField(a[i]).value == x;
        if i < j { assert a[i] == b[i]; }
      }
      if x in Resolved(b, getField) {
        var i :| 0 <= i < |b| && getField(b[i]).Success? && getField(b[i]).value == x;
        assert a[i] == b[i];
      }
      if getField(rows[j]).Success? && x == getField(rows[j]).value {
        assert a[j] == rows[j];
      }
    }
  }

  /** What the first DESCRIBE row that does not resolve raises, if there is one. */
  function FirstUnresolved(rows: seq<string>, getField: Resolver): (r: Option<Exception>)
    ensures r.None? <==> forall i :: 0 <= i < |rows| ==> getField(rows[i]).Success?
    ensures r.Some? ==> exists i :: 0 <= i < |rows| && getField(rows[i]) == Failure(r.value) &&
                          forall k :: 0 <= k < i ==> getField(rows[k]).Success?
  {
    if rows == [] then None
    else if getField(rows[0]).Failure? then Some(getField(rows[0]).error)
    else
      var r := FirstUnresolved(rows[1..], getField);
      assert forall k :: 1 <= k < |rows| ==> rows[k] == rows[1..][k - 1];
      if r.Some? then
        ghost var i :| 0 <= i < |rows[1..]| && getField(rows[1..][i]) == Failure(r.value) &&
                       forall k :: 0 <= k < i ==> getField(rows[1..][k]).Success?;
        assert getField(rows[i + 1]) == Failure(r.value);
        r
      else r
  }

  lemma {:induction false} WithoutNothing(fields: OMap<DBField>)
    ensures Without(fields, {}) == fields
  {
    if fields != [] {
      WithoutNothing(fields[1..]);
    }
  }

  /**
   * The row loop of repair() as written: every row's field is unset in turn, and the
   * first row that does not resolve raises out of the loop, since the catch around
   * it names a class that does not exist in the driver's namespace.
   */
  function UnsetAsWritten(fields: OMap<DBField>, rows: seq<string>, getField: Resolver): (r: Result<OMap<DBField>, Exception>)
    ensures r.Success? <==> forall i :: 0 <= i < |rows| ==> getField(rows[i]).Success?
    ensures r.Success? ==> r.value == Without(fields, Resolved(rows, getField))
  {
    match FirstUnresolved(rows, getField)
    case Some(e) => Failure(e)
    case None => Success(Without(fields, Resolved(rows, getField)))
  }

  /**
   * while ($f = $query->fetch()) unset($fields[$this->getField($f['Field'])->getName()]):
   * the fields left once every reported row is unset, or what the first unresolved row raises.
   */
  method Unreported(fields: OMap<DBField>, rows: seq<string>, getField: Resolver) returns (left: Result<OMap<DBField>, Exception>)
    ensures left == UnsetAsWritten(fields, rows, getField)
  {
    var rest := fields;
    var j := 0;
    assert Resolved(rows[..0], getField) == {};
    WithoutNothing(fields);
    while j < |rows|
      invariant 0 <= j <= |rows|
      invariant forall k :: 0 <= k < j ==> getField(rows[k]).Success?
      invariant FirstUnresolved(rows, getField) == FirstUnresolved(rows[j..], getField)
      invariant rest == Without(fields, Resolved(rows[..j], getField))
    {
      var f := getField(rows[j]);
      assert rows[j..][1..] == rows[j + 1..];
      if f.Failure? {
        return Failure(f.error);
      }
      ghost var gone := Resolved(rows[..j], getField);
      ResolvedSnoc(rows, j, getField);
      RemoveWithout(fields, gone, f.value);
      rest := Remove(rest, f.value);
      j := j + 1;
    }
    assert rows[..j] == rows;
    left := Success(rest);
  }

  function DescribeSql(table: string): string { "DESCRIBE " + table }

  /**
   * repair(): DESCRIBE the table with repair disabled; a failure propagates (the catch
   * meant to create the table instead names a class that does not exist in the driver's
   * namespace). Otherwise every row's field is unset from the declared fields, a row
   * that does not resolve aborting repair() with what it raised, and add() is called
   * on each field that is left, in declaration order. rows are the Field column of
   * the rows DESCRIBE returns.
   */
  method Repair(d: Driver, table: string, fields: OMap<DBField>, rows: seq<string>, getField: Resolver)
    returns (r: Result<seq<DBField>, Exception>)
    modifies d
    ensures var runs := old(d.connected) || d.connectError.None?;
            var res := ExecResult(DescribeSql(table), false, d.run, old(d.sent));
            (runs ==> d.trace == old(d.trace) + (if old(d.connected) then [] else [Connected]) +
                                 ExecEvents(DescribeSql(table), false, d.run, old(d.sent))) &&
            (runs && res.Failure? ==> r == Failure(res.error)) &&
            (!runs ==> r == Failure(ConnectFailure(d.connectError.value.0))) &&
            (runs && res.Success? ==> r == AddedBack(UnsetAsWritten(fields, rows, getField)))
    ensures r.Success? ==> r.value == Values(Without(fields, Resolved(rows, getField)))
  {
    var query := d.Execute(DescribeSql(table), false);
    if query.Failure? {
      return Failure(query.error);
    }
    var left := Unreported(fields, rows, getField);
    if left.Failure? {
      return Failure(left.error);
    }
    r := Success(Values(left.value));
  }

  /** The fields add() is called on, from the outcome of the row loop. */
  function AddedBack(left: Result<OMap<DBField>, Exception>): (r: Result<seq<DBField>, Exception>)
    ensures left.Failure? ==> r == Failure(left.error)
    ensures left.Success? ==> r == Success(Values(left.value))
  {
    match left
    case Success(l) => Success(Values(l))
    case Failure(e) => Failure(e)
  }

  /**
   * One DESCRIBE row that getField() cannot resolve, a column the model no longer
   * declares say, aborts the row loop as written, so no field is added back; the
   * loop as evidently intended passes over it.
   */
  lemma UnresolvedRowAborts(fields: OMap<DBField>, rows: seq<string>, getField: Resolver, i: nat)
    requires i < |rows| && getField(rows[i]).Failure?
    ensures UnsetAsWritten(fields, rows, getField).Failure?
    ensures UnsetAsWritten(fields, rows, getField).error == FirstUnresolved(rows, getField).value
  {
  }

  /**
   * The row loop as evidently intended, passing over unresolved rows: a declared field
   * is added back exactly when no DESCRIBE row resolves to its name. When every row
   * resolves, this is also what the loop as written leaves.
   */
  lemma RepairAddsMissing(fields: OMap<DBField>, rows: seq<string>, getField: Resolver, e: (string, DBField))
    requires e in fields
    ensures e in Without(fields, Resolved(rows, getField)) <==>
            forall i :: 0 <= i < |rows| ==> getField(rows[i]) != Success(e.0)
    ensures UnsetAsWritten(fields, rows, getField).Success? ==>
              (e in UnsetAsWritten(fields, rows, getField).value <==>
               forall i :: 0 <= i < |rows| ==> getField(rows[i]) != Success(e.0))
  {
  }
}
