/**
 * A table as it takes part in a query (storage/database/QueryTable.php). Every
 * occurrence gets an id from one process-wide counter, so that a table joined to
 * itself can be told apart by its alias "name_id".
 */
module QueryTables {
  import opened Php

  /** The static QueryTable::$counter, as an object of its own. */
  class AliasCounter {
    var next: nat

    /** The counter starts at 1. */
    constructor()
      ensures next == 1
    {
      next := 1;
    }

    /** self::$counter++: hands out the current value and moves on. */
    method Take() returns (id: nat)
      modifies this
      ensures id == old(next) && next == old(next) + 1
    {
      id := next;
      next := next + 1;
    }
  }

  /** sprintf('%s_%s', $name, $id) */
  function AliasOf(name: string, id: nat): (r: string)
    ensures |r| > |name| + 1 && r[..|name|] == name && r[|name|] == '_'
  {
    name + "_" + NatToString(id)
  }

  class QueryTable {
    const table: object?
    /** The layout's table name. */
    const name: string
    var id: nat
    var aliased: bool

    /** A new occurrence of a table: it takes the counter's value as its id and is not aliased. */
    constructor(c: AliasCounter, table: object?, name: string)
      modifies c
      ensures id == old(c.next) && c.next == old(c.next) + 1
      ensures !aliased && this.table == table && this.name == name
    {
      this.table := table;
      this.name := name;
      aliased := false;
      new;
      id := c.Take();
    }

    function GetId(): nat
      reads this
    {
      id
    }

    /** setId($id): overwrites the id; the counter is not involved. */
    method SetId(i: nat)
      modifies this
      ensures id == i && aliased == old(aliased)
    {
      id := i;
    }

    /** newId(): a fresh id from the counter. */
    method NewId(c: AliasCounter)
      modifies this, c
      ensures id == old(c.next) && c.next == old(c.next) + 1 && aliased == old(aliased)
    {
      id := c.Take();
    }

    method SetAliased(a: bool)
      modifies this
      ensures aliased == a && id == old(id) && IsAliased() == a
    {
      aliased := a;
    }

    function IsAliased(): bool
      reads this
    {
      aliased
    }

    /** getAlias(): "name_id" when aliased, the bare table name otherwise. */
    function Alias(): (r: string)
      reads this
      ensures aliased ==> r == AliasOf(name, id)
      ensures !aliased ==> r == name
    {
      if aliased then AliasOf(name, id) else name
    }
  }

  lemma {:induction false} NatToStringNoUnderscore(n: nat)
    ensures '_' !in NatToString(n)
  {
    if n >= 10 {
      NatToStringNoUnderscore(n / 10);
    }
  }

  /** An alias names its table and its id: the last '_' separates them. */
  lemma AliasSplits(name: string, id: nat)
    ensures '_' in AliasOf(name, id) && LastIndex(AliasOf(name, id), '_') == |name|
  {
    var a := AliasOf(name, id);
    NatToStringNoUnderscore(id);
    assert a[|name|] == '_';
    assert a[|name| + 1..] == NatToString(id);
  }

  /** Different (table, id) pairs never share an alias; in particular two occurrences of one table with different ids. */
  lemma AliasInjective(n1: string, i1: nat, n2: string, i2: nat)
    requires AliasOf(n1, i1) == AliasOf(n2, i2)
    ensures n1 == n2 && i1 == i2
  {
    var a := AliasOf(n1, i1);
    AliasSplits(n1, i1);
    AliasSplits(n2, i2);
    assert |n1| == |n2|;
    assert n1 == a[..|n1|] == n2;
    assert a[|n1| + 1..] == NatToString(i1) == NatToString(i2);
    NatToStringInjective(i1, i2);
  }

  /** Two tables built one after the other get increasing ids, hence different aliases once aliased. */
  method TwoOccurrences(c: AliasCounter, table: object?, name: string) returns (a: QueryTable, b: QueryTable)
    modifies c
    ensures a.id < b.id && b.id == a.id + 1 && c.next == b.id + 1
    ensures fresh(a) && fresh(b) && a != b
  {
    a := new QueryTable(c, table, name);
    b := new QueryTable(c, table, name);
  }

  lemma AliasesDiffer(name: string, i: nat, j: nat)
    requires i != j
    ensures AliasOf(name, i) != AliasOf(name, j)
  {
    if AliasOf(name, i) == AliasOf(name, j) {
      AliasInjective(name, i, name, j);
    }
  }
}

/**
 * A field as it takes part in a query (storage/database/QueryField.php): the query
 * table it is read from, the field it wraps (logical or physical), and the query it
 * belongs to once set.
 */
module QueryFields {
  import opened Wrappers
  import opened Entities
  import opened Logical
  import opened Queries
  import opened QueryTables

  /** The wrapped field: a logical field of the model, or a physical column. */
  datatype Wrapped = LogicalField(f: Field) | PhysicalField(p: DBField)

  /** What $query->queryFieldInstance($field) yields: the physical field scoped to the query. */
  datatype ScopedField = ScopedField(query: Query, field: DBField)

  /**
   * The outcome of getPhysical(): null for a physical field; for a logical field the
   * scoped list, a failure when physical fields need scoping and no query is set, or
   * the Error the logical field's getPhysical() raised.
   */
  datatype PhysicalOutcome = NotLogical | NoQuery | Raised(e: Exception) | Fields(fs: seq<ScopedField>)

  class QueryField {
    const table: QueryTable
    const field: Wrapped
    var query: Query?

    constructor(table: QueryTable, field: Wrapped)
      ensures this.table == table && this.field == field && query == null
    {
      this.table := table;
      this.field := field;
      query := null;
    }

    method SetQuery(q: Query?)
      modifies this
      ensures query == q && GetQuery() == q
    {
      query := q;
    }

    function GetQuery(): Query?
      reads this
    {
      query
    }

    function GetQueryTable(): QueryTable { table }

    function GetField(): Wrapped { field }

    /** isLogical(): the wrapped field is a logical field. */
    predicate IsLogical() { field.LogicalField? }

    /**
     * getPhysical(): for a logical field, one scoped query field per physical field,
     * in the same order; nothing for a physical field. An Error from the logical
     * field's getPhysical() propagates.
     */
    method GetPhysical() returns (r: PhysicalOutcome)
      modifies if field.LogicalField? then {field.f} else {}
      ensures !IsLogical() <==> r.NotLogical?
      ensures IsLogical() ==> (r.Raised? <==> !old(field.f.Ready()))
      ensures IsLogical() && r.Raised? ==> field.f.physical == None && TableDb(field.f.schema) == Failure(r.e)
      ensures IsLogical() && !r.Raised? ==> field.f.physical.Some?
      ensures IsLogical() && old(field.f.physical).Some? ==>
                field.f.physical == old(field.f.physical) && field.f.makeCalls == old(field.f.makeCalls)
      ensures IsLogical() && old(field.f.physical).None? ==> field.f.makeCalls == old(field.f.makeCalls) + 1
      ensures IsLogical() && old(field.f.physical).None? && !r.Raised? ==>
                field.f.physical == Some(Logical.Stamp(field.f.made, field.f, field.f.name))
      ensures IsLogical() && !r.Raised? && query != null ==>
                r.Fields? && |r.fs| == |AsList(field.f.physical.value)| &&
                forall i :: 0 <= i < |r.fs| ==> r.fs[i] == ScopedField(query, AsList(field.f.physical.value)[i])
      ensures IsLogical() && !r.Raised? && query == null ==>
                (if AsList(field.f.physical.value) == [] then r == Fields([]) else r == NoQuery)
    {
      if !field.LogicalField? {
        return NotLogical;
      }
      var physical := field.f.GetPhysical();
      if physical.Failure? {
        return Raised(physical.error);
      }
      var fields := physical.value;
      if fields == [] {
        return Fields([]);
      }
      if query == null {
        return NoQuery;
      }
      var out: seq<ScopedField> := [];
      var i := 0;
      while i < |fields|
        invariant 0 <= i <= |fields| && |out| == i
        invariant forall j :: 0 <= j < i ==> out[j] == ScopedField(query, fields[j])
      {
        out := out + [ScopedField(query, fields[i])];
        i := i + 1;
      }
      r := Fields(out);
    }
  }

  /** getQueryTable() and getField() give back what the constructor was given; setQuery()/getQuery() round-trip. */
  lemma Accessors(qf: QueryField)
    ensures qf.GetQueryTable() == qf.table && qf.GetField() == qf.field
    ensures qf.IsLogical() <==> qf.GetField().LogicalField?
  {
  }
}
