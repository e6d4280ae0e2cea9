/**
 * The newer table class (storage/database/Table.php). The physical fields now live in
 * a layout the object factory builds for the table; the table memoises its primary key
 * and auto-increment column and builds getById() queries.
 */
module Tables {
  import opened Wrappers
  import opened OrderedMaps
  import opened Entities
  import opened Logical
  import opened Queries
  import opened TableKeys

  /**
   * The layout (physical schema) the factory made for a table: its name, its fields
   * keyed by name, and its answer to getField() for each argument.
   */
  class Layout {
    const tableName: string
    const fields: OMap<DBField>
    const lookup: FieldRef -> Option<DBField>

    constructor(tableName: string, fields: OMap<DBField>, lookup: FieldRef -> Option<DBField>)
      ensures this.tableName == tableName && this.fields == fields && this.lookup == lookup
    {
      this.tableName := tableName;
      this.fields := fields;
      this.lookup := lookup;
    }
  }

  const NotASchema: Exception := PrivateException("Table requires a Schema to be passed", 0)

  class Table {
    const schema: Schema
    const layout: Layout
    var primaryK: Option<OMap<DBField>>
    var autoIncrement: Option<DBField>

    /** The table of schema s: the schema is pointed back at the table and the layout is attached. */
    constructor(s: Schema, layout: Layout)
      modifies s
      ensures schema == s && s.table == this && this.layout == layout
      ensures primaryK == None && autoIncrement == None
    {
      schema := s;
      this.layout := layout;
      primaryK := None;
      autoIncrement := None;
      new;
      s.SetTable(this);
    }

    /** getFields(), getField(), getTablename(): asked of the layout. */
    function GetFields(): OMap<DBField> { layout.fields }

    function GetField(ref: FieldRef): Option<DBField> { layout.lookup(ref) }

    function GetTablename(): string { layout.tableName }

    /** getModel() and getSchema(): the schema the table was built for. */
    function GetModel(): Schema { schema }

    function GetSchema(): Schema { schema }

    function GetLayout(): Layout { layout }

    /** The flags of the logical fields behind the layout's fields, as they are now. */
    function Flags(): FlagView
      reads Owners(Values(layout.fields))
    {
      LiveFlags(Values(layout.fields))
    }

    /**
     * getPrimaryKey(): the layout fields whose logical field is primary at that moment,
     * keyed by name, computed once.
     */
    method GetPrimaryKey() returns (r: OMap<DBField>)
      modifies this
      ensures old(primaryK).Some? ==> r == old(primaryK).value
      ensures old(primaryK).None? ==> r == PrimaryOf(layout.fields, old(Flags()))
      ensures primaryK == Some(r) && autoIncrement == old(autoIncrement)
    {
      if primaryK.Some? {
        return primaryK.value;
      }
      var pk := ScanPrimary(layout.fields);
      primaryK := Some(pk);
      r := pk;
    }

    /** getAutoIncrement(): the first layout field whose logical field is auto-increment at that moment; memoised only when found. */
    method GetAutoIncrement() returns (r: Option<DBField>)
      modifies this
      ensures old(autoIncrement).Some? ==> r == old(autoIncrement) && autoIncrement == old(autoIncrement)
      ensures old(autoIncrement).None? ==> r == FirstAutoIncrement(Values(layout.fields), old(Flags())) && autoIncrement == r
      ensures primaryK == old(primaryK)
    {
      if autoIncrement.Some? {
        return autoIncrement;
      }
      var fs := Values(layout.fields);
      r := ScanAutoIncrement(fs);
      if r.Some? {
        autoIncrement := r;
      }
    }

    /** getById($id): one equality restriction per primary-key field, bound by position to the id components. */
    method GetById(id: Id) returns (q: Query)
      modifies this
      ensures fresh(q) && q.table == this
      ensures primaryK.Some? && q.clauses == Bind(Values(primaryK.value), Components(id))
      ensures old(primaryK).None? ==> primaryK.value == PrimaryOf(layout.fields, old(Flags()))
      ensures autoIncrement == old(autoIncrement)
    {
      var ids := Components(id);
      var pkmap := GetPrimaryKey();
      var primary := Values(pkmap);
      q := new Query(this);
      ghost var pk := primary;
      ghost var idsAll := ids;
      var n := 0;
      while |primary| > 0
        invariant 0 <= n <= |pk| && primary == pk[n..]
        invariant ids == (if n <= |idsAll| then idsAll[n..] else [])
        invariant q.clauses == Bind(pk, idsAll)[..n]
        invariant fresh(q) && q.table == this
        invariant primaryK == Some(pkmap) && autoIncrement == old(autoIncrement)
        decreases |primary|
      {
        var field := primary[0];
        primary := primary[1..];
        var value := Null;
        if |ids| > 0 {
          value := ids[0];
          ids := ids[1..];
        }
        q.AddRestriction(ByField(field), value, None);
        assert Bind(pk, idsAll)[..n + 1] == Bind(pk, idsAll)[..n] + [BindAt(pk, idsAll, n)];
        n := n + 1;
      }
      assert Bind(pk, idsAll)[..n] == Bind(pk, idsAll);
    }
  }

  /** The deprecated accessors answer exactly what the layout answers; getModel() and getSchema() agree. */
  lemma Delegation(t: Table, ref: FieldRef)
    ensures t.GetFields() == t.layout.fields && t.GetField(ref) == t.layout.lookup(ref)
    ensures t.GetTablename() == t.layout.tableName
    ensures t.GetModel() == t.GetSchema() == t.schema
  {
  }

  /** new Table($db, $schema): anything other than a schema is refused with a PrivateException. */
  method Make(s: Schema?, layout: Layout) returns (r: Result<Table, Exception>)
    modifies if s != null then {s} else {}
    ensures s == null <==> r.Failure?
    ensures r.Failure? ==> r.error == NotASchema
    ensures r.Success? ==> fresh(r.value) && r.value.schema == s && s.table == r.value && r.value.layout == layout
  {
    if s == null {
      return Failure(NotASchema);
    }
    var t := new Table(s, layout);
    r := Success(t);
  }
}
