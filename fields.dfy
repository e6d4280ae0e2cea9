/**
 * The logical field of a model (model/Field.php): its flags, its default, and the
 * memoised list of physical columns it materialises into. makePhysical() asks the
 * table's object factory for the physical field(s) of this field; the model takes the
 * columns the factory would produce as the constant `made`, each of them pointed back
 * at the logical field it is made for.
 */
module Logical {
  import opened Wrappers
  import opened Entities

  /** What makePhysical() or setPhysical() leave in $physical: one physical field or an array of them. */
  datatype Physical = One(f: DBField) | Many(fs: seq<DBField>)

  /** getPhysical() always hands out an array: a single field is wrapped, an array passes through. */
  function AsList(p: Physical): seq<DBField>
  {
    match p
    case One(f) => [f]
    case Many(fs) => fs
  }

  /**
   * getFieldInstance($this, $this->getName()): every physical field of p is pointed at
   * the logical field o, and a single column is named after it; the names of a list of
   * columns (made by field types that override makePhysical()) are the factory's.
   */
  function Stamp(p: Physical, o: object, name: string): (r: Physical)
    ensures |AsList(r)| == |AsList(p)|
    ensures forall i :: 0 <= i < |AsList(r)| ==> AsList(r)[i].logical == o
    ensures p.One? ==> r == One(p.f.(logical := o, name := name))
    ensures p.Many? ==> forall i :: 0 <= i < |AsList(r)| ==> AsList(r)[i] == AsList(p)[i].(logical := o)
  {
    match p
    case One(f) => One(f.(logical := o, name := name))
    case Many(fs) => Many(seq(|fs|, i requires 0 <= i < |fs| => fs[i].(logical := o)))
  }

  /** The state of a field that getPhysical() must leave alone. */
  datatype Info = Info(name: string, nullable: Value, unique: Value, primary: bool, autoIncrement: bool, default: Value, schema: Schema?)

  class Field {
    var name: string
    const kind: FieldKind
    /** $nullable and $unique hold whatever their setters were given. */
    var nullable: Value
    var unique: Value
    /** $primary and $auto_increment are always booleans. */
    var primary: bool
    var autoIncrement: bool
    var default: Value
    /** $physical: None while nothing has been materialised or set. */
    var physical: Option<Physical>
    /** The columns the object factory makes for this field. */
    const made: Physical
    /** $schema: the schema the field was added to, null until then. */
    var schema: Schema?
    /** How many times makePhysical() has been invoked. */
    ghost var makeCalls: nat

    /** A new field: nullable, not unique, not primary, not auto-increment, nothing materialised. */
    constructor(name: string, kind: FieldKind, made: Physical)
      ensures this.name == name && this.kind == kind && this.made == made
      ensures nullable == Bool(true) && unique == Bool(false) && !primary && !autoIncrement
      ensures default == Null && physical == None && makeCalls == 0 && schema == null
      ensures Flags() == FieldFlags(true, false, false, false)
    {
      this.name := name;
      this.kind := kind;
      this.made := made;
      nullable := Bool(true);
      unique := Bool(false);
      primary := false;
      autoIncrement := false;
      default := Null;
      physical := None;
      makeCalls := 0;
      schema := null;
    }

    function State(): Info
      reads this
    {
      Info(name, nullable, unique, primary, autoIncrement, default, schema)
    }

    /** The flags as the rest of the framework reads them (nullable and unique by truthiness). */
    function Flags(): FieldFlags
      reads this
    {
      FieldFlags(!Falsy(nullable), !Falsy(unique), primary, autoIncrement)
    }

    /** isPrimary() */
    predicate IsPrimary()
      reads this
    {
      Flags().IsPrimary()
    }

    /** isIndexed() */
    predicate IsIndexed()
      reads this
    {
      Flags().IsIndexed()
    }

    /** setPhysical($physical) */
    method SetPhysical(p: Option<Physical>)
      modifies this
      ensures physical == p && State() == old(State()) && makeCalls == old(makeCalls)
    {
      physical := p;
    }

    /** Every column in the memo, if there is one, was made for this field. */
    predicate Anchored()
      reads this
    {
      physical.Some? ==> forall g :: g in AsList(physical.value) ==> g.logical == this
    }

    /** setSchema($schema) */
    method SetSchema(s: Schema)
      modifies this
      ensures State() == old(State()).(schema := s)
      ensures physical == old(physical) && makeCalls == old(makeCalls)
    {
      schema := s;
    }

    /**
     * getTable(): the table of the field's schema; a field that was never added to a
     * schema calls getTable() on null, which is an Error.
     */
    function GetTable(): (r: Result<object?, Exception>)
      reads this, schema
      ensures r.Failure? <==> schema == null
      ensures r.Failure? ==> r.error == NoSchema
      ensures r.Success? ==> r.value == schema.table
    {
      if schema == null then Failure(NoSchema) else Success(schema.table)
    }

    /**
     * Whether getPhysical() answers without an Error: the memo is set, or the field's
     * schema is attached to a table whose factory makePhysical() can reach.
     */
    predicate Ready()
      reads this, schema
    {
      physical.Some? || TableDb(schema).Success?
    }

    /**
     * makePhysical(): asks the factory of the schema's table for this field's columns,
     * without storing anything; a field without a schema, or a schema without a table,
     * raises the Error of a call on null before the factory is reached.
     */
    method MakePhysical() returns (r: Result<Physical, Exception>)
      modifies this
      ensures r.Failure? <==> TableDb(schema).Failure?
      ensures r.Failure? ==> r.error == TableDb(schema).error
      ensures r.Success? ==> r.value == Stamp(made, this, name) && forall g :: g in AsList(r.value) ==> g.logical == this
      ensures State() == old(State()) && physical == old(physical)
      ensures makeCalls == old(makeCalls) + 1
    {
      makeCalls := makeCalls + 1;
      var table := TableDb(schema);
      if table.Failure? {
        return Failure(table.error);
      }
      r := Success(Stamp(made, this, name));
    }

    /**
     * getPhysical(): the first call materialises and memoises, later calls return the
     * memo without asking the factory again; the result is always a list. An Error from
     * makePhysical() leaves the memo empty, so the next call asks again.
     */
    method GetPhysical() returns (r: Result<seq<DBField>, Exception>)
      modifies this
      ensures r.Success? <==> old(Ready())
      ensures r.Failure? ==> TableDb(schema).Failure? && r.error == TableDb(schema).error && physical == None
      ensures old(physical).None? ==> makeCalls == old(makeCalls) + 1
      ensures old(physical).None? && r.Success? ==> physical == Some(Stamp(made, this, name))
      ensures old(physical).None? && r.Success? ==> forall g :: g in r.value ==> g.logical == this
      ensures old(physical).Some? ==> physical == old(physical) && makeCalls == old(makeCalls)
      ensures r.Success? ==> physical.Some? && r.value == AsList(physical.value)
      ensures old(Anchored()) ==> Anchored()
      ensures State() == old(State())
    {
      if physical.None? {
        var p := MakePhysical();
        if p.Failure? {
          return Failure(p.error);
        }
        physical := Some(p.value);
      }
      r := Success(AsList(physical.value));
    }

    /** isAutoIncrement() */
    function IsAutoIncrement(): (r: bool)
      reads this
      ensures r == Flags().autoIncrement
    {
      autoIncrement
    }

    /** setAutoIncrement($ai): stores !!$ai and returns the field itself. */
    method SetAutoIncrement(ai: Value) returns (r: Field)
      modifies this
      ensures r == this && autoIncrement == !Falsy(ai)
      ensures name == old(name) && nullable == old(nullable) && unique == old(unique)
      ensures primary == old(primary) && default == old(default) && physical == old(physical)
      ensures IsPrimary() <==> (primary || !Falsy(ai))
      ensures IsIndexed() == old(IsIndexed())
      ensures makeCalls == old(makeCalls)
    {
      autoIncrement := !Falsy(ai);
      r := this;
    }

    /** setPrimary($primary): stores !!$primary and returns the field itself. */
    method SetPrimary(p: Value) returns (r: Field)
      modifies this
      ensures r == this && primary == !Falsy(p)
      ensures name == old(name) && nullable == old(nullable) && unique == old(unique)
      ensures autoIncrement == old(autoIncrement) && default == old(default) && physical == old(physical)
      ensures !Falsy(p) ==> IsPrimary() && IsIndexed()
      ensures Falsy(p) ==> (IsPrimary() <==> autoIncrement) && (IsIndexed() <==> !Falsy(unique))
      ensures makeCalls == old(makeCalls)
    {
      primary := !Falsy(p);
      r := this;
    }

    /** setUnique($unique): stores the argument as given and returns the field itself. */
    method SetUnique(u: Value) returns (r: Field)
      modifies this
      ensures r == this && unique == u
      ensures name == old(name) && nullable == old(nullable) && primary == old(primary)
      ensures autoIncrement == old(autoIncrement) && default == old(default) && physical == old(physical)
      ensures IsIndexed() <==> (primary || !Falsy(u))
      ensures IsPrimary() == old(IsPrimary())
      ensures makeCalls == old(makeCalls)
    {
      unique := u;
      r := this;
    }

    /** isUnique(): the stored value, unconverted. */
    function IsUnique(): (r: Value)
      reads this
      ensures !Falsy(r) == Flags().unique
    {
      unique
    }

    /** setNullable($nullable): stores the argument as given and returns nothing. */
    method SetNullable(n: Value)
      modifies this
      ensures nullable == n
      ensures name == old(name) && unique == old(unique) && primary == old(primary)
      ensures autoIncrement == old(autoIncrement) && default == old(default) && physical == old(physical)
      ensures makeCalls == old(makeCalls)
    {
      nullable := n;
    }

    /** getNullable(): the stored value, unconverted. */
    function GetNullable(): (r: Value)
      reads this
      ensures !Falsy(r) == Flags().nullable
    {
      nullable
    }

    /** setName($name), returning the field itself. */
    method SetName(n: string) returns (r: Field)
      modifies this
      ensures r == this && name == n && ToString() == n
      ensures Flags() == old(Flags()) && default == old(default) && physical == old(physical)
      ensures nullable == old(nullable) && unique == old(unique) && makeCalls == old(makeCalls)
    {
      name := n;
      r := this;
    }

    /** setDefault($default), returning the field itself. */
    method SetDefault(d: Value) returns (r: Field)
      modifies this
      ensures r == this && default == d
      ensures name == old(name) && Flags() == old(Flags()) && physical == old(physical)
      ensures nullable == old(nullable) && unique == old(unique) && makeCalls == old(makeCalls)
    {
      default := d;
      r := this;
    }

    /** __toString() and getName(): the field's name. */
    function ToString(): string
      reads this
    {
      name
    }

    /**
     * validate($value): an error exactly when the field is not nullable and the value
     * is falsy (null, false, 0, "", "0", an empty array); false (None) otherwise.
     */
    function Validate(v: Value): (r: Option<ValidationError>)
      reads this
      ensures r.Some? <==> !Flags().nullable && Falsy(v)
      ensures r.Some? ==> r.value == ValidationError("err_field_null", "")
      ensures Flags().nullable ==> r.None?
    {
      if Falsy(nullable) && Falsy(v) then Some(ValidationError("err_field_null", "")) else None
    }
  }

  /** The flag rules of a field: primary implies indexed, and auto-increment alone makes a field primary but not indexed. */
  lemma FlagRules(fl: FieldFlags)
    ensures fl.primary ==> fl.IsPrimary() && fl.IsIndexed()
    ensures fl.IsPrimary() && !fl.IsIndexed() <==> fl.autoIncrement && !fl.primary && !fl.unique
    ensures fl.IsIndexed() && !fl.IsPrimary() <==> fl.unique && !fl.primary && !fl.autoIncrement
  {
  }

  /** The logical fields the physical fields gs were made for. */
  function Owners(gs: seq<DBField>): set<Field>
  {
    set i | 0 <= i < |gs| && gs[i].logical is Field :: gs[i].logical as Field
  }

  /**
   * The flags of the logical fields behind gs as they are now: what
   * $field->getLogicalField()->isPrimary() and isAutoIncrement() read.
   */
  function LiveFlags(gs: seq<DBField>): (v: FlagView)
    reads Owners(gs)
    ensures forall i :: 0 <= i < |gs| && gs[i].logical is Field ==>
              gs[i].logical in v && v[gs[i].logical] == (gs[i].logical as Field).Flags()
    ensures forall o :: o in v ==> o is Field
  {
    map o: object | o in Owners(gs) :: (o as Field).Flags()
  }

  /** The logical field behind a physical field, as a set for reads clauses. */
  function LogicalOf(g: DBField): set<Field>
  {
    if g.logical is Field then {g.logical as Field} else {}
  }

  /** The schema of the logical field behind g, as a set for reads clauses. */
  function SchemaOf(g: DBField): set<Schema>
    reads LogicalOf(g)
  {
    if g.logical is Field && (g.logical as Field).schema != null then {(g.logical as Field).schema} else {}
  }

  /**
   * $dbfield->getTable(): the table of the column's logical field (a column made
   * for no logical field belongs to no table).
   */
  function TableOf(g: DBField): (r: Result<object?, Exception>)
    reads LogicalOf(g), SchemaOf(g)
    ensures g.logical is Field ==> r == (g.logical as Field).GetTable()
    ensures !(g.logical is Field) ==> r == Success(null)
  {
    if g.logical is Field then (g.logical as Field).GetTable() else Success(null)
  }

  /** The Error getTable() raises on a field without a schema. */
  const NoSchema: Exception := PhpError("Call to a member function getTable() on null")

  /** The Error getDb() raises on a schema that was never attached to a table. */
  const NoDatabase: Exception := PhpError("Call to a member function getDb() on null")

  /**
   * $this->getModel()->getTable()->getDb(), as far as makePhysical() gets: the table of
   * schema s, whose database holds the factory; a missing schema or a missing table is
   * a call on null.
   */
  function TableDb(s: Schema?): (r: Result<object, Exception>)
    reads s
    ensures r.Success? <==> s != null && s.table != null
    ensures r.Success? ==> r.value == s.table
    ensures s == null ==> r == Failure(NoSchema)
    ensures s != null && s.table == null ==> r == Failure(NoDatabase)
  {
    if s == null then Failure(NoSchema)
    else if s.table == null then Failure(NoDatabase)
    else Success(s.table)
  }

  /** makePhysical() reaches the factory exactly when getTable() succeeds with a table, and raises getTable()'s Error. */
  lemma TableDbFollowsGetTable(f: Field)
    ensures TableDb(f.schema).Success? <==> f.GetTable().Success? && f.GetTable().value != null
    ensures f.GetTable().Failure? ==> TableDb(f.schema) == Failure(f.GetTable().error)
  {
  }

  /** Two successive getPhysical() calls give the same list and ask the factory at most once. */
  method GetPhysicalTwice(f: Field) returns (a: Result<seq<DBField>, Exception>, b: Result<seq<DBField>, Exception>)
    modifies f
    ensures a == b
    ensures old(f.Ready()) ==> a.Success? && f.makeCalls <= old(f.makeCalls) + 1
    ensures !old(f.Ready()) ==> a.Failure? && f.physical == None && f.makeCalls == old(f.makeCalls) + 2
    ensures old(f.physical).Some? ==> f.makeCalls == old(f.makeCalls) && a == Success(AsList(old(f.physical).value))
    ensures old(f.physical).None? && a.Success? ==> a.value == AsList(Stamp(f.made, f, f.name))
  {
    a := f.GetPhysical();
    b := f.GetPhysical();
  }

  /** After setPhysical(p), getPhysical() returns p as a list and never asks the factory. */
  method SetThenGet(f: Field, p: Physical) returns (r: Result<seq<DBField>, Exception>)
    modifies f
    ensures r == Success(AsList(p)) && f.makeCalls == old(f.makeCalls)
  {
    f.SetPhysical(Some(p));
    r := f.GetPhysical();
  }

  /**
   * A schema (a model definition): its name, its table name, its logical fields in
   * declaration order and the table object it has been attached to.
   */
  class Schema {
    const name: string
    const tableName: string
    const fields: seq<Field>
    var table: object?

    constructor(name: string, tableName: string, fields: seq<Field>)
      ensures this.name == name && this.tableName == tableName && this.fields == fields && table == null
    {
      this.name := name;
      this.tableName := tableName;
      this.fields := fields;
      table := null;
    }

    /** setTable($table) */
    method SetTable(t: object)
      modifies this
      ensures table == t
    {
      table := t;
    }
  }
}
