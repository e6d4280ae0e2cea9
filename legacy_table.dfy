/**
 * The older table class (spitfire/storage/database/Table.php): a schema's physical
 * fields flattened into a name-keyed map when the table is built, a memoised primary
 * key and auto-increment column, getById() and a record cache keyed by a
 * single-column primary value.
 */
module LegacyTables {
  import opened Wrappers
  import opened OrderedMaps
  import opened Entities
  import opened Logical
  import opened Queries
  import opened TableKeys

  /** The physical lists of materialised logical fields, in order. */
  function PhysicalLists(fs: seq<Field>): (r: seq<seq<DBField>>)
    reads set f | f in fs
    requires forall i :: 0 <= i < |fs| ==> fs[i].physical.Some?
    ensures |r| == |fs| && forall i :: 0 <= i < |fs| ==> r[i] == AsList(fs[i].physical.value)
  {
    seq(|fs|, i requires 0 <= i < |fs| && fs[i].physical.Some? reads set f | f in fs => AsList(fs[i].physical.value))
  }

  /** while ($phys = array_shift($physical)) { $dbfields[$phys->getName()] = $phys; } */
  method FileAll(dbfields: OMap<DBField>, ghost before: seq<DBField>, physical: seq<DBField>) returns (r: OMap<DBField>)
    requires dbfields == PutAll([], before)
    ensures r == PutAll([], before + physical)
  {
    r := dbfields;
    var rest := physical;
    ghost var done: seq<DBField> := [];
    assert before + done == before;
    while rest != []
      invariant physical == done + rest
      invariant r == PutAll([], before + done)
    {
      var phys := rest[0];
      rest := rest[1..];
      PutAllSnoc([], before + done, phys);
      assert before + done + [phys] == before + (done + [phys]);
      r := Put(r, phys.name, phys);
      done := done + [phys];
    }
    assert done == physical;
  }

  /** One turn of makeFields()'s foreach: getPhysical() on f, then its physical fields filed. */
  method FileField(f: Field, dbfields: OMap<DBField>, ghost before: seq<DBField>) returns (r: Result<OMap<DBField>, Exception>)
    requires dbfields == PutAll([], before)
    modifies f
    ensures r.Success? <==> old(f.physical).Some? || TableDb(f.schema).Success?
    ensures r.Failure? ==> TableDb(f.schema) == Failure(r.error)
    ensures r.Success? ==> f.physical.Some? && r.value == PutAll([], before + AsList(f.physical.value))
    ensures f.State() == old(f.State())
    ensures f.physical == old(f.physical) ||
            (old(f.physical).None? && TableDb(f.schema).Success? && f.physical == Some(Stamp(f.made, f, f.name)))
  {
    var physical := f.GetPhysical();
    if physical.Failure? {
      return Failure(physical.error);
    }
    var filed := FileAll(dbfields, before, physical.value);
    r := Success(filed);
  }

  /**
   * The loop of makeFields(): each logical field is materialised in turn and its
   * physical fields filed; the first field whose getPhysical() raises ends the loop
   * with that Error.
   */
  method FileFields(fs: seq<Field>) returns (r: Result<OMap<DBField>, Exception>)
    modifies fs
    ensures r.Failure? ==> exists i :: 0 <= i < |fs| && old(fs[i].physical).None? && old(TableDb(fs[i].schema)) == Failure(r.error) &&
                                       forall j :: 0 <= j < i ==> old(fs[j].physical).Some? || old(TableDb(fs[j].schema)).Success?
    ensures r.Success? ==> forall i :: 0 <= i < |fs| ==> fs[i].physical.Some?
    ensures r.Success? ==> r.value == PutAll([], Flatten(PhysicalLists(fs)))
    ensures forall i :: 0 <= i < |fs| ==> fs[i].schema == old(fs[i].schema) && fs[i].name == old(fs[i].name)
    ensures forall i :: 0 <= i < |fs| ==>
              fs[i].physical == old(fs[i].physical) ||
              (old(fs[i].physical).None? && old(TableDb(fs[i].schema)).Success? &&
               fs[i].physical == Some(Stamp(fs[i].made, fs[i], fs[i].name)))
  {
    var dbfields: OMap<DBField> := [];
    ghost var lists: seq<seq<DBField>> := [];
    var i := 0;
    while i < |fs|
      invariant 0 <= i <= |fs| && |lists| == i
      invariant forall j :: 0 <= j < i ==> fs[j].physical.Some? && AsList(fs[j].physical.value) == lists[j]
      invariant forall j :: 0 <= j < |fs| ==> fs[j].schema == old(fs[j].schema) && fs[j].name == old(fs[j].name)
      invariant forall j :: 0 <= j < |fs| ==>
                  fs[j].physical == old(fs[j].physical) ||
                  (old(fs[j].physical).None? && old(TableDb(fs[j].schema)).Success? &&
                   fs[j].physical == Some(Stamp(fs[j].made, fs[j], fs[j].name)))
      invariant dbfields == PutAll([], Flatten(lists))
    {
      label Turn:
      var filed := FileField(fs[i], dbfields, Flatten(lists));
      if filed.Failure? {
        assert old(fs[i].physical).None? && old(TableDb(fs[i].schema)) == Failure(filed.error);
        return Failure(filed.error);
      }
      FlattenSnoc(lists, AsList(fs[i].physical.value));
      ghost var earlier := lists;
      lists := lists + [AsList(fs[i].physical.value)];
      forall j | 0 <= j <= i
        ensures fs[j].physical.Some? && AsList(fs[j].physical.value) == lists[j]
      {
        if j < i {
          assert fs[j].physical == old@Turn(fs[j].physical) && lists[j] == earlier[j];
        }
      }
      forall j | 0 <= j < |fs|
        ensures fs[j].schema == old(fs[j].schema) && fs[j].name == old(fs[j].name)
        ensures fs[j].physical == old(fs[j].physical) ||
                (old(fs[j].physical).None? && old(TableDb(fs[j].schema)).Success? &&
                 fs[j].physical == Some(Stamp(fs[j].made, fs[j], fs[j].name)))
      {
        if fs[j] != fs[i] {
          assert fs[j].physical == old@Turn(fs[j].physical) && fs[j].schema == old@Turn(fs[j].schema);
        }
      }
      dbfields := filed.value;
      i := i + 1;
    }
    assert lists == PhysicalLists(fs);
    r := Success(dbfields);
  }

  /** The exception thrown by the constructor when it is given something other than a schema. */
  const NotASchema: Exception := PrivateException("Table requires a Schema to be passed", 0)

  /** Why getField() throws: the name is unknown, or the physical field belongs to another table. */
  datatype FieldError = NoSuchField(name: string) | ForeignField(f: DBField) | Raised(e: Exception)

  class Table {
    const model: Schema
    const tablename: string
    var fields: OMap<DBField>
    var primaryK: Option<OMap<DBField>>
    var autoIncrement: Option<DBField>
    var cache: map<ArrayKey, Record>

    /**
     * The first half of the constructor: the schema is pointed back at the table and
     * the name is the environment's table prefix followed by the schema's table name;
     * makeFields() is left to Make, since it can raise.
     */
    constructor(prefix: string, s: Schema)
      modifies s
      ensures model == s && s.table == this && tablename == prefix + s.tableName
      ensures fields == [] && primaryK == None && autoIncrement == None && cache == map[]
    {
      model := s;
      tablename := prefix + s.tableName;
      fields := [];
      primaryK := None;
      autoIncrement := None;
      cache := map[];
      new;
      s.SetTable(this);
    }

    /**
     * makeFields(): every physical field of every logical field, filed under its name;
     * an Error from a field's getPhysical() propagates and the field map is not assigned.
     */
    method MakeFields() returns (err: Option<Exception>)
      modifies this, model.fields
      ensures err.None? <==> forall i :: 0 <= i < |model.fields| ==> old(model.fields[i].Ready())
      ensures err.Some? ==> exists i :: 0 <= i < |model.fields| && !old(model.fields[i].Ready()) &&
                                        old(TableDb(model.fields[i].schema)) == Failure(err.value) &&
                                        forall j :: 0 <= j < i ==> old(model.fields[j].Ready())
      ensures err.None? ==> forall i :: 0 <= i < |model.fields| ==> model.fields[i].physical.Some?
      ensures err.None? ==> fields == PutAll([], Flatten(PhysicalLists(model.fields)))
      ensures err.Some? ==> fields == old(fields)
      ensures forall i :: 0 <= i < |model.fields| && old(model.fields[i].physical).Some? ==>
                model.fields[i].physical == old(model.fields[i].physical)
      ensures forall i :: 0 <= i < |model.fields| ==> model.fields[i].schema == old(model.fields[i].schema)
      ensures forall i :: 0 <= i < |model.fields| && old(model.fields[i].Anchored()) ==> model.fields[i].Anchored()
      ensures primaryK == old(primaryK) && autoIncrement == old(autoIncrement) && cache == old(cache)
    {
      var dbfields := FileFields(model.fields);
      forall i | 0 <= i < |model.fields| && old(model.fields[i].Anchored())
        ensures model.fields[i].Anchored()
      {
        var f := model.fields[i];
        if f.physical != old(f.physical) {
          assert f.physical == Some(Stamp(f.made, f, f.name));
        }
      }
      if dbfields.Failure? {
        return Some(dbfields.error);
      }
      fields := dbfields.value;
      err := None;
    }

    /**
     * getField($name): a physical field whose getTable() is this table is returned as
     * it is, one of another table is refused, and an Error from getTable() propagates;
     * a name is looked up in the field map.
     */
    function GetField(ref: FieldRef): (r: Result<DBField, FieldError>)
      reads this
      reads if ref.ByField? then LogicalOf(ref.f) else {}
      reads if ref.ByField? then SchemaOf(ref.f) else {}
      ensures ref.ByField? ==> (r.Success? <==> TableOf(ref.f) == Success(this))
      ensures ref.ByField? && r.Success? ==> r.value == ref.f
      ensures ref.ByField? && TableOf(ref.f).Failure? ==> r == Failure(Raised(TableOf(ref.f).error))
      ensures ref.ByField? && TableOf(ref.f).Success? && r.Failure? ==> r.error == ForeignField(ref.f)
      ensures ref.ByName? ==> (r.Success? <==> ref.name in KeySet(fields))
      ensures ref.ByName? && r.Success? ==> Get(fields, ref.name) == Some(r.value)
      ensures ref.ByName? && r.Failure? ==> r.error == NoSuchField(ref.name)
    {
      match ref
      case ByField(f) =>
        (match TableOf(f)
         case Failure(e) => Failure(Raised(e))
         case Success(t) => if t == this then Success(f) else Failure(ForeignField(f)))
      case ByName(n) =>
        match Get(fields, n)
        case Some(f) => Success(f)
        case None => Failure(NoSuchField(n))
    }

    /** The flags of the logical fields behind the field map, as they are now. */
    function Flags(): FlagView
      reads this, Owners(Values(fields))
    {
      LiveFlags(Values(fields))
    }

    /**
     * getPrimaryKey(): computed once from the field map, asking each field's logical
     * field whether it is primary at that moment, then answered from the memo (even
     * when empty).
     */
    method GetPrimaryKey() returns (r: OMap<DBField>)
      modifies this
      ensures old(primaryK).Some? ==> r == old(primaryK).value
      ensures old(primaryK).None? ==> r == PrimaryOf(fields, old(Flags()))
      ensures primaryK == Some(r)
      ensures fields == old(fields) && autoIncrement == old(autoIncrement) && cache == old(cache)
    {
      if primaryK.Some? {
        return primaryK.value;
      }
      var pk := ScanPrimary(fields);
      primaryK := Some(pk);
      r := pk;
    }

    /**
     * getAutoIncrement(): the first field whose logical field is auto-increment at
     * that moment, memoised only when there is one.
     */
    method GetAutoIncrement() returns (r: Option<DBField>)
      modifies this
      ensures old(autoIncrement).Some? ==> r == old(autoIncrement) && autoIncrement == old(autoIncrement)
      ensures old(autoIncrement).None? ==> r == FirstAutoIncrement(Values(fields), old(Flags())) && autoIncrement == r
      ensures fields == old(fields) && primaryK == old(primaryK) && cache == old(cache)
    {
      if autoIncrement.Some? {
        return autoIncrement;
      }
      var fs := Values(fields);
      r := ScanAutoIncrement(fs);
      if r.Some? {
        autoIncrement := r;
      }
    }

    /**
     * getById($id): a new query on this table with one restriction per primary-key
     * field, the n-th key field bound to the n-th id component.
     */
    method GetById(id: Id) returns (q: Query)
      modifies this
      ensures fresh(q) && q.table == this
      ensures primaryK.Some?
      ensures q.clauses == Bind(Values(primaryK.value), Components(id))
      ensures old(primaryK).None? ==> primaryK.value == PrimaryOf(fields, old(Flags()))
      ensures fields == old(fields) && autoIncrement == old(autoIncrement) && cache == old(cache)
    {
      var ids := Components(id);
      var pkmap := GetPrimaryKey();
      assert old(primaryK).None? ==> pkmap == PrimaryOf(fields, old(Flags()));
      var primary := Values(pkmap);
      q := new Query(this);
      ghost var pk := primary;
      ghost var idsAll := ids;
      var n := 0;
      while |primary| > 0
        invariant 0 <= n <= |pk| && primary == pk[n..]
        invariant ids == (if n <= |idsAll| then idsAll[n..] else [])
        invariant q.clauses == Bind(pk, idsAll)[..n]
        invariant fresh(q) && q.table == this
        invariant fields == old(fields) && autoIncrement == old(autoIncrement) && cache == old(cache)
        invariant primaryK == Some(pkmap)
        decreases |primary|
      {
        var field := primary[0];
        primary := primary[1..];
        var value := Null;
        if |ids| > 0 {
          value := ids[0];
          ids := ids[1..];
        }
        q.AddRestriction(ByField(field), value, None);
        assert Bind(pk, idsAll)[..n + 1] == Bind(pk, idsAll)[..n] + [BindAt(pk, idsAll, n)];
        n := n + 1;
      }
      assert Bind(pk, idsAll)[..n] == Bind(pk, idsAll);
    }

    /**
     * cache($model): a record whose primary data has exactly one component is filed under that value;
     * a value PHP cannot use as an array key (an array or an object) raises PHP's "Illegal offset type".
     */
    method Cache(rec: Record) returns (err: Option<Exception>)
      modifies this
      ensures err.Some? <==> |rec.primaryData| == 1 && KeyOf(rec.primaryData[0].1).None?
      ensures err.Some? ==> err.value == IllegalOffset
      ensures |rec.primaryData| == 1 && KeyOf(rec.primaryData[0].1).Some? ==>
                cache == old(cache)[KeyOf(rec.primaryData[0].1).value := rec]
      ensures |rec.primaryData| == 1 && KeyOf(rec.primaryData[0].1).Some? ==>
                HitCache(rec.primaryData[0].1) == Success(Some(rec))
      ensures |rec.primaryData| != 1 || KeyOf(rec.primaryData[0].1).None? ==> cache == old(cache)
      ensures fields == old(fields) && primaryK == old(primaryK) && autoIncrement == old(autoIncrement)
    {
      err := None;
      if |rec.primaryData| == 1 {
        var key := KeyOf(rec.primaryData[0].1);
        if key.Some? {
          cache := cache[key.value := rec];
        } else {
          err := Some(IllegalOffset);
        }
      }
    }

    /**
     * hitCache($id): the record filed under the id's array key, or null; isset() on an id PHP cannot
     * use as an array key raises "Illegal offset type in isset or empty".
     */
    function HitCache(id: Value): (r: Result<Option<Record>, Exception>)
      reads this
      ensures r.Failure? <==> KeyOf(id).None?
      ensures r.Failure? ==> r.error == IllegalIssetOffset
      ensures r.Success? ==> (r.value.Some? <==> KeyOf(id).value in cache)
      ensures r.Success? && r.value.Some? ==> r.value.value == cache[KeyOf(id).value]
    {
      match KeyOf(id)
      case Some(k) => Success(if k in cache then Some(cache[k]) else None)
      case None => Failure(IllegalIssetOffset)
    }
  }

  /** The Errors PHP raises for an array or object used as an array key. */
  const IllegalOffset := PhpError("Illegal offset type")
  const IllegalIssetOffset := PhpError("Illegal offset type in isset or empty")

  /**
   * new Table($db, $schema): anything other than a schema is refused with a
   * PrivateException; otherwise the schema is pointed back at the new table and
   * makeFields() runs, whose Error, if any, is what the constructor raises. Once the
   * schema points at the table, a logical field fails only when it has no memo and
   * belongs to no schema or to a schema without a table.
   */
  method Make(prefix: string, s: Schema?) returns (r: Result<Table, Exception>)
    modifies if s != null then {s} else {}, if s != null then set f | f in s.fields else {}
    ensures s == null ==> r == Failure(NotASchema)
    ensures s != null ==> (r.Success? <==> forall i :: 0 <= i < |s.fields| ==>
                             old(s.fields[i].physical).Some? || TableDb(s.fields[i].schema).Success?)
    ensures s != null && r.Failure? ==> exists i :: 0 <= i < |s.fields| && old(s.fields[i].physical).None? &&
                                                    TableDb(s.fields[i].schema) == Failure(r.error)
    ensures r.Success? ==> forall i :: 0 <= i < |s.fields| ==> s.fields[i].physical.Some?
    ensures r.Success? ==> fresh(r.value) && r.value.model == s && s.table == r.value
    ensures r.Success? ==> r.value.tablename == prefix + s.tableName
    ensures r.Success? ==> r.value.fields == PutAll([], Flatten(PhysicalLists(s.fields)))
    ensures r.Success? ==> UniqueKeys(r.value.fields) && Named(r.value.fields)
    ensures r.Success? ==> r.value.primaryK == None && r.value.autoIncrement == None && r.value.cache == map[]
    ensures s != null && (forall f :: f in s.fields ==> old(f.schema) == s && old(f.Anchored())) ==>
              r.Success? && forall g :: g in Values(r.value.fields) ==> r.value.GetField(ByField(g)) == Success(g)
  {
    if s == null {
      return Failure(NotASchema);
    }
    var t := new Table(prefix, s);
    var err := t.MakeFields();
    if err.Some? {
      return Failure(err.value);
    }
    PutAllKeys(Flatten(PhysicalLists(s.fields)));
    PutAllNamed(Flatten(PhysicalLists(s.fields)));
    if forall f :: f in s.fields ==> old(f.schema) == s && old(f.Anchored()) {
      OwnFieldsAccepted(t);
    }
    r := Success(t);
  }

  /** A record cached under a number is found again by the number's decimal string (and the other way round). */
  lemma CacheHitByString(t: Table, n: nat)
    ensures t.HitCache(Str(Php.NatToString(n))) == t.HitCache(Int(n))
  {
    NumericStringKey(n);
  }

  /**
   * Once the table is built over a schema whose logical fields belong to it, and whose
   * memoised columns were all made for their own fields, getField() accepts every
   * column of the field map as its own.
   */
  lemma OwnFieldsAccepted(t: Table)
    requires forall i :: 0 <= i < |t.model.fields| ==> t.model.fields[i].physical.Some?
    requires t.fields == PutAll([], Flatten(PhysicalLists(t.model.fields)))
    requires t.model.table == t
    requires forall f :: f in t.model.fields ==> f.schema == t.model && f.Anchored()
    ensures forall g :: g in Values(t.fields) ==> t.GetField(ByField(g)) == Success(g)
  {
    var lists := PhysicalLists(t.model.fields);
    var all := Flatten(lists);
    PutAllKeys(all);
    forall g | g in Values(t.fields) ensures t.GetField(ByField(g)) == Success(g) {
      var i :| 0 <= i < |t.fields| && Values(t.fields)[i] == g;
      var k := t.fields[i].0;
      GetAt(t.fields, i);
      PutAllGet([], all, k);
      assert g in all;
      FlattenMember(lists, g);
      var j :| 0 <= j < |lists| && g in lists[j];
      var f := t.model.fields[j];
      assert f.Anchored() && g in AsList(f.physical.value);
      assert g.logical == f;
    }
  }

  /** After the table is built, a name is found exactly when some physical field carries it, and the last such field wins. */
  lemma FieldLookup(t: Table, fs: seq<DBField>, n: string)
    requires t.fields == PutAll([], fs)
    ensures t.GetField(ByName(n)).Success? <==> n in Names(fs)
    ensures n in Names(fs) ==> t.GetField(ByName(n)) == Success(LastNamed(fs, n).value)
  {
    PutAllGet([], fs, n);
  }
}
