/**
 * The SQL pieces every standard SQL table can produce (db/drivers/stdSQLTable.php):
 * one column definition per physical field, and one FOREIGN KEY clause per Reference
 * field of the model, repairing the referenced table first when it is another model's.
 */
module StdSqlTables {
  import opened OrderedMaps
  import opened Php
  import opened Entities

  /** The definition of one column: its backticked name, a space, then what the driver renders for it. */
  function ColumnDefinition(name: string, f: DBField): (r: string)
    ensures |r| == |name| + 3 + |f.columnDefinition| && r[0] == '`' && r[1..|name| + 1] == name
  {
    "`" + name + "` " + f.columnDefinition
  }

  /** The column definition of each field, in the table's order. */
  function ColumnDefs(fields: OMap<DBField>): (r: seq<string>)
    ensures |r| == |fields| && forall i :: 0 <= i < |fields| ==> r[i] == ColumnDefinition(fields[i].0, fields[i].1)
  {
    seq(|fields|, i requires 0 <= i < |fields| => ColumnDefinition(fields[i].0, fields[i].1))
  }

  /**
   * columnDefinitions(): each field n of the table is overwritten by its column
   * definition; the keys and their order stay as they are.
   */
  method ColumnDefinitions(fields: OMap<DBField>) returns (defs: OMap<string>)
    requires UniqueKeys(fields)
    ensures Keys(defs) == Keys(fields)
    ensures forall i :: 0 <= i < |fields| ==> defs[i].1 == ColumnDefinition(fields[i].0, fields[i].1)
    ensures Values(defs) == ColumnDefs(fields)
  {
    defs := [];
    var i := 0;
    while i < |fields|
      invariant 0 <= i <= |fields| && |defs| == i
      invariant forall j :: 0 <= j < i ==> defs[j] == (fields[j].0, ColumnDefinition(fields[j].0, fields[j].1))
    {
      var (name, f) := fields[i];
      assert name !in KeySet(defs) by {
        forall j | 0 <= j < i ensures defs[j].0 != name { assert fields[j].0 != fields[i].0; }
      }
      PutShape(defs, name, ColumnDefinition(name, f));
      defs := Put(defs, name, ColumnDefinition(name, f));
      i := i + 1;
    }
  }

  /**
   * What foreignKeyDefinitions() asks of one logical field of the model: its kind (a
   * Reference knows the model it targets), its physical fields, and the name and
   * primary key of the target's table.
   */
  datatype RefInfo = RefInfo(kind: FieldKind, physical: seq<DBField>, targetTable: string, targetPrimary: OMap<DBField>)

  /** The fields that are references ($ref instanceof Reference), in the model's order. */
  function References(fields: OMap<RefInfo>): (r: OMap<RefInfo>)
    ensures |r| <= |fields| && forall i :: 0 <= i < |r| ==> r[i].1.kind.Reference?
  {
    if fields == [] then []
    else
      var pre := References(fields[..|fields| - 1]);
      var last := fields[|fields| - 1];
      if last.1.kind.Reference? then pre + [last] else pre
  }

  /** Exactly the reference fields are kept. */
  lemma {:induction false} ReferencesMember(fields: OMap<RefInfo>)
    ensures forall e :: e in References(fields) <==> e in fields && e.1.kind.Reference?
  {
    if fields != [] {
      var pre := fields[..|fields| - 1];
      ReferencesMember(pre);
      assert fields == pre + [fields[|fields| - 1]];
    }
  }

  /** The references' keys are keys of the model. */
  lemma {:induction false} ReferencesKeys(fields: OMap<RefInfo>)
    ensures KeySet(References(fields)) <= KeySet(fields)
  {
    if fields != [] {
      var pre := fields[..|fields| - 1];
      ReferencesKeys(pre);
      assert KeySet(pre) <= KeySet(fields) by {
        forall x | x in KeySet(pre) ensures x in KeySet(fields) {
          var j :| 0 <= j < |pre| && pre[j].0 == x;
          assert fields[j].0 == x;
        }
      }
      var r := References(fields);
      if fields[|fields| - 1].1.kind.Reference? {
        forall x | x in KeySet(r) ensures x in KeySet(fields) {
          var j :| 0 <= j < |r| && r[j].0 == x;
          if j == |r| - 1 {
            assert r[j] == fields[|fields| - 1];
          } else {
            assert References(pre)[j].0 == x;
          }
        }
      }
    }
  }

  /** Keeping the references of a longer list keeps those of its prefix, then the new one if it is a reference. */
  lemma ReferencesSnoc(fields: OMap<RefInfo>, i: nat)
    requires i < |fields|
    ensures References(fields[..i + 1]) ==
              References(fields[..i]) + (if fields[i].1.kind.Reference? then [fields[i]] else [])
  {
    assert fields[..i + 1][..i] == fields[..i];
  }

  /** $field->getName() of each field, in order. */
  function FieldNames(fs: seq<DBField>): (r: seq<string>)
    ensures |r| == |fs| && forall i :: 0 <= i < |fs| ==> r[i] == fs[i].name
  {
    seq(|fs|, i requires 0 <= i < |fs| => fs[i].name)
  }

  /** foreach ($fields as &$field) $field = $field->getName(); */
  method NamesOf(fs: seq<DBField>) returns (names: seq<string>)
    ensures names == FieldNames(fs)
  {
    names := [];
    var i := 0;
    while i < |fs|
      invariant 0 <= i <= |fs| && |names| == i
      invariant forall j :: 0 <= j < i ==> names[j] == fs[j].name
    {
      names := names + [fs[i].name];
      i := i + 1;
    }
  }

  const Cascade: string := " ON DELETE CASCADE ON UPDATE CASCADE"

  /** The clause for one reference, under the given constraint name. */
  function FkClause(constraint: string, ref: RefInfo): (r: string)
    ensures EndsWith(r, Cascade)
  {
    var r := "FOREIGN KEY " + constraint + " (" + Join(FieldNames(ref.physical), ", ") + ") REFERENCES " +
             ref.targetTable + "(" + Join(FieldNames(Values(ref.targetPrimary)), ", ") + ")" + Cascade;
    assert r[|r| - |Cascade|..] == Cascade;
    r
  }

  /** The sprintf() of one clause: the reference's column names and the target's primary-key names, each list in order. */
  method Clause(constraint: string, ref: RefInfo) returns (stmt: string)
    ensures stmt == FkClause(constraint, ref)
  {
    var local := NamesOf(ref.physical);
    var primary := NamesOf(Values(ref.targetPrimary));
    stmt := "FOREIGN KEY " + constraint + " (" + Join(local, ", ") + ") REFERENCES " +
            ref.targetTable + "(" + Join(primary, ", ") + ")" + Cascade;
  }

  /** The constraint name of the n-th clause: "fk_" and the n-th number rand() gave. */
  function ConstraintName(rnd: nat -> nat, n: nat): string
  {
    "fk_" + NatToString(rnd(n))
  }

  /** One clause per reference, in order, the n-th under the n-th constraint name. */
  function FkClauses(refs: OMap<RefInfo>, rnd: nat -> nat): (r: seq<string>)
    ensures |r| == |refs| && forall i :: 0 <= i < |refs| ==> r[i] == FkClause(ConstraintName(rnd, i), refs[i].1)
  {
    seq(|refs|, i requires 0 <= i < |refs| => FkClause(ConstraintName(rnd, i), refs[i].1))
  }

  /** The targets repaired while walking the references: those that are other models, in order. */
  function RepairTargets(refs: OMap<RefInfo>, self: string): (r: seq<string>)
    requires forall i :: 0 <= i < |refs| ==> refs[i].1.kind.Reference?
  {
    if refs == [] then []
    else
      var pre := RepairTargets(refs[..|refs| - 1], self);
      var t := refs[|refs| - 1].1.kind.target;
      if t != self then pre + [t] else pre
  }

  /** A table is repaired exactly when some reference targets it and it is not the model's own. */
  lemma {:induction false} RepairTargetsMember(refs: OMap<RefInfo>, self: string)
    requires forall i :: 0 <= i < |refs| ==> refs[i].1.kind.Reference?
    ensures forall t :: t in RepairTargets(refs, self) <==> t != self && exists i :: 0 <= i < |refs| && refs[i].1.kind.target == t
  {
    if refs != [] {
      var pre := refs[..|refs| - 1];
      RepairTargetsMember(pre, self);
      forall t ensures t in RepairTargets(refs, self) <==> t != self && exists i :: 0 <= i < |refs| && refs[i].1.kind.target == t {
        if exists i :: 0 <= i < |refs| && refs[i].1.kind.target == t {
          var i :| 0 <= i < |refs| && refs[i].1.kind.target == t;
          if i < |refs| - 1 { assert pre[i] == refs[i]; }
        }
        if exists i :: 0 <= i < |pre| && pre[i].1.kind.target == t {
          var i :| 0 <= i < |pre| && pre[i].1.kind.target == t;
          assert refs[i] == pre[i];
        }
      }
    }
  }

  /** Unsetting a non-reference field of the remaining list removes just that field. */
  lemma UnsetStep(fields: OMap<RefInfo>, i: nat)
    requires UniqueKeys(fields) && i < |fields| && !fields[i].1.kind.Reference?
    ensures Remove(References(fields[..i]) + fields[i..], fields[i].0) == References(fields[..i + 1]) + fields[i + 1..]
  {
    var kept := References(fields[..i]);
    var x := [fields[i]];
    var rest := fields[i + 1..];
    ReferencesSnoc(fields, i);
    assert fields[i..] == x + rest;
    UniqueAt(fields, i);
    ReferencesKeys(fields[..i]);
    RemoveMiddle(kept, fields[i], rest);
  }

  /** Keeping a reference field moves it from the rest of the list into the kept part. */
  lemma KeepStep(fields: OMap<RefInfo>, i: nat)
    requires i < |fields| && fields[i].1.kind.Reference?
    ensures References(fields[..i]) + fields[i..] == References(fields[..i + 1]) + fields[i + 1..]
  {
    ReferencesSnoc(fields, i);
    assert fields[i..] == [fields[i]] + fields[i + 1..];
  }

  /** foreach ($refs as $name => $ref) if (!$ref instanceof Reference) unset($refs[$name]); */
  method UnsetNonReferences(fields: OMap<RefInfo>) returns (refs: OMap<RefInfo>)
    requires UniqueKeys(fields)
    ensures refs == References(fields)
  {
    refs := fields;
    var i := 0;
    while i < |fields|
      invariant 0 <= i <= |fields|
      invariant refs == References(fields[..i]) + fields[i..]
    {
      var (name, ref) := fields[i];
      if !ref.kind.Reference? {
        UnsetStep(fields, i);
        refs := Remove(refs, name);
      } else {
        KeepStep(fields, i);
      }
      i := i + 1;
    }
    assert fields[..i] == fields;
  }

  /** One more reference adds its target to the repairs exactly when it is another model. */
  lemma RepairTargetsStep(refs: OMap<RefInfo>, self: string, k: nat)
    requires forall j :: 0 <= j < |refs| ==> refs[j].1.kind.Reference?
    requires k < |refs|
    ensures RepairTargets(refs[..k + 1], self) ==
            RepairTargets(refs[..k], self) + (if refs[k].1.kind.target != self then [refs[k].1.kind.target] else [])
  {
    assert refs[..k + 1][..k] == refs[..k];
  }

  /** The loop over the references: one repair per foreign target, one clause per reference. */
  method ClausesOf(refs: OMap<RefInfo>, self: string, rnd: nat -> nat) returns (ret: seq<string>, repaired: seq<string>)
    requires forall j :: 0 <= j < |refs| ==> refs[j].1.kind.Reference?
    ensures ret == FkClauses(refs, rnd)
    ensures repaired == RepairTargets(refs, self)
  {
    ret := [];
    repaired := [];
    ghost var all := FkClauses(refs, rnd);
    var k := 0;
    while k < |refs|
      invariant 0 <= k <= |refs|
      invariant ret == all[..k]
      invariant repaired == RepairTargets(refs[..k], self)
    {
      var ref := refs[k].1;
      RepairTargetsStep(refs, self, k);
      if ref.kind.target != self {
        repaired := repaired + [ref.kind.target];
      }
      var stmt := Clause(ConstraintName(rnd, k), ref);
      assert all[..k + 1] == all[..k] + [stmt];
      ret := ret + [stmt];
      k := k + 1;
    }
    assert refs[..k] == refs && all[..k] == all;
  }

  /**
   * foreignKeyDefinitions(): the non-reference fields are unset from the list; with
   * none left the result is empty; otherwise each reference, in order, repairs its
   * target table when that is another model, and yields one FOREIGN KEY clause. The
   * model is named self; rnd stands for the successive values of rand().
   */
  method ForeignKeyDefinitions(fields: OMap<RefInfo>, self: string, rnd: nat -> nat)
    returns (ret: seq<string>, repaired: seq<string>)
    requires UniqueKeys(fields)
    ensures var refs := References(fields);
            |ret| == |refs| &&
            (forall i :: 0 <= i < |refs| ==> ret[i] == FkClause(ConstraintName(rnd, i), refs[i].1)) &&
            repaired == RepairTargets(refs, self)
    ensures ret == FkClauses(References(fields), rnd)
  {
    var refs := UnsetNonReferences(fields);
    if refs == [] {
      return [], [];
    }
    ret, repaired := ClausesOf(refs, self, rnd);
  }

  /** A model without Reference fields has no foreign keys. */
  lemma {:induction false} NoReferencesNoClauses(fields: OMap<RefInfo>)
    requires forall i :: 0 <= i < |fields| ==> !fields[i].1.kind.Reference?
    ensures References(fields) == []
  {
    if fields != [] {
      NoReferencesNoClauses(fields[..|fields| - 1]);
    }
  }

  /** Every clause is a cascading foreign key, one per reference field. */
  lemma ClausesCascade(fields: OMap<RefInfo>, rnd: nat -> nat, ret: seq<string>)
    requires |ret| == |References(fields)|
    requires forall i :: 0 <= i < |ret| ==> ret[i] == FkClause(ConstraintName(rnd, i), References(fields)[i].1)
    ensures forall i :: 0 <= i < |ret| ==> EndsWith(ret[i], Cascade)
  {
  }
}
