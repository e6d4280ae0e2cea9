/**
 * What both table classes compute from their physical fields: the name-keyed field
 * map, the primary key, the auto-increment column, the restrictions of getById(),
 * and how PHP turns a value into an array key (for the record cache).
 */
module TableKeys {
  import opened Wrappers
  import opened Php
  import opened OrderedMaps
  import opened Entities
  import opened Queries
  import opened Logical

  // ----- The name-keyed map of physical fields -----

  /** foreach ($fs as $f) { $m[$f->getName()] = $f; } */
  function PutAll(m: OMap<DBField>, fs: seq<DBField>): OMap<DBField>
  {
    if fs == [] then m
    else
      var f := fs[|fs| - 1];
      Put(PutAll(m, fs[..|fs| - 1]), f.name, f)
  }

  /** Filling the map one more field at a time. */
  lemma PutAllSnoc(m: OMap<DBField>, fs: seq<DBField>, f: DBField)
    ensures PutAll(m, fs + [f]) == Put(PutAll(m, fs), f.name, f)
  {
    assert (fs + [f])[..|fs|] == fs;
  }

  ghost function Names(fs: seq<DBField>): set<string>
  {
    set i | 0 <= i < |fs| :: fs[i].name
  }

  /** The last field of fs carrying the name n. */
  function LastNamed(fs: seq<DBField>, n: string): (r: Option<DBField>)
    ensures r.Some? <==> n in Names(fs)
    ensures r.Some? ==> r.value.name == n && r.value in fs
    ensures r.Some? ==> exists i :: 0 <= i < |fs| && fs[i] == r.value && forall j :: i < j < |fs| ==> fs[j].name != n
  {
    if fs == [] then None
    else
      var f := fs[|fs| - 1];
      var pre := fs[..|fs| - 1];
      assert forall i :: 0 <= i < |pre| ==> pre[i] == fs[i];
      if f.name == n then
        assert fs[|fs| - 1] == f;
        Some(f)
      else
        var r := LastNamed(pre, n);
        assert Names(fs) == Names(pre) + {f.name} by {
          forall x ensures x in Names(fs) <==> x in Names(pre) + {f.name} {
            if x in Names(fs) {
              var i :| 0 <= i < |fs| && fs[i].name == x;
              if i < |pre| { assert pre[i].name == x; }
            }
          }
        }
        r
  }

  /**
   * Every physical field ends up in the map under its name, and a name maps to the
   * LAST field carrying it: a later field with the same name overwrites an earlier one.
   */
  lemma {:induction false} PutAllGet(m: OMap<DBField>, fs: seq<DBField>, n: string)
    ensures Get(PutAll(m, fs), n) == (if n in Names(fs) then LastNamed(fs, n) else Get(m, n))
  {
    if fs != [] {
      var f := fs[|fs| - 1];
      var pre := fs[..|fs| - 1];
      PutAllGet(m, pre, n);
      PutGet(PutAll(m, pre), f.name, f);
      assert Names(fs) == Names(pre) + {f.name} by {
        forall x ensures x in Names(fs) <==> x in Names(pre) + {f.name} {
          if x in Names(fs) {
            var i :| 0 <= i < |fs| && fs[i].name == x;
            if i < |pre| { assert pre[i].name == x; }
          }
          if x in Names(pre) {
            var i :| 0 <= i < |pre| && pre[i].name == x;
            assert fs[i].name == x;
          }
        }
      }
    }
  }

  /** The keys of the map are exactly the names seen, and no key is repeated. */
  lemma {:induction false} PutAllKeys(fs: seq<DBField>)
    ensures KeySet(PutAll([], fs)) == Names(fs)
    ensures UniqueKeys(PutAll([], fs))
  {
    if fs != [] {
      var f := fs[|fs| - 1];
      var pre := fs[..|fs| - 1];
      PutAllKeys(pre);
      PutGet(PutAll([], pre), f.name, f);
      PutUnique(PutAll([], pre), f.name, f);
      assert Names(fs) == Names(pre) + {f.name} by {
        forall x ensures x in Names(fs) <==> x in Names(pre) + {f.name} {
          if x in Names(fs) {
            var i :| 0 <= i < |fs| && fs[i].name == x;
            if i < |pre| { assert pre[i].name == x; }
          }
          if x in Names(pre) {
            var i :| 0 <= i < |pre| && pre[i].name == x;
            assert fs[i].name == x;
          }
        }
      }
    }
  }

  /** Every entry of a field map is filed under its field's own name. */
  ghost predicate Named(m: OMap<DBField>)
  {
    forall i :: 0 <= i < |m| ==> m[i].0 == m[i].1.name
  }

  lemma {:induction false} PutNamed(m: OMap<DBField>, f: DBField)
    requires Named(m)
    ensures Named(Put(m, f.name, f))
  {
    if m != [] && m[0].0 != f.name {
      assert Named(m[1..]) by {
        forall i | 0 <= i < |m[1..]| ensures m[1..][i].0 == m[1..][i].1.name {
          assert m[1..][i] == m[i + 1];
        }
      }
      PutNamed(m[1..], f);
    }
  }

  /** The map built from a list of fields files every field under its name. */
  lemma {:induction false} PutAllNamed(fs: seq<DBField>)
    ensures Named(PutAll([], fs))
  {
    if fs != [] {
      PutAllNamed(fs[..|fs| - 1]);
      PutNamed(PutAll([], fs[..|fs| - 1]), fs[|fs| - 1]);
    }
  }

  /** All physical fields of all logical fields, one list after the other. */
  function Flatten(lists: seq<seq<DBField>>): seq<DBField>
  {
    if lists == [] then [] else Flatten(lists[..|lists| - 1]) + lists[|lists| - 1]
  }

  lemma FlattenSnoc(lists: seq<seq<DBField>>, l: seq<DBField>)
    ensures Flatten(lists + [l]) == Flatten(lists) + l
  {
    assert (lists + [l])[..|lists|] == lists;
  }

  /** Every field of the flattened lists comes from one of them. */
  lemma {:induction false} FlattenMember(lists: seq<seq<DBField>>, g: DBField)
    requires g in Flatten(lists)
    ensures exists j :: 0 <= j < |lists| && g in lists[j]
  {
    var pre := lists[..|lists| - 1];
    if g !in lists[|lists| - 1] {
      FlattenMember(pre, g);
      var j :| 0 <= j < |pre| && g in pre[j];
      assert pre[j] == lists[j];
    }
  }

  // ----- The primary key -----

  /** $field->getLogicalField()->isPrimary(), with the logical fields' flags read from v. */
  predicate IsPrimaryField(f: DBField, v: FlagView)
  {
    f.logical in v && v[f.logical].IsPrimary()
  }

  /** $field->getLogicalField()->isAutoIncrement(), with the logical fields' flags read from v. */
  predicate IsAutoIncrementField(f: DBField, v: FlagView)
  {
    f.logical in v && v[f.logical].autoIncrement
  }

  /** foreach ($fields as $name => $field) if (isPrimary) $pk[$name] = $field; */
  function PrimaryOf(m: OMap<DBField>, v: FlagView): OMap<DBField>
  {
    if m == [] then []
    else
      var (k, f) := m[|m| - 1];
      var pk := PrimaryOf(m[..|m| - 1], v);
      if IsPrimaryField(f, v) then Put(pk, k, f) else pk
  }

  /** The primary entries of m, in their order in m. */
  function PrimaryPairs(m: OMap<DBField>, v: FlagView): (r: OMap<DBField>)
    ensures |r| <= |m|
  {
    if m == [] then []
    else
      var (k, f) := m[|m| - 1];
      var pk := PrimaryPairs(m[..|m| - 1], v);
      if IsPrimaryField(f, v) then pk + [(k, f)] else pk
  }

  /** An entry is in the primary key exactly when it is an entry of m whose field is primary. */
  lemma {:induction false} PrimaryPairsMember(m: OMap<DBField>, v: FlagView, e: (string, DBField))
    ensures e in PrimaryPairs(m, v) <==> e in m && IsPrimaryField(e.1, v)
  {
    if m != [] {
      var pre := m[..|m| - 1];
      PrimaryPairsMember(pre, v, e);
      assert m == pre + [m[|m| - 1]];
      assert e in m <==> e in pre || e == m[|m| - 1];
    }
  }

  /** Selecting the primary entries of two halves and concatenating keeps the order of the fields. */
  lemma {:induction false} PrimaryPairsAppend(a: OMap<DBField>, b: OMap<DBField>, v: FlagView)
    ensures PrimaryPairs(a + b, v) == PrimaryPairs(a, v) + PrimaryPairs(b, v)
  {
    if b == [] {
      assert a + b == a;
    } else {
      var pre := b[..|b| - 1];
      PrimaryPairsAppend(a, pre, v);
      assert (a + b)[..|a + b| - 1] == a + pre;
      assert (a + b)[|a + b| - 1] == b[|b| - 1];
    }
  }

  lemma {:induction false} PrimaryPairsKeys(m: OMap<DBField>, v: FlagView)
    ensures KeySet(PrimaryPairs(m, v)) <= KeySet(m)
  {
    if m != [] {
      var pre := m[..|m| - 1];
      PrimaryPairsKeys(pre, v);
      assert KeySet(pre) <= KeySet(m) by {
        forall x | x in KeySet(pre) ensures x in KeySet(m) {
          var i :| 0 <= i < |pre| && pre[i].0 == x;
          assert m[i].0 == x;
        }
      }
      assert m[|m| - 1].0 in KeySet(m);
      var (k, f) := m[|m| - 1];
      if IsPrimaryField(f, v) {
        var pk := PrimaryPairs(pre, v);
        forall x | x in KeySet(pk + [(k, f)]) ensures x in KeySet(m) {
          var i :| 0 <= i < |pk + [(k, f)]| && (pk + [(k, f)])[i].0 == x;
          if i < |pk| { assert pk[i].0 == x; }
        }
      }
    }
  }

  /**
   * With unique names (as the table's field map has), the keyed assignment of
   * getPrimaryKey() builds exactly the primary entries in field order.
   */
  lemma {:induction false} PrimaryOfIsPairs(m: OMap<DBField>, v: FlagView)
    requires UniqueKeys(m)
    ensures PrimaryOf(m, v) == PrimaryPairs(m, v)
  {
    if m != [] {
      var pre := m[..|m| - 1];
      assert UniqueKeys(pre) by {
        forall i, j | 0 <= i < j < |pre| ensures pre[i].0 != pre[j].0 {
          assert pre[i] == m[i] && pre[j] == m[j];
        }
      }
      PrimaryOfIsPairs(pre, v);
      var (k, f) := m[|m| - 1];
      if IsPrimaryField(f, v) {
        PrimaryPairsKeys(pre, v);
        forall i | 0 <= i < |pre| ensures pre[i].0 != k {
          assert pre[i] == m[i];
        }
        PutShape(PrimaryPairs(pre, v), k, f);
      }
    }
  }

  // ----- The auto-increment column -----

  /** The first field whose logical field is auto-increment, if any. */
  function FirstAutoIncrement(fs: seq<DBField>, v: FlagView): (r: Option<DBField>)
    ensures r.Some? ==> exists i :: 0 <= i < |fs| && fs[i] == r.value && IsAutoIncrementField(r.value, v) &&
                          forall j :: 0 <= j < i ==> !IsAutoIncrementField(fs[j], v)
    ensures r.None? ==> forall j :: 0 <= j < |fs| ==> !IsAutoIncrementField(fs[j], v)
  {
    if fs == [] then None
    else if IsAutoIncrementField(fs[0], v) then Some(fs[0])
    else
      var r := FirstAutoIncrement(fs[1..], v);
      assert forall j :: 1 <= j < |fs| ==> fs[j] == fs[1..][j - 1];
      r
  }

  /**
   * With the flags read from the logical fields as they are now, an entry is in the
   * primary key exactly when it is an entry of m whose logical field says isPrimary().
   */
  lemma LivePrimaryMember(m: OMap<DBField>, e: (string, DBField))
    ensures e in PrimaryPairs(m, LiveFlags(Values(m))) <==>
            e in m && e.1.logical is Field && (e.1.logical as Field).IsPrimary()
  {
    var v := LiveFlags(Values(m));
    PrimaryPairsMember(m, v, e);
    if e in m {
      var i :| 0 <= i < |m| && m[i] == e;
      assert Values(m)[i] == e.1;
    }
  }

  /**
   * foreach ($fields as $name => $field) { if ($field->getLogicalField()->isPrimary()) $pk[$name] = $field; }
   * with each logical field asked as it is now.
   */
  method ScanPrimary(fields: OMap<DBField>) returns (pk: OMap<DBField>)
    ensures pk == PrimaryOf(fields, LiveFlags(Values(fields)))
  {
    ghost var v := LiveFlags(Values(fields));
    pk := [];
    var i := 0;
    while i < |fields|
      invariant 0 <= i <= |fields|
      invariant pk == PrimaryOf(fields[..i], v)
    {
      var (name, field) := fields[i];
      assert fields[..i + 1][..i] == fields[..i];
      assert Values(fields)[i] == field;
      var logical: object := fields[i].1.logical;
      assert IsPrimaryField(field, v) <==> logical is Field && (logical as Field).IsPrimary();
      if logical is Field && (logical as Field).IsPrimary() {
        pk := Put(pk, name, field);
      }
      i := i + 1;
    }
    assert fields[..i] == fields;
  }

  /**
   * foreach ($fields as $field) { if ($field->getLogicalField()->isAutoIncrement()) return $field; }
   * with each logical field asked as it is now.
   */
  method ScanAutoIncrement(fs: seq<DBField>) returns (r: Option<DBField>)
    ensures r == FirstAutoIncrement(fs, LiveFlags(fs))
  {
    ghost var v := LiveFlags(fs);
    var i := 0;
    while i < |fs|
      invariant 0 <= i <= |fs|
      invariant FirstAutoIncrement(fs, v) == FirstAutoIncrement(fs[i..], v)
    {
      assert fs[i..][1..] == fs[i + 1..];
      var logical: object := fs[i].logical;
      assert IsAutoIncrementField(fs[i], v) <==> logical is Field && (logical as Field).IsAutoIncrement();
      if logical is Field && (logical as Field).IsAutoIncrement() {
        return Some(fs[i]);
      }
      i := i + 1;
    }
    r := None;
  }

  // ----- getById -----

  /** The id getById() receives: an array of components, or a string of ':'-separated components. */
  datatype Id = IdList(items: seq<Value>) | IdText(text: string)

  /** if (!is_array($id)) { $id = explode(':', $id); } */
  function Components(id: Id): (r: seq<Value>)
    ensures id.IdText? ==> |r| == |Explode(':', id.text)| && forall i :: 0 <= i < |r| ==> r[i] == Str(Explode(':', id.text)[i])
  {
    match id
    case IdList(items) => items
    case IdText(t) =>
      var parts := Explode(':', t);
      seq(|parts|, i requires 0 <= i < |parts| => Str(parts[i]))
  }

  /** The restriction getById() adds for the i-th primary-key field: the i-th component, or null when the id is too short. */
  function BindAt(pk: seq<DBField>, ids: seq<Value>, i: nat): Clause
    requires i < |pk|
  {
    Clause(ByField(pk[i]), if i < |ids| then ids[i] else Null, None)
  }

  /** All restrictions getById() adds, one per primary-key field in key order. */
  function Bind(pk: seq<DBField>, ids: seq<Value>): (r: seq<Clause>)
    ensures |r| == |pk|
    ensures forall i :: 0 <= i < |pk| ==> r[i].field == ByField(pk[i]) && r[i].op == None
    ensures forall i :: 0 <= i < |pk| && i < |ids| ==> r[i].value == ids[i]
    ensures forall i :: |ids| <= i < |pk| ==> r[i].value == Null
  {
    seq(|pk|, i requires 0 <= i < |pk| => BindAt(pk, ids, i))
  }

  /** Surplus id components are ignored: only the first |pk| of them matter. */
  lemma BindIgnoresSurplus(pk: seq<DBField>, ids: seq<Value>, extra: seq<Value>)
    requires |ids| >= |pk|
    ensures Bind(pk, ids + extra) == Bind(pk, ids)
  {
  }

  // ----- PHP array keys -----

  /** The key an array offset is stored under: integers and canonical decimal strings are integer keys. */
  datatype ArrayKey = IntKey(i: int) | StrKey(s: string)

  predicate IsDigit(c: char) { '0' <= c <= '9' }

  predicate AllDigits(s: string) { forall i :: 0 <= i < |s| ==> IsDigit(s[i]) }

  /** A decimal integer literal without sign or leading zero. */
  predicate CanonicalNat(s: string)
  {
    s == "0" || (|s| >= 1 && s[0] != '0' && AllDigits(s))
  }

  function ParseNat(s: string): nat
    requires AllDigits(s)
  {
    if s == [] then 0 else 10 * ParseNat(s[..|s| - 1]) + (s[|s| - 1] as int - '0' as int)
  }

  /**
   * The array key PHP uses for a value: null is "", booleans are 0/1, strings that
   * are canonical decimal integers become integer keys; arrays and objects are illegal offsets.
   */
  function KeyOf(v: Value): Option<ArrayKey>
  {
    match v
    case Null => Some(StrKey(""))
    case Bool(b) => Some(IntKey(if b then 1 else 0))
    case Int(i) => Some(IntKey(i))
    case Str(s) =>
      if CanonicalNat(s) then Some(IntKey(ParseNat(s)))
      else if |s| >= 2 && s[0] == '-' && s[1..] != "0" && CanonicalNat(s[1..]) then Some(IntKey(-(ParseNat(s[1..]) as int)))
      else Some(StrKey(s))
    case _ => None
  }

  lemma {:induction false} NatToStringDigits(n: nat)
    ensures AllDigits(NatToString(n)) && ParseNat(NatToString(n)) == n
    ensures n >= 1 ==> NatToString(n)[0] != '0'
  {
    var s := NatToString(n);
    if n >= 10 {
      NatToStringDigits(n / 10);
      assert s[..|s| - 1] == NatToString(n / 10);
      assert s[0] == NatToString(n / 10)[0];
    }
  }

  /** The string form of a number and the number itself address the same array slot. */
  lemma NumericStringKey(n: nat)
    ensures KeyOf(Str(NatToString(n))) == KeyOf(Int(n))
  {
    NatToStringDigits(n);
    var s := NatToString(n);
    if n == 0 { assert s == "0"; }
    assert CanonicalNat(s);
  }
}
