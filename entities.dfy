/**
 * PHP's ordered associative arrays with string keys: a list of (key, value) pairs.
 * Assigning to an existing key replaces its value where it stands; assigning to a
 * new key appends the pair; unset removes it.
 */
module OrderedMaps {
  import opened Wrappers

  type OMap<V> = seq<(string, V)>

  function Keys<V>(m: OMap<V>): (ks: seq<string>)
    ensures |ks| == |m| && forall i :: 0 <= i < |m| ==> ks[i] == m[i].0
  {
    seq(|m|, i requires 0 <= i < |m| => m[i].0)
  }

  function Values<V>(m: OMap<V>): (vs: seq<V>)
    ensures |vs| == |m| && forall i :: 0 <= i < |m| ==> vs[i] == m[i].1
  {
    seq(|m|, i requires 0 <= i < |m| => m[i].1)
  }

  ghost function KeySet<V>(m: OMap<V>): set<string>
  {
    set i | 0 <= i < |m| :: m[i].0
  }

  ghost predicate UniqueKeys<V>(m: OMap<V>)
  {
    forall i, j :: 0 <= i < j < |m| ==> m[i].0 != m[j].0
  }

  /** The keys of a non-empty map: its first key and those of the rest. */
  lemma KeySetCons<V>(m: OMap<V>)
    requires m != []
    ensures KeySet(m) == {m[0].0} + KeySet(m[1..])
  {
    forall x ensures x in KeySet(m) <==> x in {m[0].0} + KeySet(m[1..]) {
      if x in KeySet(m) { var i :| 0 <= i < |m| && m[i].0 == x; if i > 0 { assert m[1..][i - 1].0 == x; } }
      if x in KeySet(m[1..]) { var i :| 0 <= i < |m[1..]| && m[1..][i].0 == x; assert m[i + 1].0 == x; }
    }
  }

  /** $m[$k] when isset, as an option. */
  function Get<V>(m: OMap<V>, k: string): (r: Option<V>)
    ensures r.Some? <==> k in KeySet(m)
  {
    if m == [] then None
    else if m[0].0 == k then Some(m[0].1)
    else
      KeySetCons(m);
      Get(m[1..], k)
  }

  /** $m[$k] = $v */
  function Put<V>(m: OMap<V>, k: string, v: V): (r: OMap<V>)
  {
    if m == [] then [(k, v)]
    else if m[0].0 == k then [(k, v)] + m[1..]
    else [m[0]] + Put(m[1..], k, v)
  }

  /** After $m[$k] = $v the key is set to v, every other key reads as before, and the key set grows by k. */
  lemma {:induction false} PutGet<V>(m: OMap<V>, k: string, v: V)
    ensures KeySet(Put(m, k, v)) == KeySet(m) + {k}
    ensures Get(Put(m, k, v), k) == Some(v)
    ensures forall k' :: k' != k ==> Get(Put(m, k, v), k') == Get(m, k')
  {
    var r := Put(m, k, v);
    if m == [] {
      assert KeySet(r) == {k} by { KeySetCons(r); }
    } else if m[0].0 == k {
      KeySetCons(r);
      KeySetCons(m);
      assert r[1..] == m[1..];
    } else {
      PutGet(m[1..], k, v);
      KeySetCons(r);
      KeySetCons(m);
      assert r[1..] == Put(m[1..], k, v);
    }
  }

  /** With no key repeated, each pair's key reads back that pair's value. */
  lemma {:induction false} GetAt<V>(m: OMap<V>, i: nat)
    requires UniqueKeys(m) && i < |m|
    ensures Get(m, m[i].0) == Some(m[i].1)
  {
    if i > 0 {
      assert m[0].0 != m[i].0;
      assert UniqueKeys(m[1..]) by {
        forall a, b | 0 <= a < b < |m[1..]| ensures m[1..][a].0 != m[1..][b].0 {
          assert m[1..][a] == m[a + 1] && m[1..][b] == m[b + 1];
        }
      }
      GetAt(m[1..], i - 1);
      assert m[1..][i - 1] == m[i];
    }
  }

  /** A new key is appended at the end; an existing key keeps its place. */
  lemma {:induction false} PutShape<V>(m: OMap<V>, k: string, v: V)
    ensures k !in KeySet(m) ==> Put(m, k, v) == m + [(k, v)]
    ensures k in KeySet(m) ==> Keys(Put(m, k, v)) == Keys(m)
  {
    if m != [] {
      KeySetCons(m);
      PutShape(m[1..], k, v);
      if m[0].0 != k {
        assert m == [m[0]] + m[1..];
        assert Put(m, k, v) == [m[0]] + Put(m[1..], k, v);
      }
    }
  }

  /** A pair whose key is new in a map with distinct keys keeps the keys distinct when put in front. */
  lemma ConsUnique<V>(h: (string, V), rest: OMap<V>)
    requires UniqueKeys(rest) && h.0 !in KeySet(rest)
    ensures UniqueKeys([h] + rest)
  {
    var r := [h] + rest;
    forall i, j | 0 <= i < j < |r| ensures r[i].0 != r[j].0 {
      assert r[j] == rest[j - 1];
      if i > 0 { assert r[i] == rest[i - 1]; }
    }
  }

  /** Assignment never creates a duplicate key. */
  lemma {:induction false} PutUnique<V>(m: OMap<V>, k: string, v: V)
    requires UniqueKeys(m)
    ensures UniqueKeys(Put(m, k, v))
  {
    if m != [] && m[0].0 != k {
      assert UniqueKeys(m[1..]) by {
        forall i, j | 0 <= i < j < |m[1..]| ensures m[1..][i].0 != m[1..][j].0 {
          assert m[1..][i] == m[i + 1] && m[1..][j] == m[j + 1];
        }
      }
      PutUnique(m[1..], k, v);
      PutGet(m[1..], k, v);
      KeySetCons(m);
      assert m[0].0 !in KeySet(m[1..]) by {
        forall i | 0 <= i < |m[1..]| ensures m[1..][i].0 != m[0].0 {
          assert m[1..][i] == m[i + 1];
        }
      }
      ConsUnique(m[0], Put(m[1..], k, v));
    } else if m != [] {
      ConsUnique((k, v), m[1..]);
    }
  }

  /** unset($m[$k]) */
  function Remove<V>(m: OMap<V>, k: string): (r: OMap<V>)
  {
    if m == [] then []
    else if m[0].0 == k then Remove(m[1..], k)
    else [m[0]] + Remove(m[1..], k)
  }

  /** After unset($m[$k]) the key is gone and every other key reads as before. */
  lemma {:induction false} RemoveGet<V>(m: OMap<V>, k: string)
    ensures KeySet(Remove(m, k)) == KeySet(m) - {k}
    ensures forall k' :: k' != k ==> Get(Remove(m, k), k') == Get(m, k')
  {
    if m != [] {
      RemoveGet(m[1..], k);
      KeySetCons(m);
      var r := Remove(m, k);
      if m[0].0 != k {
        KeySetCons(r);
        assert r[1..] == Remove(m[1..], k);
      }
    }
  }
  /** With unique keys, the key at position i occurs neither before nor after it. */
  lemma UniqueAt<V>(m: OMap<V>, i: nat)
    requires UniqueKeys(m) && i < |m|
    ensures m[i].0 !in KeySet(m[..i]) && m[i].0 !in KeySet(m[i + 1..])
  {
    var before := m[..i];
    var after := m[i + 1..];
    forall x | x in KeySet(before) ensures x != m[i].0 {
      var j :| 0 <= j < |before| && before[j].0 == x;
      assert before[j] == m[j];
    }
    forall x | x in KeySet(after) ensures x != m[i].0 {
      var j :| 0 <= j < |after| && after[j].0 == x;
      assert after[j] == m[i + 1 + j];
    }
  }

  /** Looking a key up in a concatenation: the first part answers if it holds the key. */
  lemma {:induction false} GetAppend<V>(p: OMap<V>, q: OMap<V>, k: string)
    ensures Get(p + q, k) == if k in KeySet(p) then Get(p, k) else Get(q, k)
  {
    if p == [] {
      assert p + q == q;
    } else {
      KeySetCons(p);
      assert (p + q)[0] == p[0] && (p + q)[1..] == p[1..] + q;
      GetAppend(p[1..], q, k);
    }
  }

  /** array_merge($a, $b) for string keys: each pair of b in turn is assigned into a. */
  function Merge<V>(a: OMap<V>, b: OMap<V>): OMap<V>
  {
    if b == [] then a
    else
      var last := b[|b| - 1];
      Put(Merge(a, b[..|b| - 1]), last.0, last.1)
  }

  /**
   * array_merge() keeps the keys of both arrays; a key of b takes b's value, any
   * other key keeps a's; the result has no duplicate key when a has none.
   */
  lemma {:induction false} MergeGet<V>(a: OMap<V>, b: OMap<V>)
    requires UniqueKeys(b)
    ensures KeySet(Merge(a, b)) == KeySet(a) + KeySet(b)
    ensures forall k :: k in KeySet(b) ==> Get(Merge(a, b), k) == Get(b, k)
    ensures forall k :: k !in KeySet(b) ==> Get(Merge(a, b), k) == Get(a, k)
    ensures UniqueKeys(a) ==> UniqueKeys(Merge(a, b))
  {
    if b != [] {
      var pre := b[..|b| - 1];
      var last := b[|b| - 1];
      assert b == pre + [last];
      assert UniqueKeys(pre) by {
        forall i, j | 0 <= i < j < |pre| ensures pre[i].0 != pre[j].0 { assert pre[i] == b[i] && pre[j] == b[j]; }
      }
      MergeGet(a, pre);
      PutGet(Merge(a, pre), last.0, last.1);
      if UniqueKeys(a) {
        PutUnique(Merge(a, pre), last.0, last.1);
      }
      assert KeySet([last]) == {last.0} by { KeySetCons([last]); assert [last][1..] == []; }
      assert KeySet(b) == KeySet(pre) + {last.0} by {
        forall x ensures x in KeySet(b) <==> x in KeySet(pre) + {last.0} {
          if x in KeySet(b) {
            var i :| 0 <= i < |b| && b[i].0 == x;
            if i < |pre| { assert pre[i] == b[i]; }
          }
          if x in KeySet(pre) {
            var i :| 0 <= i < |pre| && pre[i].0 == x;
            assert b[i] == pre[i];
          }
        }
      }
      assert last.0 !in KeySet(pre) by {
        forall x | x in KeySet(pre) ensures x != last.0 {
          var i :| 0 <= i < |pre| && pre[i].0 == x;
          assert b[i] == pre[i];
        }
      }
      forall k ensures Get(b, k) == if k in KeySet(pre) then Get(pre, k) else Get([last], k) {
        GetAppend(pre, [last], k);
      }
      assert Get([last], last.0) == Some(last.1);
    }
  }

  /** unset() of a key the map does not hold changes nothing. */
  lemma {:induction false} RemoveAbsent<V>(m: OMap<V>, k: string)
    requires k !in KeySet(m)
    ensures Remove(m, k) == m
  {
    if m != [] {
      KeySetCons(m);
      RemoveAbsent(m[1..], k);
      assert m == [m[0]] + m[1..];
    }
  }

  /** unset() works on each part of a concatenation separately. */
  lemma {:induction false} RemoveAppend<V>(a: OMap<V>, b: OMap<V>, k: string)
    ensures Remove(a + b, k) == Remove(a, k) + Remove(b, k)
  {
    if a == [] {
      assert a + b == b;
    } else {
      assert (a + b)[0] == a[0] && (a + b)[1..] == a[1..] + b;
      RemoveAppend(a[1..], b, k);
    }
  }

  /** Unsetting the one key a pair holds, between two parts that lack it, removes exactly that pair. */
  lemma RemoveMiddle<V>(a: OMap<V>, x: (string, V), b: OMap<V>)
    requires x.0 !in KeySet(a) && x.0 !in KeySet(b)
    ensures Remove(a + ([x] + b), x.0) == a + b
  {
    var k := x.0;
    RemoveAppend(a, [x] + b, k);
    RemoveAppend([x], b, k);
    assert [x][1..] == [];
    assert Remove([x], k) == [];
    RemoveAbsent(a, k);
    RemoveAbsent(b, k);
    assert Remove([x] + b, k) == b;
  }
}

/**
 * The values the core passes around: PHP values (with the objects a restriction can
 * hold as its value), the flags of a logical field, physical fields, records and the
 * exceptions the core throws.
 */
module Entities {
  import opened OrderedMaps

  /**
   * A PHP value. Model stands for a Model instance and carries the restrictions of
   * its own query (what getQuery() returns for it); SubQuery is a Query object;
   * Column is a query field used as a value, carried as its SQL text.
   */
  datatype Value =
    | Null
    | Bool(b: bool)
    | Int(i: int)
    | Str(s: string)
    | Arr(items: seq<Value>)
    | Model(query: seq<Restriction>)
    | SubQuery(restrictions: seq<Restriction>)
    | Column(text: string)

  /** PHP's truthiness: null, false, 0, "", "0" and the empty array are falsy; objects are not. */
  predicate Falsy(v: Value)
  {
    v == Null || v == Bool(false) || v == Int(0) || v == Str("") || v == Str("0") || v == Arr([])
  }

  /** The kinds of logical field the renderer distinguishes (Reference, ManyToManyField, ChildrenField). */
  datatype FieldKind = Scalar | Reference(target: string) | ManyToMany | Children
  {
    predicate IsRelation() { !Scalar? }
  }

  /** The four flags of a logical field. */
  datatype FieldFlags = FieldFlags(nullable: bool, unique: bool, primary: bool, autoIncrement: bool)
  {
    /** isPrimary(): primary or auto-increment. */
    predicate IsPrimary() { primary || autoIncrement }

    /** isIndexed(): primary or unique. */
    predicate IsIndexed() { primary || unique }
  }

  /**
   * A physical (DBMS) column: its name, the logical field object it materialises
   * (getLogicalField()) and the column definition the driver renders for it. The table
   * a column belongs to is its logical field's table (getTable()).
   */
  datatype DBField = DBField(name: string, logical: object, columnDefinition: string)

  /**
   * The flags of logical field objects as they stand when they are read; a physical
   * field whose logical field has no entry counts as neither primary nor auto-increment.
   */
  type FlagView = map<object, FieldFlags>

  /** The field side of a restriction: a query field (its SQL text, name and kind) or anything else. */
  datatype RField = Unscoped | Scoped(text: string, name: string, kind: FieldKind)

  /** A restriction of a query as the driver renders it; table is the SQL text of its query's table. */
  datatype Restriction = Restriction(field: RField, op: string, value: Value, table: string)

  /** A stored record (a Model): its primary data and the dbGetData() of each of its adapters. */
  datatype Record = Record(primaryData: OMap<Value>, data: seq<OMap<Value>>)

  datatype ValidationError = ValidationError(message: string, extendedMessage: string)

  datatype Exception =
    | PrivateException(message: string, code: int)
    | PublicException(message: string, code: int)
    | FileNotFoundException(message: string, code: int)
    | GenericException(message: string)
    /** An Error PHP itself raises: a call on null, calling null, an illegal offset. */
    | PhpError(message: string)
}
