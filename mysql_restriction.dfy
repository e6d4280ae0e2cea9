/**
 * How the MySQL PDO driver renders one restriction as SQL
 * (db/drivers/mysqlPDORestriction.php). The database's quote() is a parameter; any
 * exception raised while rendering is caught and the restriction renders as "".
 */
module MysqlRestrictions {
  import opened Wrappers
  import opened Php
  import opened Entities

  /** The two exceptions the renderer raises (and then catches). */
  datatype RenderError = NotAQueryField | InvalidData

  /** A value that a relation field renders as a parenthesised sub-query: a Query, or a Model (replaced by its query). */
  predicate IsQueryLike(v: Value)
  {
    v.Model? || v.SubQuery?
  }

  function SubRestrictions(v: Value): seq<Restriction>
    requires IsQueryLike(v)
  {
    if v.Model? then v.query else v.restrictions
  }

  /** Every element of an array value quoted on its own, in order. */
  function QuoteAll(items: seq<Value>, quote: Value -> string): (r: seq<string>)
    ensures |r| == |items| && forall i :: 0 <= i < |items| ==> r[i] == quote(items[i])
  {
    seq(|items|, i requires 0 <= i < |items| => quote(items[i]))
  }

  /**
   * The case analysis of __toString() before the catch: a field that is not a query
   * field fails; a relation field renders a Model or Query as its restrictions in
   * parentheses, null as a comparison with null, and fails on anything else; a plain
   * field renders an array as a quoted list, a query field unquoted, and anything
   * else quoted.
   */
  function Render(r: Restriction, quote: Value -> string): (res: Result<string, RenderError>)
    ensures res.Failure? <==> r.field.Unscoped? || (r.field.kind.IsRelation() && r.value != Null && !IsQueryLike(r.value))
    ensures res.Success? ==> |res.value| > 0
    decreases r, 1
  {
    match r.field
    case Unscoped => Failure(NotAQueryField)
    case Scoped(text, name, kind) =>
      if kind.IsRelation() then
        if IsQueryLike(r.value) then
          var rs := SubRestrictions(r.value);
          assert forall i :: 0 <= i < |rs| ==> rs[i] in rs;
          Success("(" + Join(RenderAll(rs, quote, r), " AND ") + ")")
        else if r.value == Null then
          Success("`" + r.table + "`.`" + name + "` " + r.op + " null}")
        else
          Failure(InvalidData)
      else
        match r.value
        case Arr(items) => Success(text + " " + r.op + " (" + Join(QuoteAll(items, quote), ",") + ")")
        case Column(c) => Success(text + " " + r.op + " " + c)
        case _ => Success(text + " " + r.op + " " + quote(r.value))
  }

  /** The SQL of each restriction of a sub-query, each rendered on its own (and so each caught on its own). */
  function RenderAll(rs: seq<Restriction>, quote: Value -> string, ghost parent: Restriction): (r: seq<string>)
    requires forall i :: 0 <= i < |rs| ==> rs[i] < parent
    ensures |r| == |rs| && forall i :: 0 <= i < |rs| ==> r[i] == ToString(rs[i], quote)
    decreases parent, 0, |rs|
  {
    if rs == [] then []
    else
      assert forall i :: 1 <= i < |rs| ==> rs[1..][i - 1] == rs[i];
      [ToString(rs[0], quote)] + RenderAll(rs[1..], quote, parent)
  }

  /** __toString(): the rendered SQL, or "" when rendering raised an exception. */
  function ToString(r: Restriction, quote: Value -> string): string
    decreases r, 2
  {
    match Render(r, quote)
    case Success(s) => s
    case Failure(_) => ""
  }

  /** A restriction renders as "" exactly when rendering fails. */
  lemma EmptyIffFailed(r: Restriction, quote: Value -> string)
    ensures ToString(r, quote) == "" <==> Render(r, quote).Failure?
  {
  }

  /** For a relation field a Model is rendered exactly as its query would be. */
  lemma ModelRendersAsItsQuery(r: Restriction, quote: Value -> string, rs: seq<Restriction>)
    requires r.field.Scoped? && r.field.kind.IsRelation()
    ensures ToString(r.(value := Model(rs)), quote) == ToString(r.(value := SubQuery(rs)), quote)
  {
    var a := r.(value := Model(rs));
    var b := r.(value := SubQuery(rs));
    assert forall i :: 0 <= i < |rs| ==> rs[i] in rs;
    assert RenderAll(rs, quote, a) == RenderAll(rs, quote, b) by {
      RenderAllParent(rs, quote, a, b);
    }
  }

  /** The ghost parent only serves termination: the rendered list does not depend on it. */
  lemma {:induction false} RenderAllParent(rs: seq<Restriction>, quote: Value -> string, p1: Restriction, p2: Restriction)
    requires forall i :: 0 <= i < |rs| ==> rs[i] < p1 && rs[i] < p2
    ensures RenderAll(rs, quote, p1) == RenderAll(rs, quote, p2)
    decreases |rs|
  {
    if rs != [] {
      assert forall i :: 1 <= i < |rs| ==> rs[1..][i - 1] == rs[i];
      RenderAllParent(rs[1..], quote, p1, p2);
    }
  }

  /**
   * foreach ($value as &$v) { $v = $db->quote($v); }: the array's elements are
   * replaced by their quoted forms one at a time.
   */
  method QuoteEach(values: seq<Value>, quote: Value -> string) returns (quoted: seq<string>)
    ensures quoted == QuoteAll(values, quote)
  {
    quoted := [];
    var i := 0;
    while i < |values|
      invariant 0 <= i <= |values| && |quoted| == i
      invariant forall j :: 0 <= j < i ==> quoted[j] == quote(values[j])
    {
      quoted := quoted + [quote(values[i])];
      i := i + 1;
    }
  }

  /** A relation field compared with a query renders each sub-restriction on its own, joined by " AND " in parentheses. */
  lemma SubQueryRelation(r: Restriction, quote: Value -> string)
    requires r.field.Scoped? && r.field.kind.IsRelation() && IsQueryLike(r.value)
    ensures var rs := SubRestrictions(r.value);
            exists parts: seq<string> ::
              |parts| == |rs| && (forall i :: 0 <= i < |rs| ==> parts[i] == ToString(rs[i], quote)) &&
              ToString(r, quote) == "(" + Join(parts, " AND ") + ")"
  {
    var rs := SubRestrictions(r.value);
    assert forall i :: 0 <= i < |rs| ==> rs[i] in rs;
    var parts := RenderAll(rs, quote, r);
    assert ToString(r, quote) == "(" + Join(parts, " AND ") + ")";
  }

  /** The relation-field comparison with null, brace included. */
  lemma NullRelation(r: Restriction, quote: Value -> string)
    requires r.field.Scoped? && r.field.kind.IsRelation() && r.value == Null
    ensures ToString(r, quote) == "`" + r.table + "`.`" + r.field.name + "` " + r.op + " null}"
  {
  }

  /** A plain field with an array value lists the elements quoted one by one, comma-separated, in order. */
  lemma ScalarArray(r: Restriction, quote: Value -> string)
    requires r.field.Scoped? && !r.field.kind.IsRelation() && r.value.Arr?
    ensures ToString(r, quote) == r.field.text + " " + r.op + " (" + Join(QuoteAll(r.value.items, quote), ",") + ")"
  {
  }

  /** A plain field compares with its value quoted, unless the value is itself a query field. */
  lemma ScalarValue(r: Restriction, quote: Value -> string)
    requires r.field.Scoped? && !r.field.kind.IsRelation() && !r.value.Arr?
    ensures r.value.Column? ==> ToString(r, quote) == r.field.text + " " + r.op + " " + r.value.text
    ensures !r.value.Column? ==> ToString(r, quote) == r.field.text + " " + r.op + " " + quote(r.value)
  {
  }
}
