/**
 * A query under construction: the table it reads and the restrictions added to it,
 * in the order they were added. addRestriction() is the only way the core fills it.
 */
module Queries {
  import opened Wrappers
  import opened Entities

  /** The field argument of addRestriction(): a field name or a physical field. */
  datatype FieldRef = ByName(name: string) | ByField(f: DBField)

  /** One addRestriction($field, $value, $operator) call; None stands for the null operator. */
  datatype Clause = Clause(field: FieldRef, value: Value, op: Option<string>)

  class Query {
    const table: object?
    var clauses: seq<Clause>

    /** getQueryInstance(): a new query on the table with nothing added yet. */
    constructor(table: object?)
      ensures this.table == table && clauses == []
    {
      this.table := table;
      clauses := [];
    }

    /** addRestriction($field, $value, $operator): appended after the earlier ones. */
    method AddRestriction(field: FieldRef, value: Value, op: Option<string>)
      modifies this
      ensures clauses == old(clauses) + [Clause(field, value, op)]
    {
      clauses := clauses + [Clause(field, value, op)];
    }
  }
}

/**
 * The shorthand query constructors every table offers (storage/database/Queriable.php),
 * and the rewrite that turns a search string into a fuzzy LIKE pattern.
 */
module Queriables {
  import opened Wrappers
  import opened Entities
  import opened Php
  import opened Queries

  /** Restriction::LIKE_OPERATOR */
  const LikeOperator: string := "LIKE"

  /** str_replace(['%', ' '], ['[%]', '%'], $value): every '%' is escaped first, then every space becomes '%'. */
  function FuzzyEscape(v: string): string
  {
    ReplaceChar(ReplaceChar(v, '%', "[%]"), ' ', "%")
  }

  /** The pattern a fuzzy like() searches for: the escaped value between two '%'. */
  function FuzzyPattern(v: string): (r: string)
    ensures |r| >= 2 && r[0] == '%' && r[|r| - 1] == '%'
    ensures r[1..|r| - 1] == FuzzyEscape(v)
  {
    "%" + FuzzyEscape(v) + "%"
  }

  /** The value like() restricts on: the fuzzy pattern when asked for, the value unchanged otherwise. */
  function LikeValue(v: string, fuzzy: bool): string
  {
    if fuzzy then FuzzyPattern(v) else v
  }

  /** Character by character: what one character of the search string turns into. */
  function EscapeChar(c: char): string
  {
    if c == '%' then "[%]" else if c == ' ' then "%" else [c]
  }

  /** A reference definition of the fuzzy rewrite, one character at a time. */
  function EscapeEach(v: string): string
  {
    if v == [] then [] else EscapeChar(v[0]) + EscapeEach(v[1..])
  }

  /**
   * The two sequential replacements act like one simultaneous per-character
   * replacement: the spaces the second pass rewrites are only the original ones,
   * since "[%]" holds no space.
   */
  lemma {:induction false} FuzzyEscapeIsPerChar(v: string)
    ensures FuzzyEscape(v) == EscapeEach(v)
  {
    if v != [] {
      FuzzyEscapeIsPerChar(v[1..]);
      var head := if v[0] == '%' then "[%]" else [v[0]];
      assert ReplaceChar(v, '%', "[%]") == head + ReplaceChar(v[1..], '%', "[%]");
      ReplaceCharConcat(head, ReplaceChar(v[1..], '%', "[%]"), ' ', "%");
      if v[0] == '%' {
        assert ReplaceChar("[%]", ' ', "%") == "[%]";
      } else {
        assert ReplaceChar([v[0]], ' ', "%") == EscapeChar(v[0]);
      }
    }
  }

  /** The escaped value holds no space, so neither does the fuzzy pattern. */
  lemma FuzzyHasNoSpace(v: string)
    ensures ' ' !in FuzzyEscape(v)
    ensures ' ' !in FuzzyPattern(v)
  {
    ReplaceCharRemoves(ReplaceChar(v, '%', "[%]"), ' ', "%");
  }

  /** Every original '%' is kept literal: a value without spaces or '%' passes through unchanged. */
  lemma {:induction false} FuzzyKeepsPlainText(v: string)
    requires ' ' !in v && '%' !in v
    ensures FuzzyEscape(v) == v
  {
    FuzzyEscapeIsPerChar(v);
    EscapeEachPlain(v);
  }

  lemma {:induction false} EscapeEachPlain(v: string)
    requires ' ' !in v && '%' !in v
    ensures EscapeEach(v) == v
  {
    if v != [] {
      assert v[0] in v;
      assert forall c :: c in v[1..] ==> c in v;
      EscapeEachPlain(v[1..]);
    }
  }

  /** get($field, $value, $operator): a new query carrying exactly that one restriction. */
  method Get(table: object?, field: FieldRef, value: Value, op: Option<string>) returns (q: Query)
    ensures fresh(q) && q.table == table
    ensures q.clauses == [Clause(field, value, op)]
  {
    q := new Query(table);
    q.AddRestriction(field, value, op);
  }

  /** getAll(): a new query with no restriction. */
  method GetAll(table: object?) returns (q: Query)
    ensures fresh(q) && q.table == table && q.clauses == []
  {
    q := new Query(table);
  }

  /** like($field, $value, $fuzzy): a new query with one LIKE restriction on the (possibly rewritten) value. */
  method Like(table: object?, field: FieldRef, value: string, fuzzy: bool) returns (q: Query)
    ensures fresh(q) && q.table == table
    ensures q.clauses == [Clause(field, Str(LikeValue(value, fuzzy)), Some(LikeOperator))]
    ensures !fuzzy ==> q.clauses[0].value == Str(value)
  {
    var v := value;
    if fuzzy {
      v := "%" + FuzzyEscape(value) + "%";
    }
    q := new Query(table);
    q.AddRestriction(field, Str(v), Some(LikeOperator));
  }
}
