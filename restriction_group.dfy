/**
 * A group of restrictions of the legacy query API (spitfire/db/restrictionGroup.php):
 * an append-only list, the group it belongs to, and the stringify callback it hands
 * down to every member. Its SQL form is its members' SQL joined by " AND ".
 */
module RestrictionGroups {
  import opened Wrappers
  import opened Php
  import opened Entities

  /** A stringify callback, known only by identity. */
  datatype Callback = Callback(id: nat)

  /**
   * A member restriction: its value, its SQL text (what its __toString() yields) and
   * the callback it was last given.
   */
  class SfRestriction {
    const value: Value
    const text: string
    var stringify: Option<Callback>

    constructor(value: Value, text: string)
      ensures this.value == value && this.text == text && stringify == None
    {
      this.value := value;
      this.text := text;
      stringify := None;
    }

    method SetStringify(cb: Callback)
      modifies this
      ensures stringify == Some(cb)
    {
      stringify := Some(cb);
    }
  }

  /** The SQL texts of a list of restrictions, in order. */
  function Texts(rs: seq<SfRestriction>): (r: seq<string>)
    ensures |r| == |rs| && forall i :: 0 <= i < |rs| ==> r[i] == rs[i].text
  {
    seq(|rs|, i requires 0 <= i < |rs| => rs[i].text)
  }

  class RestrictionGroup {
    const belongsTo: object?
    var restrictions: seq<SfRestriction>
    var stringify: Option<Callback>

    constructor(belongsTo: object?, restrictions: seq<SfRestriction>)
      ensures this.belongsTo == belongsTo && this.restrictions == restrictions && stringify == None
    {
      this.belongsTo := belongsTo;
      this.restrictions := restrictions;
      stringify := None;
    }

    /** addRestriction($r): appended at the end, the earlier ones untouched; returns the group itself. */
    method AddRestriction(r: SfRestriction) returns (g: RestrictionGroup)
      modifies this
      ensures g == this && restrictions == old(restrictions) + [r] && stringify == old(stringify)
      ensures ToString() == if old(restrictions) == [] then r.text else old(ToString()) + " AND " + r.text
    {
      JoinSnoc(Texts(restrictions), r.text, " AND ");
      assert Texts(restrictions + [r]) == Texts(restrictions) + [r.text];
      restrictions := restrictions + [r];
      g := this;
    }

    function GetRestrictions(): seq<SfRestriction>
      reads this
    {
      restrictions
    }

    /** getRestriction($index): null (None) for an index the list does not have. */
    function GetRestriction(index: int): (r: Option<SfRestriction>)
      reads this
      ensures r.Some? <==> 0 <= index < |restrictions|
      ensures r.Some? ==> r.value == restrictions[index]
    {
      if 0 <= index < |restrictions| then Some(restrictions[index]) else None
    }

    /** getValues(): the members' values, one per member, in order. */
    method GetValues() returns (values: seq<Value>)
      ensures |values| == |restrictions|
      ensures forall i :: 0 <= i < |restrictions| ==> values[i] == restrictions[i].value
    {
      values := [];
      var i := 0;
      while i < |restrictions|
        invariant 0 <= i <= |restrictions| && |values| == i
        invariant forall j :: 0 <= j < i ==> values[j] == restrictions[j].value
      {
        values := values + [restrictions[i].value];
        i := i + 1;
      }
    }

    /** endGroup(): the enclosing group given at construction. */
    function EndGroup(): object?
    {
      belongsTo
    }

    /** setStringify($callback): kept by the group and handed to every member. */
    method SetStringify(cb: Callback)
      modifies this, set r | r in restrictions
      ensures stringify == Some(cb) && restrictions == old(restrictions)
      ensures forall r :: r in restrictions ==> r.stringify == Some(cb)
    {
      stringify := Some(cb);
      var i := 0;
      while i < |restrictions|
        invariant 0 <= i <= |restrictions| && restrictions == old(restrictions) && stringify == Some(cb)
        invariant forall j :: 0 <= j < i ==> restrictions[j].stringify == Some(cb)
      {
        restrictions[i].SetStringify(cb);
        i := i + 1;
      }
    }

    /** __toString(): the members' SQL joined by " AND ". */
    function ToString(): string
      reads this
    {
      Join(Texts(restrictions), " AND ")
    }
  }

  /** One more member extends the group's SQL by " AND " and that member's own SQL (or is all of it, for the first). */
  lemma ToStringGrows(rs: seq<SfRestriction>, r: SfRestriction)
    ensures Join(Texts(rs + [r]), " AND ") ==
            if rs == [] then r.text else Join(Texts(rs), " AND ") + " AND " + r.text
  {
    assert Texts(rs + [r]) == Texts(rs) + [r.text];
    JoinSnoc(Texts(rs), r.text, " AND ");
  }

  /** An empty group renders as the empty string; a single member renders as itself. */
  lemma ToStringSmall(g: RestrictionGroup)
    ensures g.restrictions == [] ==> g.ToString() == ""
    ensures |g.restrictions| == 1 ==> g.ToString() == g.restrictions[0].text
  {
  }
}
