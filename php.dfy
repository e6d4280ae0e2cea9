/** Option and Result: the two ways a modelled operation reports "no value" or an exception. */
module Wrappers {
  datatype Option<+T> = None | Some(value: T)

  datatype Result<+T, +E> = Success(value: T) | Failure(error: E)
}

/**
 * The PHP string primitives the framework relies on, written out: implode, explode,
 * trim/ltrim/rtrim with a character list, str_replace of one character, decimal
 * formatting of integers, strpos-style search and the pieces of pathinfo().
 */
module Php {
  import opened Wrappers

  /** implode(sep, parts) */
  function Join(parts: seq<string>, sep: string): string
  {
    if |parts| == 0 then ""
    else if |parts| == 1 then parts[0]
    else parts[0] + sep + Join(parts[1..], sep)
  }

  /** Appending one part to a non-empty list adds exactly one separator and the part. */
  lemma {:induction false} JoinSnoc(parts: seq<string>, p: string, sep: string)
    ensures Join(parts + [p], sep) == if parts == [] then p else Join(parts, sep) + sep + p
  {
    if |parts| <= 1 {
      if |parts| == 1 {
        assert (parts + [p])[1..] == [p];
      } else {
        assert parts + [p] == [p];
      }
    } else {
      assert (parts + [p])[1..] == parts[1..] + [p];
      JoinSnoc(parts[1..], p, sep);
    }
  }

  /** Index of the first occurrence of c in s. */
  function FirstIndex(s: string, c: char): (i: nat)
    requires c in s
    ensures i < |s| && s[i] == c && c !in s[..i]
  {
    if s[0] == c then 0
    else
      var k := FirstIndex(s[1..], c);
      assert s[..k + 1] == [s[0]] + s[1..][..k];
      k + 1
  }

  /** Index of the last occurrence of c in s. */
  function LastIndex(s: string, c: char): (i: nat)
    requires c in s
    ensures i < |s| && s[i] == c && c !in s[i + 1..]
  {
    if s[|s| - 1] == c then |s| - 1
    else
      assert c in s[..|s| - 1] by {
        var j :| 0 <= j < |s| && s[j] == c;
        assert j < |s| - 1 && s[..|s| - 1][j] == c;
      }
      var k := LastIndex(s[..|s| - 1], c);
      assert s[k + 1..] == s[..|s| - 1][k + 1..] + [s[|s| - 1]];
      k
  }

  /** explode(d, s) with a one-character delimiter: never empty, no piece holds d. */
  function Explode(d: char, s: string): (r: seq<string>)
    ensures |r| >= 1
    ensures forall i :: 0 <= i < |r| ==> d !in r[i]
    decreases |s|
  {
    if d !in s then [s]
    else
      var i := FirstIndex(s, d);
      [s[..i]] + Explode(d, s[i + 1..])
  }

  /** Gluing the pieces of explode back together with the delimiter restores the string. */
  lemma {:induction false} JoinExplode(d: char, s: string)
    ensures Join(Explode(d, s), [d]) == s
    decreases |s|
  {
    if d in s {
      var i := FirstIndex(s, d);
      var rest := Explode(d, s[i + 1..]);
      JoinExplode(d, s[i + 1..]);
      assert Explode(d, s) == [s[..i]] + rest;
      assert (([s[..i]] + rest)[1..]) == rest;
      assert s == s[..i] + [d] + s[i + 1..];
    }
  }

  /** ltrim(s, cs) */
  function LTrim(s: string, cs: set<char>): (r: string)
    ensures |r| <= |s| && r == s[|s| - |r|..]
    ensures r == [] || r[0] !in cs
  {
    if |s| > 0 && s[0] in cs then LTrim(s[1..], cs) else s
  }

  /** rtrim(s, cs) */
  function RTrim(s: string, cs: set<char>): (r: string)
    ensures |r| <= |s| && r == s[..|r|]
    ensures r == [] || r[|r| - 1] !in cs
  {
    if |s| > 0 && s[|s| - 1] in cs then RTrim(s[..|s| - 1], cs) else s
  }

  /** trim(s, cs): the characters of cs are removed from both ends. */
  function Trim(s: string, cs: set<char>): string
  {
    RTrim(LTrim(s, cs), cs)
  }

  /** trim() leaves a string that neither starts nor ends with a trimmed character. */
  lemma TrimEnds(s: string, cs: set<char>)
    ensures Trim(s, cs) == [] || (Trim(s, cs)[0] !in cs && Trim(s, cs)[|Trim(s, cs)| - 1] !in cs)
  {
    var l := LTrim(s, cs);
    var r := RTrim(l, cs);
    if r != [] {
      assert r[0] == l[0];
    }
  }

  /** A string with no trimmed character at either end is a fixed point of trim(). */
  lemma TrimFixed(s: string, cs: set<char>)
    requires s == [] || (s[0] !in cs && s[|s| - 1] !in cs)
    ensures Trim(s, cs) == s
  {
  }

  /** ltrim() removes only characters of cs. */
  lemma {:induction false} LTrimRemovesOnly(s: string, cs: set<char>)
    ensures forall k :: 0 <= k < |s| - |LTrim(s, cs)| ==> s[k] in cs
  {
    if |s| > 0 && s[0] in cs {
      LTrimRemovesOnly(s[1..], cs);
      forall k | 0 <= k < |s| - |LTrim(s, cs)| ensures s[k] in cs {
        if k > 0 { assert s[k] == s[1..][k - 1]; }
      }
    }
  }

  /** rtrim() removes only characters of cs. */
  lemma {:induction false} RTrimRemovesOnly(s: string, cs: set<char>)
    ensures forall k :: |RTrim(s, cs)| <= k < |s| ==> s[k] in cs
  {
    if |s| > 0 && s[|s| - 1] in cs {
      RTrimRemovesOnly(s[..|s| - 1], cs);
    }
  }

  /** str_replace(c, rep, s) for a one-character needle. */
  function ReplaceChar(s: string, c: char, rep: string): (r: string)
  {
    if s == [] then []
    else (if s[0] == c then rep else [s[0]]) + ReplaceChar(s[1..], c, rep)
  }

  /** Replacement works piecewise: it distributes over concatenation. */
  lemma {:induction false} ReplaceCharConcat(a: string, b: string, c: char, rep: string)
    ensures ReplaceChar(a + b, c, rep) == ReplaceChar(a, c, rep) + ReplaceChar(b, c, rep)
  {
    if a != [] {
      assert (a + b)[1..] == a[1..] + b;
      ReplaceCharConcat(a[1..], b, c, rep);
    } else {
      assert a + b == b;
    }
  }

  /** After replacing every c by a replacement free of c, no c is left. */
  lemma {:induction false} ReplaceCharRemoves(s: string, c: char, rep: string)
    requires c !in rep
    ensures c !in ReplaceChar(s, c, rep)
  {
    if s != [] {
      ReplaceCharRemoves(s[1..], c, rep);
    }
  }

  function Digit(n: nat): char
    requires n < 10
  {
    "0123456789"[n]
  }

  /** sprintf('%s', n) for a non-negative integer: its decimal digits. */
  function NatToString(n: nat): (r: string)
    ensures |r| >= 1
  {
    if n < 10 then [Digit(n)] else NatToString(n / 10) + [Digit(n % 10)]
  }

  /** Different numbers have different decimal representations. */
  lemma {:induction false} NatToStringInjective(a: nat, b: nat)
    requires NatToString(a) == NatToString(b)
    ensures a == b
  {
    if a >= 10 && b >= 10 {
      var sa, sb := NatToString(a), NatToString(b);
      assert sa[|sa| - 1] == Digit(a % 10) && sb[|sb| - 1] == Digit(b % 10);
      assert sa[..|sa| - 1] == NatToString(a / 10);
      assert sb[..|sb| - 1] == NatToString(b / 10);
      NatToStringInjective(a / 10, b / 10);
    }
  }

  predicate OccursAt(s: string, needle: string, i: nat)
  {
    i + |needle| <= |s| && s[i..i + |needle|] == needle
  }

  /** An occurrence past the first character is an occurrence in the rest of the string. */
  lemma OccursShift(s: string, needle: string, j: nat)
    requires 1 <= j && 1 <= |s|
    ensures OccursAt(s, needle, j) <==> OccursAt(s[1..], needle, j - 1)
  {
    var t := s[1..];
    assert |t| == |s| - 1;
    if j + |needle| <= |s| {
      assert s[j..j + |needle|] == t[j - 1..j - 1 + |needle|];
    }
  }

  /** strpos(s, needle): the first position where needle occurs, if any. */
  function Find(s: string, needle: string): (r: Option<nat>)
    ensures r.Some? ==> OccursAt(s, needle, r.value)
    ensures r.Some? ==> forall j :: 0 <= j < r.value ==> !OccursAt(s, needle, j)
    ensures r.None? ==> forall j :: 0 <= j <= |s| ==> !OccursAt(s, needle, j)
    decreases |s|
  {
    if |s| < |needle| then None
    else if s[..|needle|] == needle then Some(0)
    else
      var rest := Find(s[1..], needle);
      assert forall j: nat :: 1 <= j ==> (OccursAt(s, needle, j) <==> OccursAt(s[1..], needle, j - 1)) by {
        forall j: nat | 1 <= j ensures OccursAt(s, needle, j) <==> OccursAt(s[1..], needle, j - 1) {
          OccursShift(s, needle, j);
        }
      }
      match rest
      case None => None
      case Some(k) => Some(k + 1)
  }

  const Slash: set<char> := {'/'}

  /** pathinfo(p, PATHINFO_BASENAME): the last path component, trailing slashes ignored. */
  function Basename(p: string): string
  {
    var t := RTrim(p, Slash);
    if '/' in t then t[LastIndex(t, '/') + 1..] else t
  }

  /** pathinfo(p, PATHINFO_DIRNAME): everything before the last component. */
  function Dirname(p: string): string
  {
    if p == "" then ""
    else
      var t := RTrim(p, Slash);
      if t == "" then "/"
      else if '/' !in t then "."
      else
        var d := RTrim(t[..LastIndex(t, '/')], Slash);
        if d == "" then "/" else d
  }

  /** pathinfo(p, PATHINFO_EXTENSION): what follows the last '.' of the basename. */
  function Extension(p: string): string
  {
    var b := Basename(p);
    if '.' in b then b[LastIndex(b, '.') + 1..] else ""
  }

  /** pathinfo(p, PATHINFO_FILENAME): the basename without its extension. */
  function Filename(p: string): string
  {
    var b := Basename(p);
    if '.' in b then b[..LastIndex(b, '.')] else b
  }

  predicate EndsWith(s: string, suffix: string)
  {
    |suffix| <= |s| && s[|s| - |suffix|..] == suffix
  }
}
