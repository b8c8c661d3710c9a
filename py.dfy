/** The few pieces of Python semantics the GUI handlers rely on: optional
    values, the values a tree-store cell or a keyword argument can hold,
    truthiness, `str()`, `str.lower()`/`str.upper()` on ASCII text, the
    substring test `needle in hay`, and the `repr` of a list of strings. */
module Py {

  datatype Option<+T> = None | Some(value: T) {
    function GetOr(default: T): T {
      match this
      case Some(v) => v
      case None => default
    }
  }

  /** A Python value as the handlers see it: a string, a boolean, an
      integer, `None`, or any other object whose truth value is True (an
      image, a non-empty container), known only by what `str()` prints for it. */
  datatype Value = Str(s: string) | Bool(b: bool) | Int(i: int) | NoneValue | Object(repr: string)

  /** Python truthiness: the empty string, `False`, `0` and `None` are falsy;
      every other value counts as true. */
  predicate Truthy(v: Value) {
    match v
    case Str(s) => s != ""
    case Bool(b) => b
    case Int(i) => i != 0
    case NoneValue => false
    case Object(_) => true
  }

  function DigitChar(d: int): char
    requires 0 <= d < 10
  {
    "0123456789"[d]
  }

  /** The decimal digits of `n`, without leading zeros. */
  function NatToDecimal(n: nat): string
    decreases n
  {
    if n < 10 then [DigitChar(n)] else NatToDecimal(n / 10) + [DigitChar(n % 10)]
  }

  /** What `str(v)`, and so `"{}".format(v)`, inserts into a message. */
  function ToStr(v: Value): string {
    match v
    case Str(s) => s
    case Bool(b) => if b then "True" else "False"
    case Int(i) => if i < 0 then "-" + NatToDecimal(-i) else NatToDecimal(i)
    case NoneValue => "None"
    case Object(r) => r
  }

  function LowerChar(c: char): char {
    if 'A' <= c <= 'Z' then (c as int + 32) as char else c
  }

  function UpperChar(c: char): char {
    if 'a' <= c <= 'z' then (c as int - 32) as char else c
  }

  /** `s.lower()`, on ASCII letters. */
  function Lower(s: string): (r: string)
    ensures |r| == |s|
    ensures forall i :: 0 <= i < |s| ==> r[i] == LowerChar(s[i])
  {
    seq(|s|, i requires 0 <= i < |s| => LowerChar(s[i]))
  }

  /** `s.upper()`, on ASCII letters. */
  function Upper(s: string): (r: string)
    ensures |r| == |s|
    ensures forall i :: 0 <= i < |s| ==> r[i] == UpperChar(s[i])
  {
    seq(|s|, i requires 0 <= i < |s| => UpperChar(s[i]))
  }

  /** `a.lower() == b.lower()` */
  predicate EqualsIgnoringCase(a: string, b: string) {
    Lower(a) == Lower(b)
  }

  /** `needle` occurs in `hay` starting at index `i`. */
  predicate OccursAt(hay: string, needle: string, i: int) {
    0 <= i && i + |needle| <= |hay| && hay[i..i + |needle|] == needle
  }

  /** Python's `needle in hay` on two strings: true exactly when `needle`
      occurs somewhere in `hay` (so the empty string occurs in every string). */
  function Contains(hay: string, needle: string): (r: bool)
    ensures r <==> exists i :: OccursAt(hay, needle, i)
    decreases |hay|
  {
    if |needle| > |hay| then
      assert forall i :: !OccursAt(hay, needle, i);
      false
    else if hay[..|needle|] == needle then
      assert OccursAt(hay, needle, 0);
      true
    else
      ShiftOccurrence(hay, needle);
      Contains(hay[1..], needle)
  }

  /** An occurrence that does not start at 0 is an occurrence in `hay[1..]`. */
  lemma ShiftOccurrence(hay: string, needle: string)
    requires |hay| > 0
    requires !OccursAt(hay, needle, 0)
    ensures (exists i :: OccursAt(hay, needle, i)) <==> (exists j :: OccursAt(hay[1..], needle, j))
  {
    if i :| OccursAt(hay, needle, i) {
      assert i > 0;
      assert hay[1..][i - 1..i - 1 + |needle|] == hay[i..i + |needle|];
      assert OccursAt(hay[1..], needle, i - 1);
    }
    if j :| OccursAt(hay[1..], needle, j) {
      assert hay[1..][j..j + |needle|] == hay[j + 1..j + 1 + |needle|];
      assert OccursAt(hay, needle, j + 1);
    }
  }

  /** A string contains everything that occurs inside a prefix of a string it contains. */
  lemma ContainsPrefixOfNeedle(hay: string, needle: string, n: nat)
    requires Contains(hay, needle)
    requires n <= |needle|
    ensures Contains(hay, needle[..n])
  {
    var i :| OccursAt(hay, needle, i);
    assert hay[i..i + n] == hay[i..i + |needle|][..n];
    assert OccursAt(hay, needle[..n], i);
  }

  /** `pre + needle + post` contains `needle`: a message built by formatting a
      value into a template names that value. */
  lemma ContainsInfix(pre: string, needle: string, post: string)
    ensures Contains(pre + needle + post, needle)
  {
    var s := pre + needle + post;
    assert s[|pre|..|pre| + |needle|] == needle;
    assert OccursAt(s, needle, |pre|);
  }

  /** A string contains whatever a substring of it contains. */
  lemma ContainsWithin(pre: string, hay: string, post: string, needle: string)
    requires Contains(hay, needle)
    ensures Contains(pre + hay + post, needle)
  {
    var i :| OccursAt(hay, needle, i);
    var s := pre + hay + post;
    assert s[|pre| + i..|pre| + i + |needle|] == hay[i..i + |needle|];
    assert OccursAt(s, needle, |pre| + i);
  }

  /** `", ".join("'" + s + "'" for s in items)` */
  function QuotedJoin(items: seq<string>): string
    decreases |items|
  {
    if |items| == 0 then ""
    else if |items| == 1 then "'" + items[0] + "'"
    else "'" + items[0] + "', " + QuotedJoin(items[1..])
  }

  /** `str(items)` for a list of strings without quotes or backslashes in them. */
  function ListRepr(items: seq<string>): (r: string)
    ensures |r| >= 2 && r[0] == '[' && r[|r| - 1] == ']'
    ensures items == [] <==> r == "[]"
  {
    assert |items| > 0 ==> |QuotedJoin(items)| > 0;
    "[" + QuotedJoin(items) + "]"
  }

  /** The joined list names every item, quoted. */
  lemma {:induction false} QuotedJoinNamesItems(items: seq<string>, k: nat)
    requires k < |items|
    ensures Contains(QuotedJoin(items), "'" + items[k] + "'")
    decreases |items|
  {
    var q := "'" + items[k] + "'";
    if |items| == 1 {
      ContainsInfix("", q, "");
      assert "" + q + "" == q;
    } else if k == 0 {
      ContainsInfix("", q, ", " + QuotedJoin(items[1..]));
      assert "" + q + (", " + QuotedJoin(items[1..])) == QuotedJoin(items);
    } else {
      QuotedJoinNamesItems(items[1..], k - 1);
      assert items[1..][k - 1] == items[k];
      ContainsWithin("'" + items[0] + "', ", QuotedJoin(items[1..]), "", q);
      assert "'" + items[0] + "', " + QuotedJoin(items[1..]) + "" == QuotedJoin(items);
    }
  }

  /** `str(items)` names every item of the list, quoted. */
  lemma ListReprNamesItems(items: seq<string>)
    ensures forall k :: 0 <= k < |items| ==> Contains(ListRepr(items), "'" + items[k] + "'")
  {
    forall k | 0 <= k < |items|
      ensures Contains(ListRepr(items), "'" + items[k] + "'")
    {
      QuotedJoinNamesItems(items, k);
      ContainsWithin("[", QuotedJoin(items), "]", "'" + items[k] + "'");
    }
  }
}
