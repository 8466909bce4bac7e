/**
 * The handful of Python string operations the generator and the document
 * writer rely on: the `in` test, `str.replace`, ASCII `lower`/`upper`,
 * `sep.join(...)` and the decimal rendering of a count in an f-string.
 */
module Strings {

  /** `sub` occurs in `s` starting at index `i`. */
  predicate OccursAt(s: string, sub: string, i: int)
  {
    0 <= i && i + |sub| <= |s| && s[i..i + |sub|] == sub
  }

  /** Python's `sub in s`: `sub` is a contiguous block of `s` (the empty string is in every string). */
  predicate Contains(s: string, sub: string)
    ensures Contains(s, sub) ==> |sub| <= |s|
    ensures |sub| == 0 ==> Contains(s, sub)
    decreases |s|
  {
    sub <= s || (|s| > 0 && Contains(s[1..], sub))
  }

  /** The recursive test agrees with the index-based definition of an occurrence. */
  lemma ContainsIff(s: string, sub: string)
    ensures Contains(s, sub) <==> exists i :: OccursAt(s, sub, i)
  {
    if Contains(s, sub) {
      ContainsHasOccurrence(s, sub);
    }
    if exists i :: OccursAt(s, sub, i) {
      var i :| OccursAt(s, sub, i);
      OccurrenceIsContained(s, sub, i);
    }
  }

  lemma {:induction false} ContainsHasOccurrence(s: string, sub: string)
    requires Contains(s, sub)
    ensures exists i :: OccursAt(s, sub, i)
    decreases |s|
  {
    if sub <= s {
      assert OccursAt(s, sub, 0);
    } else {
      ContainsHasOccurrence(s[1..], sub);
      var i :| OccursAt(s[1..], sub, i);
      assert s[i + 1..i + 1 + |sub|] == s[1..][i..i + |sub|];
      assert OccursAt(s, sub, i + 1);
    }
  }

  lemma {:induction false} OccurrenceIsContained(s: string, sub: string, i: int)
    requires OccursAt(s, sub, i)
    ensures Contains(s, sub)
    decreases |s|
  {
    if i > 0 {
      assert s[1..][i - 1..i - 1 + |sub|] == s[i..i + |sub|];
      OccurrenceIsContained(s[1..], sub, i - 1);
    }
  }

  /** Whatever surrounds it, a string contains itself. */
  lemma ContainsInfix(a: string, b: string, c: string)
    ensures Contains(a + b + c, b)
  {
    var s := a + b + c;
    assert s[|a|..|a| + |b|] == b;
    assert OccursAt(s, b, |a|);
    ContainsIff(s, b);
  }

  /** Python's `s.replace("", val)`: `val` before every character and at the end. */
  function Interleave(s: string, val: string): (r: string)
    ensures |r| == |s| + (|s| + 1) * |val|
    ensures val == [] ==> r == s
  {
    if s == [] then val
    else
      assert val == [] ==> [s[0]] + s[1..] == s;
      val + [s[0]] + Interleave(s[1..], val)
  }

  /**
   * Python's `s.replace(key, val)`: every non-overlapping occurrence of `key`,
   * scanning left to right, is replaced by `val`.  A non-empty key that does
   * not occur, or a key replaced by itself, leaves the text as it was.
   */
  function ReplaceAll(s: string, key: string, val: string): (r: string)
    ensures key != [] && !Contains(s, key) ==> r == s
    ensures key == val ==> r == s
    ensures key != [] && Contains(s, key) ==> Contains(r, val)
    decreases |s|
  {
    if key == [] then Interleave(s, val)
    else if key <= s then
      var rest := ReplaceAll(s[|key|..], key, val);
      ReplaceAtKey(s, key, val, rest);
      val + rest
    else if s == [] then []
    else
      var rest := ReplaceAll(s[1..], key, val);
      ReplacePastChar(s, key, val, rest);
      [s[0]] + rest
  }

  /** The step of ReplaceAll at an occurrence of the key. */
  lemma ReplaceAtKey(s: string, key: string, val: string, rest: string)
    requires key != [] && key <= s
    requires key == val ==> rest == s[|key|..]
    ensures Contains(s, key)
    ensures key == val ==> val + rest == s
    ensures Contains(val + rest, val)
  {
    assert s[..|key|] + s[|key|..] == s;
    PrefixOfConcat(val, rest);
    PrefixContains(val + rest, val);
  }

  /** The step of ReplaceAll past a character where the key does not start. */
  lemma ReplacePastChar(s: string, key: string, val: string, rest: string)
    requires key != [] && !(key <= s) && s != []
    requires !Contains(s[1..], key) ==> rest == s[1..]
    requires key == val ==> rest == s[1..]
    requires Contains(s[1..], key) ==> Contains(rest, val)
    ensures Contains(s, key) <==> Contains(s[1..], key)
    ensures !Contains(s, key) ==> [s[0]] + rest == s
    ensures key == val ==> [s[0]] + rest == s
    ensures Contains(s, key) ==> Contains([s[0]] + rest, val)
  {
    assert [s[0]] + s[1..] == s;
    if Contains(s[1..], key) {
      ContainsSuffix([s[0]], rest, val);
    }
  }

  /** ASCII lower-casing of one character. */
  function LowerChar(c: char): char
  {
    if 'A' <= c <= 'Z' then (c as int + 32) as char else c
  }

  /** ASCII upper-casing of one character. */
  function UpperChar(c: char): char
  {
    if 'a' <= c <= 'z' then (c as int - 32) as char else c
  }

  /** `s.lower()` on ASCII letters; every other character is kept. */
  function Lower(s: string): (r: string)
    ensures |r| == |s|
    ensures forall i :: 0 <= i < |s| ==> r[i] == LowerChar(s[i])
  {
    if s == [] then [] else [LowerChar(s[0])] + Lower(s[1..])
  }

  /** `s.upper()` on ASCII letters; every other character is kept. */
  function Upper(s: string): (r: string)
    ensures |r| == |s|
    ensures forall i :: 0 <= i < |s| ==> r[i] == UpperChar(s[i])
  {
    if s == [] then [] else [UpperChar(s[0])] + Upper(s[1..])
  }

  /** A case-insensitive substring test (pandas `str.contains(sub, case=False)`), ASCII only. */
  predicate ContainsIgnoreCase(s: string, sub: string)
  {
    Contains(Lower(s), Lower(sub))
  }

  /** Python's `sep.join(xs)`. */
  function Join(sep: string, xs: seq<string>): string
  {
    if |xs| == 0 then "" else if |xs| == 1 then xs[0] else xs[0] + sep + Join(sep, xs[1..])
  }

  /** Every joined item can be found in the joined text. */
  lemma {:induction false} JoinContainsEach(sep: string, xs: seq<string>, k: nat)
    requires k < |xs|
    ensures Contains(Join(sep, xs), xs[k])
  {
    if |xs| == 1 {
      ContainsInfix("", xs[0], "");
      assert "" + xs[0] + "" == xs[0];
    } else if k == 0 {
      ContainsInfix("", xs[0], sep + Join(sep, xs[1..]));
      assert "" + xs[0] + (sep + Join(sep, xs[1..])) == Join(sep, xs);
    } else {
      JoinContainsEach(sep, xs[1..], k - 1);
      ContainsSuffix(xs[0] + sep, Join(sep, xs[1..]), xs[k]);
    }
  }

  /** The joined text begins with the first item. */
  lemma JoinStartsWith(sep: string, xs: seq<string>)
    requires xs != []
    ensures xs[0] <= Join(sep, xs)
  {
    if |xs| > 1 {
      assert Join(sep, xs) == xs[0] + (sep + Join(sep, xs[1..]));
      PrefixOfConcat(xs[0], sep + Join(sep, xs[1..]));
    }
  }

  /** Every member of the joined list can be found in the joined text. */
  lemma JoinContainsMember(sep: string, xs: seq<string>, x: string)
    requires x in xs
    ensures Contains(Join(sep, xs), x)
  {
    var k :| 0 <= k < |xs| && xs[k] == x;
    JoinContainsEach(sep, xs, k);
  }

  lemma PrefixContains(s: string, sub: string)
    ensures sub <= s ==> Contains(s, sub)
  {
  }

  /** A string starts every string it begins. */
  lemma PrefixOfConcat(a: string, b: string)
    ensures a <= a + b
  {
    assert (a + b)[..|a|] == a;
  }

  /** An occurrence in a suffix is an occurrence in the whole string. */
  lemma ContainsSuffix(a: string, b: string, sub: string)
    requires sub <= b || Contains(b, sub)
    ensures Contains(a + b, sub)
  {
    PrefixContains(b, sub);
    ContainsIff(b, sub);
    var i :| OccursAt(b, sub, i);
    assert (a + b)[|a| + i..|a| + i + |sub|] == b[i..i + |sub|];
    assert OccursAt(a + b, sub, |a| + i);
    ContainsIff(a + b, sub);
  }

  /** Containment is transitive. */
  lemma ContainsTrans(s: string, t: string, u: string)
    requires Contains(s, t) && Contains(t, u)
    ensures Contains(s, u)
  {
    ContainsIff(s, t);
    ContainsIff(t, u);
    var i :| OccursAt(s, t, i);
    var j :| OccursAt(t, u, j);
    assert forall k :: 0 <= k < |t| ==> s[i + k] == t[k] by {
      assert s[i..i + |t|] == t;
    }
    assert forall k :: 0 <= k < |u| ==> t[j + k] == u[k] by {
      assert t[j..j + |u|] == u;
    }
    assert s[i + j..i + j + |u|] == u;
    assert OccursAt(s, u, i + j);
    ContainsIff(s, u);
  }

  /** The decimal digit `d`. */
  function DigitChar(d: nat): (c: char)
    requires d < 10
    ensures '0' <= c <= '9' && c as int - '0' as int == d
  {
    (48 + d) as char
  }

  predicate IsDigits(s: string)
  {
    forall i :: 0 <= i < |s| ==> '0' <= s[i] <= '9'
  }

  /** `f"{n}"` for a non-negative count: its decimal digits, with no leading zero. */
  function NatToString(n: nat): (r: string)
    ensures |r| > 0 && IsDigits(r)
    ensures n > 0 ==> r[0] != '0'
    decreases n
  {
    if n < 10 then [DigitChar(n)] else NatToString(n / 10) + [DigitChar(n % 10)]
  }

  /** Reading decimal digits back as a number. */
  function ParseDigits(s: string): nat
    requires IsDigits(s)
  {
    if s == [] then 0 else ParseDigits(s[..|s| - 1]) * 10 + (s[|s| - 1] as int - '0' as int)
  }

  /** The rendering of a count reads back as that count. */
  lemma {:induction false} ParseNatToString(n: nat)
    ensures ParseDigits(NatToString(n)) == n
    decreases n
  {
    if n >= 10 {
      ParseNatToString(n / 10);
      var r := NatToString(n);
      assert r[..|r| - 1] == NatToString(n / 10);
    }
  }
}
