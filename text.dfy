/**
 * The java.lang.String operations the services rely on, restricted to ASCII:
 * lower/upper casing, `contains`, `startsWith`, `trim`, `split(sep)[0]`,
 * `String.join` and decimal rendering of integers.
 */
module Text {
  import opened Wrappers

  /** ASCII `Character.toLowerCase`. */
  function Lower(c: char): char {
    if 'A' <= c <= 'Z' then (c as int + 32) as char else c
  }

  /** ASCII `Character.toUpperCase`. */
  function Upper(c: char): char {
    if 'a' <= c <= 'z' then (c as int - 32) as char else c
  }

  function LowerCase(s: string): (r: string)
    ensures |r| == |s|
    ensures forall i :: 0 <= i < |s| ==> r[i] == Lower(s[i])
  {
    seq(|s|, i requires 0 <= i < |s| => Lower(s[i]))
  }

  function UpperCase(s: string): (r: string)
    ensures |r| == |s|
    ensures forall i :: 0 <= i < |s| ==> r[i] == Upper(s[i])
  {
    seq(|s|, i requires 0 <= i < |s| => Upper(s[i]))
  }

  lemma LowerCaseConcat(a: string, b: string)
    ensures LowerCase(a + b) == LowerCase(a) + LowerCase(b)
  {
  }

  /** Casing twice is casing once. */
  lemma LowerCaseIdempotent(s: string)
    ensures LowerCase(LowerCase(s)) == LowerCase(s)
  {
    var l := LowerCase(s);
    assert forall i :: 0 <= i < |s| ==> LowerCase(l)[i] == l[i];
  }

  /** `String.equalsIgnoreCase` on ASCII text. */
  predicate EqualsIgnoreCase(a: string, b: string) {
    LowerCase(a) == LowerCase(b)
  }

  predicate StartsWith(s: string, prefix: string) {
    |prefix| <= |s| && s[..|prefix|] == prefix
  }

  /** `s.contains(sub)`, scanning from the left. */
  predicate Contains(s: string, sub: string)
    decreases |s|
  {
    if |sub| > |s| then false
    else if s[..|sub|] == sub then true
    else Contains(s[1..], sub)
  }

  /** `sub` occurs in `s` starting at index `i`. */
  predicate OccursAt(s: string, sub: string, i: int) {
    0 <= i <= |s| - |sub| && s[i..i + |sub|] == sub
  }

  /** `Contains` holds exactly when `sub` occurs at some position of `s`. */
  lemma {:induction false} ContainsAt(s: string, sub: string)
    ensures Contains(s, sub) <==> exists i :: OccursAt(s, sub, i)
    decreases |s|
  {
    if |sub| > |s| {
    } else if s[..|sub|] == sub {
      assert OccursAt(s, sub, 0);
    } else {
      ContainsAt(s[1..], sub);
      if Contains(s[1..], sub) {
        var i :| OccursAt(s[1..], sub, i);
        assert s[1..][i..i + |sub|] == s[i + 1..i + 1 + |sub|];
        assert OccursAt(s, sub, i + 1);
      }
      if exists i :: OccursAt(s, sub, i) {
        var i :| OccursAt(s, sub, i);
        assert i != 0;
        assert s[1..][i - 1..i - 1 + |sub|] == s[i..i + |sub|];
        assert OccursAt(s[1..], sub, i - 1);
      }
    }
  }

  /** A factor of `a` or of `b` is a factor of `a + b`. */
  lemma ContainsInConcat(a: string, b: string, sub: string)
    ensures Contains(b, sub) ==> Contains(a + b, sub)
    ensures Contains(a, sub) ==> Contains(a + b, sub)
  {
    ContainsAt(a, sub);
    ContainsAt(b, sub);
    ContainsAt(a + b, sub);
    if Contains(b, sub) {
      var i :| OccursAt(b, sub, i);
      assert (a + b)[|a| + i..|a| + i + |sub|] == b[i..i + |sub|];
      assert OccursAt(a + b, sub, |a| + i);
    }
    if Contains(a, sub) {
      var i :| OccursAt(a, sub, i);
      assert (a + b)[i..i + |sub|] == a[i..i + |sub|];
      assert OccursAt(a + b, sub, i);
    }
  }

  /** An occurrence at a known position is a factor. */
  lemma OccursGivesContains(s: string, sub: string, i: int)
    requires OccursAt(s, sub, i)
    ensures Contains(s, sub)
  {
    ContainsAt(s, sub);
  }

  /** A factor of a factor is a factor. */
  lemma ContainsTransitive(s: string, mid: string, sub: string)
    requires Contains(s, mid) && Contains(mid, sub)
    ensures Contains(s, sub)
  {
    ContainsAt(s, mid);
    ContainsAt(mid, sub);
    var i :| OccursAt(s, mid, i);
    var j :| OccursAt(mid, sub, j);
    forall k | 0 <= k < |sub|
      ensures s[i + j + k] == sub[k]
    {
      assert s[i..i + |mid|][j + k] == mid[j..j + |sub|][k];
    }
    assert s[i + j..i + j + |sub|] == sub;
    OccursGivesContains(s, sub, i + j);
  }

  /** A factor of `a + b` that starts in `b`'s part is a factor of `b`. */
  lemma OccursInSecond(a: string, b: string, sub: string, i: int)
    requires OccursAt(a + b, sub, i) && i >= |a|
    ensures OccursAt(b, sub, i - |a|)
  {
    forall k | 0 <= k < |sub|
      ensures b[i - |a| + k] == sub[k]
    {
      assert (a + b)[i..i + |sub|][k] == (a + b)[i + k];
    }
    assert b[i - |a|..i - |a| + |sub|] == sub;
  }

  /** Nothing in `a` can start `sub` when `a` lacks its first character. */
  lemma NoFactorAfter(a: string, b: string, sub: string)
    requires |sub| >= 1 && !Contains(b, sub) && sub[0] !in a
    ensures !Contains(a + b, sub)
  {
    ContainsAt(a + b, sub);
    ContainsAt(b, sub);
    forall i | 0 <= i <= |a + b| - |sub|
      ensures !OccursAt(a + b, sub, i)
    {
      if i < |a| {
        assert (a + b)[i..i + |sub|][0] == a[i];
      } else if OccursAt(a + b, sub, i) {
        OccursInSecond(a, b, sub, i);
      }
    }
  }

  /**
   * Nothing in `a` can start `sub` when every character of `a` either differs
   * from `sub`'s first or is followed, still inside `a`, by one that differs
   * from `sub`'s second.
   */
  lemma NoFactorAcross(a: string, b: string, sub: string)
    requires |sub| >= 2 && !Contains(b, sub)
    requires forall k :: 0 <= k < |a| ==> a[k] != sub[0] || (k + 1 < |a| && a[k + 1] != sub[1])
    ensures !Contains(a + b, sub)
  {
    ContainsAt(a + b, sub);
    ContainsAt(b, sub);
    forall i | 0 <= i <= |a + b| - |sub|
      ensures !OccursAt(a + b, sub, i)
    {
      if i < |a| {
        var window := (a + b)[i..i + |sub|];
        assert window[0] == a[i];
        if a[i] == sub[0] {
          assert i + 1 < |a| && a[i + 1] != sub[1];
          assert window[1] == a[i + 1];
        }
      } else if OccursAt(a + b, sub, i) {
        OccursInSecond(a, b, sub, i);
      }
    }
  }

  /** Java's `trim`: every character up to U+0020 is stripped from both ends. */
  function TrimStart(s: string): (r: string)
    ensures |r| <= |s| && r == s[|s| - |r|..]
    ensures r != [] ==> r[0] > ' '
    ensures forall i :: 0 <= i < |s| - |r| ==> s[i] <= ' '
  {
    if s != [] && s[0] <= ' ' then TrimStart(s[1..]) else s
  }

  function TrimEnd(s: string): (r: string)
    ensures |r| <= |s| && r == s[..|r|]
    ensures r != [] ==> r[|r| - 1] > ' '
    ensures forall i :: |r| <= i < |s| ==> s[i] <= ' '
  {
    if s != [] && s[|s| - 1] <= ' ' then TrimEnd(s[..|s| - 1]) else s
  }

  function Trim(s: string): string {
    TrimEnd(TrimStart(s))
  }

  /** `s.trim().isEmpty()`. */
  predicate IsBlank(s: string) {
    Trim(s) == []
  }

  /** Blank text is text made only of control characters and spaces. */
  lemma BlankIffAllControls(s: string)
    ensures IsBlank(s) <==> forall i :: 0 <= i < |s| ==> s[i] <= ' '
  {
    var l := TrimStart(s);
    if !IsBlank(s) {
      var r := TrimEnd(l);
      assert r != [] && r[0] == l[0] == s[|s| - |l|];
    }
  }

  /** Text without control characters or spaces at its ends is its own trim. */
  lemma TrimNoOp(s: string)
    requires s != [] ==> s[0] > ' ' && s[|s| - 1] > ' '
    ensures Trim(s) == s
  {
  }

  /** The characters before the first `sep` (all of `s` when there is none). */
  function Before(s: string, sep: char): (r: string)
    ensures |r| <= |s| && r == s[..|r|]
    ensures forall i :: 0 <= i < |r| ==> r[i] != sep
    ensures |r| < |s| ==> s[|r|] == sep
  {
    if s == [] then [] else if s[0] == sep then [] else [s[0]] + Before(s[1..], sep)
  }

  /**
   * `s.split(sep)[0]` exactly as Java evaluates it: `split` drops trailing
   * empty strings, so a non-empty `s` made only of separators yields an empty
   * array and indexing it throws (None).
   */
  function SplitFirstAsWritten(s: string, sep: char): (r: Option<string>)
    ensures r.None? <==> s != [] && forall i :: 0 <= i < |s| ==> s[i] == sep
    ensures r.Some? ==> r.value == Before(s, sep)
  {
    if s != [] && forall i :: 0 <= i < |s| ==> s[i] == sep then None else Some(Before(s, sep))
  }

  /** `String.join(sep, parts)`. */
  function Join(sep: string, parts: seq<string>): (r: string)
    ensures parts != [] ==> |r| >= |parts[0]| && r[..|parts[0]|] == parts[0]
    ensures |parts| == 1 ==> r == parts[0]
  {
    if parts == [] then ""
    else if |parts| == 1 then parts[0]
    else parts[0] + sep + Join(sep, parts[1..])
  }

  function DigitChar(d: nat): char
    requires d < 10
  {
    "0123456789"[d]
  }

  /** `Long.toString` / `String.valueOf` for integers. */
  function NatToString(n: nat): (r: string)
    ensures r != []
    decreases n
  {
    if n < 10 then [DigitChar(n)] else NatToString(n / 10) + [DigitChar(n % 10)]
  }

  function IntToString(i: int): (r: string)
    ensures r != []
  {
    if i < 0 then "-" + NatToString(-i) else NatToString(i)
  }

  /** Java's `/` on integers: the quotient truncated toward zero. */
  function JavaDiv(a: int, b: int): (q: int)
    requires b != 0
    ensures a >= 0 && b > 0 ==> q == a / b
  {
    if (a >= 0) == (b > 0) then
      (if a >= 0 then a / b else (-a) / (-b))
    else
      -((if a >= 0 then a else -a) / (if b > 0 then b else -b))
  }

  /** Java's 32-bit `int` multiplication: the product wraps modulo 2^32. */
  function Int32(x: int): (r: int)
    ensures -0x8000_0000 <= r < 0x8000_0000
    ensures -0x8000_0000 <= x < 0x8000_0000 ==> r == x
  {
    var m := (x + 0x8000_0000) % 0x1_0000_0000;
    m - 0x8000_0000
  }
}
