/** String helpers the tracker relies on: `String.prototype.trim`,
    `Array.prototype.join`, decimal rendering of integers in template
    literals. */
module Text {

  /** The characters `trim` removes: ECMAScript WhiteSpace and LineTerminator. */
  predicate IsSpace(c: char) {
    c == ' ' || c == '\t' || c == '\n' || c == '\r' || c == '\U{B}' || c == '\U{C}'
    || c == '\U{A0}' || c == '\U{1680}' || ('\U{2000}' <= c <= '\U{200A}')
    || c == '\U{2028}' || c == '\U{2029}' || c == '\U{202F}' || c == '\U{205F}'
    || c == '\U{3000}' || c == '\U{FEFF}'
  }

  predicate AllSpace(s: string) {
    forall k :: 0 <= k < |s| ==> IsSpace(s[k])
  }

  /** The number of white-space characters `s` starts with. */
  function LeadingSpace(s: string): (n: nat)
    ensures n <= |s|
    ensures forall k :: 0 <= k < n ==> IsSpace(s[k])
    ensures n < |s| ==> !IsSpace(s[n])
    decreases |s|
  {
    if s != [] && IsSpace(s[0]) then
      var m := LeadingSpace(s[1..]);
      assert forall k :: 1 <= k < m + 1 ==> s[k] == s[1..][k - 1];
      m + 1
    else 0
  }

  /** The number of white-space characters `s` ends with. */
  function TrailingSpace(s: string): (n: nat)
    ensures n <= |s|
    ensures forall k :: |s| - n <= k < |s| ==> IsSpace(s[k])
    ensures n < |s| ==> !IsSpace(s[|s| - n - 1])
    decreases |s|
  {
    if s != [] && IsSpace(s[|s| - 1]) then
      var m := TrailingSpace(s[..|s| - 1]);
      assert forall k :: |s| - 1 - m <= k < |s| - 1 ==> s[k] == s[..|s| - 1][k];
      m + 1
    else 0
  }

  /** `r` is the slice of `s` starting at `i` with only white space around it. */
  predicate SpaceAround(s: string, r: string, i: int) {
    && 0 <= i <= i + |r| <= |s| && r == s[i..i + |r|]
    && (forall k :: 0 <= k < i ==> IsSpace(s[k]))
    && (forall k :: i + |r| <= k < |s| ==> IsSpace(s[k]))
  }

  /** `s.trim()`: the slice of `s` that neither starts nor ends with white
      space and has only white space around it. */
  function Trim(s: string): (r: string)
    ensures exists i :: SpaceAround(s, r, i)
    ensures r != [] ==> !IsSpace(r[0]) && !IsSpace(r[|r| - 1])
  {
    var a := LeadingSpace(s);
    if a == |s| then
      assert SpaceAround(s, [], a);
      []
    else
      var e := |s| - TrailingSpace(s);
      assert a < e;
      assert SpaceAround(s, s[a..e], a);
      s[a..e]
  }

  /** `s.trim() === ""` exactly when `s` is made of white space only. */
  lemma TrimEmptyIffAllSpace(s: string)
    ensures Trim(s) == "" <==> AllSpace(s)
  {
    if LeadingSpace(s) < |s| {
      assert !IsSpace(s[LeadingSpace(s)]);
    }
  }

  /** A string that is already trimmed comes back from `trim` unchanged. */
  lemma TrimOfTrimmed(s: string)
    requires s == [] || (!IsSpace(s[0]) && !IsSpace(s[|s| - 1]))
    ensures Trim(s) == s
  {
    if s != [] {
      assert LeadingSpace(s) == 0 && TrailingSpace(s) == 0;
      assert s[0..|s|] == s;
    }
  }

  /** Trimming twice is trimming once. */
  lemma TrimIdempotent(s: string)
    ensures Trim(Trim(s)) == Trim(s)
  {
    TrimOfTrimmed(Trim(s));
  }

  /** Two strings with the same ending are equal once it is removed. */
  lemma SameSuffix(x: string, y: string, t: string)
    requires x + t == y + t
    ensures x == y
  {
    assert x == (x + t)[..|x|];
    assert y == (y + t)[..|y|];
  }

  /** Two strings with the same beginning are equal once it is removed. */
  lemma SamePrefix(p: string, x: string, y: string)
    requires p + x == p + y
    ensures x == y
  {
    assert x == (p + x)[|p|..];
    assert y == (p + y)[|p|..];
  }

  /** `parts.join(sep)` */
  function Join(parts: seq<string>, sep: string): (r: string)
    ensures |parts| == 1 ==> r == parts[0]
    ensures parts == [] ==> r == ""
    decreases |parts|
  {
    if parts == [] then ""
    else if |parts| == 1 then parts[0]
    else parts[0] + sep + Join(parts[1..], sep)
  }

  /** `t` occurs in `s` at offset `i`. */
  predicate OccursAt(t: string, s: string, i: int) {
    0 <= i <= |s| - |t| && s[i..i + |t|] == t
  }

  /** `t` occurs in `s` at some offset. */
  ghost predicate Occurs(t: string, s: string) {
    exists i :: OccursAt(t, s, i)
  }

  /** Every part appears, unchanged, inside the joined string. */
  lemma {:induction false} JoinContainsEachPart(parts: seq<string>, sep: string, k: nat)
    requires k < |parts|
    ensures Occurs(parts[k], Join(parts, sep))
    decreases |parts|
  {
    var j := Join(parts, sep);
    if |parts| == 1 || k == 0 {
      assert j[0..|parts[0]|] == parts[0];
      assert OccursAt(parts[k], j, 0);
    } else {
      JoinContainsEachPart(parts[1..], sep, k - 1);
      var rest := Join(parts[1..], sep);
      var i :| OccursAt(parts[k], rest, i);
      var off := |parts[0]| + |sep|;
      assert j == (parts[0] + sep) + rest;
      assert j[off + i..off + i + |parts[k]|] == rest[i..i + |parts[k]|];
      assert OccursAt(parts[k], j, off + i);
    }
  }

  /** An occurrence inside either operand is an occurrence in the concatenation. */
  lemma OccursInConcat(t: string, a: string, b: string)
    ensures Occurs(t, a) ==> Occurs(t, a + b)
    ensures Occurs(t, b) ==> Occurs(t, a + b)
  {
    if Occurs(t, a) {
      var i :| OccursAt(t, a, i);
      assert (a + b)[i..i + |t|] == a[i..i + |t|];
      assert OccursAt(t, a + b, i);
    }
    if Occurs(t, b) {
      var i :| OccursAt(t, b, i);
      assert (a + b)[|a| + i..|a| + i + |t|] == b[i..i + |t|];
      assert OccursAt(t, a + b, |a| + i);
    }
  }

  /** The decimal digit for 0..9 */
  function DigitChar(d: int): (c: char)
    requires 0 <= d < 10
    ensures '0' <= c <= '9'
  {
    (('0' as int) + d) as char
  }

  function DigitValue(c: char): (d: int)
    requires '0' <= c <= '9'
    ensures 0 <= d < 10 && DigitChar(d) == c
  {
    (c as int) - ('0' as int)
  }

  predicate AllDigits(s: string) {
    forall k :: 0 <= k < |s| ==> '0' <= s[k] <= '9'
  }

  /** The decimal numeral that a template literal prints for a non-negative integer. */
  function NatToString(n: nat): (s: string)
    ensures |s| >= 1 && AllDigits(s)
    ensures |s| > 1 ==> s[0] != '0'
  {
    if n < 10 then [DigitChar(n)] else NatToString(n / 10) + [DigitChar(n % 10)]
  }

  /** The value of a string of decimal digits. */
  function ParseDigits(s: string): (n: nat)
    requires AllDigits(s)
  {
    if s == [] then 0 else ParseDigits(s[..|s| - 1]) * 10 + DigitValue(s[|s| - 1])
  }

  /** Reading the printed numeral back gives the number: rendering loses nothing. */
  lemma {:induction false} ParseNatToString(n: nat)
    ensures ParseDigits(NatToString(n)) == n
  {
    var s := NatToString(n);
    if n < 10 {
      assert s[..|s| - 1] == [];
    } else {
      var p, d := NatToString(n / 10), n % 10;
      assert s == p + [DigitChar(d)];
      assert s[..|s| - 1] == p && DigitValue(s[|s| - 1]) == d;
      ParseNatToString(n / 10);
      assert ParseDigits(s) == (n / 10) * 10 + d;
    }
  }

  /** Distinct numbers print differently. */
  lemma NatToStringInjective(a: nat, b: nat)
    requires NatToString(a) == NatToString(b)
    ensures a == b
  {
    ParseNatToString(a);
    ParseNatToString(b);
  }

  /** `${n}` for any integer. */
  function IntToString(n: int): (s: string)
    ensures n >= 0 ==> s == NatToString(n)
    ensures n < 0 ==> s == "-" + NatToString(-n)
  {
    if n >= 0 then NatToString(n) else "-" + NatToString(-n)
  }

  /** Distinct integers print differently: a sign never looks like a digit. */
  lemma IntToStringInjective(a: int, b: int)
    requires IntToString(a) == IntToString(b)
    ensures a == b
  {
    if a >= 0 && b >= 0 {
      NatToStringInjective(a, b);
    } else if a < 0 && b < 0 {
      SamePrefix("-", NatToString(-a), NatToString(-b));
      NatToStringInjective(-a, -b);
    }
  }
}
