/**
 * The JavaScript built-ins the site relies on, stated over `string` (`seq<char>`):
 * `Number.prototype.toString` on non-negative integers, `Array.prototype.join`,
 * `String.prototype.trim` and the `||` fallback on an optional string.
 */
module Text {
  import opened Wrappers

  predicate IsDigit(c: char) { '0' <= c <= '9' }

  predicate AllDigits(s: string) { forall i :: 0 <= i < |s| ==> IsDigit(s[i]) }

  function DigitChar(d: nat): (c: char)
    requires d < 10
    ensures IsDigit(c) && c as int - '0' as int == d
  {
    ('0' as int + d) as char
  }

  /** `n.toString()` for a non-negative integer: its decimal digits without leading zeros. */
  function Decimal(n: nat): (s: string)
    ensures |s| >= 1 && AllDigits(s)
    ensures s[0] == '0' ==> n == 0
    ensures n < 10 <==> |s| == 1
  {
    if n < 10 then [DigitChar(n)] else Decimal(n / 10) + [DigitChar(n % 10)]
  }

  /** A JavaScript integer in a template literal or `String(n)`: a minus sign, then the digits. */
  function IntText(n: int): (s: string)
    ensures |s| >= 1 && (s[0] == '-' <==> n < 0) && (n >= 0 ==> AllDigits(s))
    ensures n < 0 ==> s[1..] == Decimal(-n)
    ensures n >= 0 ==> s == Decimal(n)
  {
    if n < 0 then "-" + Decimal(-n) else Decimal(n)
  }

  /** The number a string of decimal digits denotes (the inverse of `Decimal`). */
  function DigitsValue(s: string): nat
    requires AllDigits(s)
  {
    if s == [] then 0 else DigitsValue(s[..|s| - 1]) * 10 + (s[|s| - 1] as int - '0' as int)
  }

  lemma {:induction false} DecimalRoundTrip(n: nat)
    ensures DigitsValue(Decimal(n)) == n
  {
    if n >= 10 {
      var s := Decimal(n);
      assert s[..|s| - 1] == Decimal(n / 10);
      DecimalRoundTrip(n / 10);
    }
  }

  /** Different numbers print differently. */
  lemma DecimalInjective(a: nat, b: nat)
    requires Decimal(a) == Decimal(b)
    ensures a == b
  {
    DecimalRoundTrip(a);
    DecimalRoundTrip(b);
  }

  /** How many digits `x` starts with. */
  function LeadingDigits(x: string): (n: nat)
    ensures n <= |x| && AllDigits(x[..n])
    ensures n < |x| ==> !IsDigit(x[n])
  {
    if x == [] || !IsDigit(x[0]) then 0
    else
      var n := 1 + LeadingDigits(x[1..]);
      assert x[..n] == [x[0]] + x[1..][..n - 1];
      n
  }

  lemma {:induction false} LeadingDigitsOf(a: string, s: string)
    requires AllDigits(a)
    requires s == [] || !IsDigit(s[0])
    ensures LeadingDigits(a + s) == |a|
  {
    if a != [] {
      assert (a + s)[1..] == a[1..] + s;
      LeadingDigitsOf(a[1..], s);
    } else {
      assert a + s == s;
    }
  }

  /** The sum of the lengths of the parts. */
  function TotalLength(parts: seq<string>): nat
  {
    if parts == [] then 0 else |parts[0]| + TotalLength(parts[1..])
  }

  /** `parts.join(sep)`: the parts in order, with `sep` between neighbours. */
  function Join(parts: seq<string>, sep: string): string
  {
    if |parts| == 0 then ""
    else if |parts| == 1 then parts[0]
    else parts[0] + sep + Join(parts[1..], sep)
  }

  /** A joined string holds the parts and exactly one separator between each neighbouring pair. */
  lemma {:induction false} JoinLength(parts: seq<string>, sep: string)
    requires parts != []
    ensures |Join(parts, sep)| == TotalLength(parts) + (|parts| - 1) * |sep|
  {
    if |parts| > 1 {
      JoinLength(parts[1..], sep);
    }
  }

  /** Where part `i` starts in `Join(parts, sep)`: the parts before it, each with its separator. */
  function Offset(parts: seq<string>, sep: string, i: nat): nat
    requires i <= |parts|
  {
    if i == 0 then 0 else |parts[0]| + |sep| + Offset(parts[1..], sep, i - 1)
  }

  /** Part `i` stands at `Offset(parts, sep, i)` of the joined string. */
  lemma {:induction false} JoinAt(parts: seq<string>, sep: string, i: nat)
    requires i < |parts|
    ensures Offset(parts, sep, i) + |parts[i]| <= |Join(parts, sep)|
    ensures Join(parts, sep)[Offset(parts, sep, i)..Offset(parts, sep, i) + |parts[i]|] == parts[i]
  {
    if i > 0 {
      var k := |parts[0]| + |sep|;
      JoinAt(parts[1..], sep, i - 1);
      assert Join(parts, sep)[k..] == Join(parts[1..], sep);
    }
  }

  /** Between part `i` and part `i + 1` of the joined string stands exactly one separator. */
  lemma {:induction false} JoinSeparatorAt(parts: seq<string>, sep: string, i: nat)
    requires i + 1 < |parts|
    ensures Offset(parts, sep, i) + |parts[i]| + |sep| == Offset(parts, sep, i + 1) <= |Join(parts, sep)|
    ensures Join(parts, sep)[Offset(parts, sep, i) + |parts[i]|..Offset(parts, sep, i + 1)] == sep
  {
    var k := |parts[0]| + |sep|;
    if i > 0 {
      JoinSeparatorAt(parts[1..], sep, i - 1);
      assert Join(parts, sep)[k..] == Join(parts[1..], sep);
    } else {
      assert Join(parts, sep)[..k] == parts[0] + sep;
    }
  }

  /** The offsets count every earlier part and one separator for each. */
  lemma {:induction false} OffsetValue(parts: seq<string>, sep: string, i: nat)
    requires i <= |parts|
    ensures Offset(parts, sep, i) == TotalLength(parts[..i]) + i * |sep|
  {
    if i > 0 {
      OffsetValue(parts[1..], sep, i - 1);
      assert parts[..i][1..] == parts[1..][..i - 1];
    } else {
      assert parts[..i] == [];
    }
  }

  /**
   * `r` is `parts` laid end to end with `sep` between neighbours: its length,
   * each part at its offset, and one separator in each gap.
   */
  predicate LaidOut(r: string, parts: seq<string>, sep: string)
  {
    && |r| == TotalLength(parts) + (|parts| - 1) * |sep|
    && (forall k :: 0 <= k < |parts| ==>
          Offset(parts, sep, k) + |parts[k]| <= |r| &&
          r[Offset(parts, sep, k)..Offset(parts, sep, k) + |parts[k]|] == parts[k])
    && (forall k :: 0 <= k < |parts| - 1 ==>
          Offset(parts, sep, k) + |parts[k]| + |sep| == Offset(parts, sep, k + 1) &&
          r[Offset(parts, sep, k) + |parts[k]|..Offset(parts, sep, k + 1)] == sep)
  }

  /**
   * The layout of a joined string: each part at its offset, exactly one
   * separator between neighbours, and nothing else.
   */
  lemma JoinLayout(parts: seq<string>, sep: string)
    requires parts != []
    ensures LaidOut(Join(parts, sep), parts, sep)
  {
    JoinLength(parts, sep);
    forall k | 0 <= k < |parts|
      ensures Offset(parts, sep, k) + |parts[k]| <= |Join(parts, sep)|
      ensures Join(parts, sep)[Offset(parts, sep, k)..Offset(parts, sep, k) + |parts[k]|] == parts[k]
    {
      JoinAt(parts, sep, k);
    }
    forall k | 0 <= k < |parts| - 1
      ensures Offset(parts, sep, k) + |parts[k]| + |sep| == Offset(parts, sep, k + 1)
      ensures Join(parts, sep)[Offset(parts, sep, k) + |parts[k]|..Offset(parts, sep, k + 1)] == sep
    {
      JoinSeparatorAt(parts, sep, k);
    }
  }

  /** The characters `String.prototype.trim` removes (ECMAScript WhiteSpace and LineTerminator). */
  predicate IsWhitespace(c: char)
  {
    c == ' ' || c == '\t' || c == '\n' || c == '\r' || c == '\U{000B}' || c == '\U{000C}'
    || c == '\U{00A0}' || c == '\U{1680}' || ('\U{2000}' <= c <= '\U{200A}')
    || c == '\U{2028}' || c == '\U{2029}' || c == '\U{202F}' || c == '\U{205F}'
    || c == '\U{3000}' || c == '\U{FEFF}'
  }

  /** `s` with its leading whitespace removed. */
  function TrimStart(s: string): (r: string)
    ensures |r| <= |s| && r == s[|s| - |r|..]
    ensures forall i :: 0 <= i < |s| - |r| ==> IsWhitespace(s[i])
    ensures r == [] || !IsWhitespace(r[0])
  {
    if s != [] && IsWhitespace(s[0]) then TrimStart(s[1..]) else s
  }

  /** `s` with its trailing whitespace removed. */
  function TrimEnd(s: string): (r: string)
    ensures |r| <= |s| && r == s[..|r|]
    ensures forall i :: |r| <= i < |s| ==> IsWhitespace(s[i])
    ensures r == [] || !IsWhitespace(r[|r| - 1])
  {
    if s != [] && IsWhitespace(s[|s| - 1]) then TrimEnd(s[..|s| - 1]) else s
  }

  /** `r` is `s` from index `i` on, with only whitespace cut before and after it. */
  predicate CutFrom(s: string, r: string, i: int)
  {
    0 <= i <= |s| - |r| && r == s[i..i + |r|]
    && (forall k :: 0 <= k < i ==> IsWhitespace(s[k]))
    && (forall k :: i + |r| <= k < |s| ==> IsWhitespace(s[k]))
  }

  /**
   * `s.trim()`: the stretch of `s` left when only whitespace is cut from its
   * two ends, and it neither starts nor ends with whitespace.
   */
  function Trim(s: string): (r: string)
    ensures |r| <= |s|
    ensures exists i :: CutFrom(s, r, i)
    ensures r == [] || (!IsWhitespace(r[0]) && !IsWhitespace(r[|r| - 1]))
  {
    TrimCut(s);
    TrimEnd(TrimStart(s))
  }

  /** Trimming the start and then the end cuts only whitespace, at both ends. */
  lemma TrimCut(s: string)
    ensures CutFrom(s, TrimEnd(TrimStart(s)), |s| - |TrimStart(s)|)
  {
    CutOfSuffixPrefix(s, TrimStart(s), TrimEnd(TrimStart(s)));
  }

  /** A prefix `r` of a suffix `t` of `s`, each cut only of whitespace, is a cut of `s`. */
  lemma CutOfSuffixPrefix(s: string, t: string, r: string)
    requires |t| <= |s| && t == s[|s| - |t|..]
    requires forall k :: 0 <= k < |s| - |t| ==> IsWhitespace(s[k])
    requires |r| <= |t| && r == t[..|r|]
    requires forall k :: |r| <= k < |t| ==> IsWhitespace(t[k])
    ensures CutFrom(s, r, |s| - |t|)
  {
    var i := |s| - |t|;
    assert r == s[i..i + |r|];
    forall k | i + |r| <= k < |s|
      ensures IsWhitespace(s[k])
    {
      assert s[k] == t[k - i];
    }
  }

  /** Trimming keeps every character that is not whitespace. */
  lemma TrimKeeps(s: string, i: nat)
    requires i < |s| && !IsWhitespace(s[i])
    ensures s[i] in Trim(s)
  {
    var t := TrimStart(s);
    var k := i - (|s| - |t|);
    assert 0 <= k < |t| && t[k] == s[i];
    assert k < |TrimEnd(t)| && TrimEnd(t)[k] == t[k];
  }

  /** JavaScript truthiness of an optional string: present and not empty. */
  predicate Truthy(v: Option<string>) { v.Some? && v.value != "" }

  /** `v || fallback` for an optional string. */
  function Or(v: Option<string>, fallback: string): string
  {
    if Truthy(v) then v.value else fallback
  }
}
