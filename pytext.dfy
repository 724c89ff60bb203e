/**
 * The Python string builtins the storefront views rely on, over `seq<char>`:
 * `str.strip()`, `int(str)`, `str(int)`, `str.lower()` and the ordering of
 * strings used by `list.sort`.
 *
 * `int(str)` is modelled for ASCII digits: the whitespace `int()` skips
 * (`IsIntSpace`, narrower than the set `str.strip()` removes) is stripped,
 * then one optional sign, then decimal digits with single underscores allowed
 * between digits; anything else is a ValueError (here: None).
 */
module PyText {
  import opened Wrappers

  /** Python's `str.isspace()` for one character (the whitespace code points up to U+3000). */
  predicate IsSpace(c: char) {
    || c == ' '
    || '\t' <= c <= '\r'
    || '\U{1C}' <= c <= '\U{1F}'
    || c == '\U{85}' || c == '\U{A0}' || c == '\U{1680}'
    || '\U{2000}' <= c <= '\U{200A}'
    || c == '\U{2028}' || c == '\U{2029}' || c == '\U{202F}' || c == '\U{205F}' || c == '\U{3000}'
  }

  /**
   * The whitespace `int()` skips around its digits: ASCII space and `\t` to
   * `\r`, and every non-ASCII character `str.isspace()` accepts (which
   * `int()` first maps to a space). The separators U+001C to U+001F, which
   * `str.strip()` removes, are not skipped.
   */
  predicate IsIntSpace(c: char) {
    IsSpace(c) && !('\U{1C}' <= c <= '\U{1F}')
  }

  /** Every character of `s` is in the class `ws`. */
  predicate AllOf(s: string, ws: char -> bool) {
    forall i | 0 <= i < |s| :: ws(s[i])
  }

  predicate AllSpace(s: string) {
    AllOf(s, IsSpace)
  }

  /** `s.lstrip()` for the whitespace class `ws`: drops leading whitespace only. */
  function StripLeft(s: string, ws: char -> bool): (r: string)
    ensures |r| <= |s|
  {
    if s != [] && ws(s[0]) then StripLeft(s[1..], ws) else s
  }

  /** `s.lstrip()` is the suffix of `s` after its leading whitespace. */
  lemma {:induction false} StripLeftSpec(s: string, ws: char -> bool)
    ensures StripLeft(s, ws) == s[|s| - |StripLeft(s, ws)|..]
    ensures StripLeft(s, ws) == [] || !ws(StripLeft(s, ws)[0])
    ensures forall i | 0 <= i < |s| - |StripLeft(s, ws)| :: ws(s[i])
  {
    if s != [] && ws(s[0]) {
      var t := s[1..];
      StripLeftSpec(t, ws);
      forall i | 0 <= i < |s| - |StripLeft(s, ws)| ensures ws(s[i]) {
        if i > 0 {
          assert s[i] == t[i - 1];
        }
      }
    }
  }

  /** `s.rstrip()` for the whitespace class `ws`: drops trailing whitespace only. */
  function StripRight(s: string, ws: char -> bool): (r: string)
    ensures |r| <= |s|
  {
    if s != [] && ws(s[|s| - 1]) then StripRight(s[..|s| - 1], ws) else s
  }

  /** `s.rstrip()` is the prefix of `s` before its trailing whitespace. */
  lemma {:induction false} StripRightSpec(s: string, ws: char -> bool)
    ensures StripRight(s, ws) == s[..|StripRight(s, ws)|]
    ensures StripRight(s, ws) == [] || !ws(StripRight(s, ws)[|StripRight(s, ws)| - 1])
    ensures forall i | |StripRight(s, ws)| <= i < |s| :: ws(s[i])
  {
    if s != [] && ws(s[|s| - 1]) {
      var t := s[..|s| - 1];
      StripRightSpec(t, ws);
      forall i | |StripRight(s, ws)| <= i < |s| ensures ws(s[i]) {
        if i < |s| - 1 {
          assert s[i] == t[i];
        }
      }
    }
  }

  /** How many characters `s.lstrip()` removes. */
  function LeadingSpaces(s: string): (k: nat)
    ensures k <= |s|
  {
    |s| - |StripLeft(s, IsSpace)|
  }

  /** `s.strip()`: drops whitespace at both ends. */
  function Strip(s: string): string {
    StripRight(StripLeft(s, IsSpace), IsSpace)
  }

  /** The text `int()` reads: `s` without the whitespace `int()` skips at either end. */
  function IntStrip(s: string): string {
    StripRight(StripLeft(s, IsIntSpace), IsIntSpace)
  }

  /**
   * `s.strip()` is the infix of `s` between its leading and trailing
   * whitespace: what it drops at both ends is whitespace, and it neither
   * starts nor ends with whitespace.
   */
  lemma StripInfix(s: string)
    ensures LeadingSpaces(s) + |Strip(s)| <= |s| && Strip(s) == s[LeadingSpaces(s)..LeadingSpaces(s) + |Strip(s)|]
    ensures forall i | 0 <= i < LeadingSpaces(s) :: IsSpace(s[i])
    ensures forall i | LeadingSpaces(s) + |Strip(s)| <= i < |s| :: IsSpace(s[i])
    ensures Strip(s) == [] || (!IsSpace(Strip(s)[0]) && !IsSpace(Strip(s)[|Strip(s)| - 1]))
  {
    var l := StripLeft(s, IsSpace);
    StripLeftSpec(s, IsSpace);
    StripRightSpec(l, IsSpace);
    var r := StripRight(l, IsSpace);
    var k := LeadingSpaces(s);
    if r != [] {
      assert r[0] == l[0];
    }
    forall i | k + |r| <= i < |s| ensures IsSpace(s[i]) {
      assert s[i] == l[i - k];
    }
  }

  /** `s.strip()` is empty exactly when `s` is all whitespace. */
  lemma StripBlank(s: string)
    ensures Strip(s) == [] <==> AllSpace(s)
  {
    var l := StripLeft(s, IsSpace);
    StripLeftSpec(s, IsSpace);
    StripRightSpec(l, IsSpace);
    if l != [] {
      var k := |s| - |l|;
      assert s[k] == l[0];
      assert StripRight(l, IsSpace) != [];
    }
  }

  /** Stripping a string that has no whitespace at either end changes nothing. */
  lemma StripUnchanged(s: string)
    requires s == [] || (!IsSpace(s[0]) && !IsSpace(s[|s| - 1]))
    ensures Strip(s) == s
  {
    assert StripLeft(s, IsSpace) == s;
  }

  predicate IsDigit(c: char) {
    '0' <= c <= '9'
  }

  predicate AllDigits(s: string) {
    forall i | 0 <= i < |s| :: IsDigit(s[i])
  }

  function DigitValue(c: char): (d: nat)
    requires IsDigit(c)
    ensures d < 10
  {
    c as int - '0' as int
  }

  function DigitChar(d: nat): (c: char)
    requires d < 10
    ensures IsDigit(c) && DigitValue(c) == d
  {
    ('0' as int + d) as char
  }

  /** The number a string of decimal digits denotes (leading zeros allowed, as `int("007") == 7`). */
  function DigitsValue(s: string): nat
    requires AllDigits(s)
  {
    if s == [] then 0 else DigitsValue(s[..|s| - 1]) * 10 + DigitValue(s[|s| - 1])
  }

  /** `str(n)` for a non-negative integer: its decimal digits, no leading zero. */
  function NatToString(n: nat): (r: string)
    ensures |r| > 0 && AllDigits(r)
    ensures r[0] != '0' || r == "0"
  {
    if n < 10 then [DigitChar(n)] else NatToString(n / 10) + [DigitChar(n % 10)]
  }

  /** The digits of `s` with the separating underscores removed. */
  function WithoutUnderscores(s: string): (r: string)
    requires forall i | 0 <= i < |s| :: IsDigit(s[i]) || s[i] == '_'
    ensures AllDigits(r) && |r| <= |s|
  {
    if s == [] then []
    else if s[0] == '_' then WithoutUnderscores(s[1..])
    else [s[0]] + WithoutUnderscores(s[1..])
  }

  /** Digits with single underscores only between digits: the body `int()` accepts after the sign. */
  predicate DigitGroups(s: string) {
    && |s| > 0
    && IsDigit(s[0])
    && IsDigit(s[|s| - 1])
    && (forall i | 0 <= i < |s| :: IsDigit(s[i]) || s[i] == '_')
    && (forall i | 0 <= i < |s| - 1 :: s[i] == '_' ==> s[i + 1] != '_')
  }

  function ParseDigits(s: string): Option<nat> {
    if DigitGroups(s) then Some(DigitsValue(WithoutUnderscores(s))) else None
  }

  /** An optional sign followed by digit groups, with no surrounding whitespace. */
  function ParseSigned(t: string): Option<int> {
    if |t| > 0 && (t[0] == '+' || t[0] == '-') then
      match ParseDigits(t[1..])
      case None => None
      case Some(n) => Some(if t[0] == '-' then -(n as int) else n)
    else
      match ParseDigits(t)
      case None => None
      case Some(n) => Some(n)
  }

  /**
   * `int(s)` for a string; None stands for the ValueError Python raises. A
   * blank string is refused, and so is one that starts with a separator
   * U+001C to U+001F, which `int()` does not skip.
   */
  function ParseInt(s: string): (r: Option<int>)
    ensures AllOf(s, IsIntSpace) ==> r.None?
    ensures |s| > 0 && '\U{1C}' <= s[0] <= '\U{1F}' ==> r.None?
  {
    StripLeftSpec(s, IsIntSpace);
    StripRightSpec(StripLeft(s, IsIntSpace), IsIntSpace);
    ParseSigned(IntStrip(s))
  }

  lemma {:induction false} WithoutUnderscoresOfDigits(s: string)
    requires AllDigits(s)
    ensures WithoutUnderscores(s) == s
  {
    if s != [] {
      WithoutUnderscoresOfDigits(s[1..]);
    }
  }

  lemma {:induction false} DigitsValueOfNatToString(n: nat)
    ensures DigitsValue(NatToString(n)) == n
  {
    var r := NatToString(n);
    if n >= 10 {
      DigitsValueOfNatToString(n / 10);
      assert r[..|r| - 1] == NatToString(n / 10);
    }
  }

  /** `int(str(n)) == n`, also with the whitespace `int()` skips around the digits and an explicit sign. */
  lemma ParseIntOfNatToString(n: nat, lead: string, trail: string, sign: string)
    requires AllOf(lead, IsIntSpace) && AllOf(trail, IsIntSpace)
    requires sign == "" || sign == "+" || sign == "-"
    ensures ParseInt(lead + sign + NatToString(n) + trail) == Some(if sign == "-" then -(n as int) else n)
  {
    var d := NatToString(n);
    var t := sign + d;
    assert lead + sign + d + trail == lead + t + trail;
    assert t[|t| - 1] == d[|d| - 1];
    NotSpace(d[|d| - 1]);
    NotSpace(t[0]);
    StripPadded(lead, t, trail);
    ParseSignedOfNatToString(n, sign);
  }

  lemma ParseSignedOfNatToString(n: nat, sign: string)
    requires sign == "" || sign == "+" || sign == "-"
    ensures ParseSigned(sign + NatToString(n)) == Some(if sign == "-" then -(n as int) else n)
  {
    var d := NatToString(n);
    ParseDigitsOfNatToString(n);
    if sign == "" {
      assert sign + d == d;
      assert !(d[0] == '+' || d[0] == '-');
    } else {
      assert (sign + d)[1..] == d;
    }
  }

  lemma ParseDigitsOfNatToString(n: nat)
    ensures ParseDigits(NatToString(n)) == Some(n)
  {
    var d := NatToString(n);
    assert DigitGroups(d);
    WithoutUnderscoresOfDigits(d);
    DigitsValueOfNatToString(n);
  }

  lemma NotSpace(c: char)
    requires IsDigit(c) || c == '+' || c == '-'
    ensures !IsIntSpace(c)
  {
  }

  /**
   * `int()` ignores the whitespace it skips around the text it reads: padding
   * a text that neither starts nor ends with such whitespace changes nothing.
   */
  lemma ParseIntPadded(lead: string, t: string, trail: string)
    requires AllOf(lead, IsIntSpace) && AllOf(trail, IsIntSpace)
    requires t != [] && !IsIntSpace(t[0]) && !IsIntSpace(t[|t| - 1])
    ensures ParseInt(lead + t + trail) == ParseInt(t)
  {
    StripPadded(lead, t, trail);
    StripPadded("", t, "");
    assert "" + t + "" == t;
  }

  lemma StripPadded(lead: string, t: string, trail: string)
    requires AllOf(lead, IsIntSpace) && AllOf(trail, IsIntSpace)
    requires t != [] && !IsIntSpace(t[0]) && !IsIntSpace(t[|t| - 1])
    ensures IntStrip(lead + t + trail) == t
  {
    assert lead + t + trail == lead + (t + trail);
    StripLeftSpaces(lead, t + trail);
    StripRightSpaces(t, trail);
  }

  lemma {:induction false} StripLeftSpaces(w: string, t: string)
    requires AllOf(w, IsIntSpace)
    requires t != [] && !IsIntSpace(t[0])
    ensures StripLeft(w + t, IsIntSpace) == t
  {
    if w != [] {
      assert (w + t)[1..] == w[1..] + t;
      StripLeftSpaces(w[1..], t);
    } else {
      assert w + t == t;
    }
  }

  lemma {:induction false} StripRightSpaces(t: string, w: string)
    requires AllOf(w, IsIntSpace)
    requires t != [] && !IsIntSpace(t[|t| - 1])
    ensures StripRight(t + w, IsIntSpace) == t
  {
    if w != [] {
      assert (t + w)[..|t + w| - 1] == t + w[..|w| - 1];
      StripRightSpaces(t, w[..|w| - 1]);
    } else {
      assert t + w == t;
    }
  }

  /** `str` is injective on non-negative integers: a cart key names one product id. */
  lemma NatToStringInjective(a: nat, b: nat)
    requires NatToString(a) == NatToString(b)
    ensures a == b
  {
    ParseIntOfNatToString(a, "", "", "");
    ParseIntOfNatToString(b, "", "", "");
    assert "" + "" + NatToString(a) + "" == NatToString(a);
    assert "" + "" + NatToString(b) + "" == NatToString(b);
  }

  function LowerChar(c: char): char {
    if 'A' <= c <= 'Z' then (c as int + 32) as char else c
  }

  /** `s.lower()` for ASCII letters; other characters are kept. */
  function Lower(s: string): (r: string)
    ensures |r| == |s|
    ensures forall i | 0 <= i < |s| :: r[i] == LowerChar(s[i])
  {
    seq(|s|, i requires 0 <= i < |s| => LowerChar(s[i]))
  }

  lemma LowerIdempotent(s: string)
    ensures Lower(Lower(s)) == Lower(s)
    ensures forall i | 0 <= i < |s| :: !('A' <= Lower(s)[i] <= 'Z')
  {
  }

  /** Python's `a <= b` on strings: code-point lexicographic order. */
  predicate StrLe(a: string, b: string) {
    if a == [] then true
    else if b == [] then false
    else if a[0] != b[0] then a[0] < b[0]
    else StrLe(a[1..], b[1..])
  }

  lemma {:induction false} StrLeTotal(a: string, b: string)
    ensures StrLe(a, b) || StrLe(b, a)
  {
    if a != [] && b != [] && a[0] == b[0] {
      StrLeTotal(a[1..], b[1..]);
    }
  }

  lemma {:induction false} StrLeTransitive(a: string, b: string, c: string)
    requires StrLe(a, b) && StrLe(b, c)
    ensures StrLe(a, c)
  {
    if a != [] && b != [] && c != [] && a[0] == b[0] && b[0] == c[0] {
      StrLeTransitive(a[1..], b[1..], c[1..]);
    }
  }

  lemma {:induction false} StrLeAntisymmetric(a: string, b: string)
    requires StrLe(a, b) && StrLe(b, a)
    ensures a == b
  {
    if a != [] && b != [] {
      StrLeAntisymmetric(a[1..], b[1..]);
    }
  }
}
