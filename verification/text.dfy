/** The few pieces of Python's string semantics the conversation engine relies on:
    `str.lower()` for case-insensitive comparison, `str.strip()`, and `int()` applied
    to a string, together with the decimal rendering used for numbered lists. */
module Text {
  import opened Wrappers

  /** Python truthiness of an optional string: present and non-empty. */
  predicate Truthy(o: Option<string>) {
    o.Some? && o.value != ""
  }

  /* ---------------- Case folding ---------------- */

  /** Lower-case mapping of one character: ASCII letters and the Latin-1 capitals
      U+00C0..U+00DE (except the multiplication sign U+00D7) map to their small form. */
  function LowerChar(c: char): (r: char)
    ensures 'A' <= c <= 'Z' ==> 'a' <= r <= 'z'
    ensures !('A' <= c <= 'Z') && !('\U{00C0}' <= c <= '\U{00DE}') ==> r == c
  {
    if 'A' <= c <= 'Z' || ('\U{00C0}' <= c <= '\U{00DE}' && c != '\U{00D7}') then
      (c as int + 32) as char
    else
      c
  }

  /** `s.lower()`. */
  function Lower(s: string): (r: string)
    ensures |r| == |s|
    ensures forall i :: 0 <= i < |s| ==> r[i] == LowerChar(s[i])
  {
    if s == [] then [] else [LowerChar(s[0])] + Lower(s[1..])
  }

  /** `a.lower() == b.lower()`. */
  predicate EqualsIgnoreCase(a: string, b: string) {
    Lower(a) == Lower(b)
  }

  /* ---------------- Whitespace ---------------- */

  /** The characters for which Python's `str.isspace()` holds. */
  predicate IsSpace(c: char) {
    || c == ' ' || '\t' <= c <= '\r' || '\U{001C}' <= c <= '\U{001F}'
    || c == '\U{0085}' || c == '\U{00A0}' || c == '\U{1680}'
    || '\U{2000}' <= c <= '\U{200A}' || c == '\U{2028}' || c == '\U{2029}'
    || c == '\U{202F}' || c == '\U{205F}' || c == '\U{3000}'
  }

  /** `s.lstrip()`: drops the leading whitespace and nothing else. */
  function TrimStart(s: string): (r: string)
    ensures |r| <= |s| && r == s[|s| - |r|..]
    ensures forall i :: 0 <= i < |s| - |r| ==> IsSpace(s[i])
    ensures r == [] || !IsSpace(r[0])
  {
    if s != [] && IsSpace(s[0]) then TrimStart(s[1..]) else s
  }

  /** `s.rstrip()`: drops the trailing whitespace and nothing else. */
  function TrimEnd(s: string): (r: string)
    ensures |r| <= |s| && r == s[..|r|]
    ensures forall i :: |r| <= i < |s| ==> IsSpace(s[i])
    ensures r == [] || !IsSpace(r[|r| - 1])
  {
    if s != [] && IsSpace(s[|s| - 1]) then TrimEnd(s[..|s| - 1]) else s
  }

  predicate AllSpace(s: string) {
    forall i :: 0 <= i < |s| ==> IsSpace(s[i])
  }

  /** `s.strip()`. */
  function Strip(s: string): (r: string)
    ensures r == [] || (!IsSpace(r[0]) && !IsSpace(r[|r| - 1]))
    ensures |r| <= |s|
  {
    TrimEnd(TrimStart(s))
  }

  lemma {:induction false} TrimStartPadded(pad: string, s: string)
    requires AllSpace(pad)
    requires s == [] || !IsSpace(s[0])
    ensures TrimStart(pad + s) == s
    decreases |pad|
  {
    if pad == [] {
      assert pad + s == s;
    } else {
      assert (pad + s)[1..] == pad[1..] + s;
      TrimStartPadded(pad[1..], s);
    }
  }

  lemma {:induction false} TrimEndPadded(s: string, pad: string)
    requires AllSpace(pad)
    requires s == [] || !IsSpace(s[|s| - 1])
    ensures TrimEnd(s + pad) == s
    decreases |pad|
  {
    if pad == [] {
      assert s + pad == s;
    } else {
      assert (s + pad)[..|s + pad| - 1] == s + pad[..|pad| - 1];
      TrimEndPadded(s, pad[..|pad| - 1]);
    }
  }

  /** Stripping removes exactly the surrounding whitespace: a string with no
      whitespace at either end comes back unchanged from any amount of padding. */
  lemma StripPadded(before: string, s: string, after: string)
    requires AllSpace(before) && AllSpace(after)
    requires s == [] || (!IsSpace(s[0]) && !IsSpace(s[|s| - 1]))
    ensures Strip(before + s + after) == s
  {
    assert before + s + after == before + (s + after);
    if s == [] {
      assert s + after == after;
      assert before + after == (before + after) + [];
      assert AllSpace(before + after);
      TrimStartPadded(before + after, []);
      assert TrimEnd([]) == [];
    } else {
      assert (s + after)[0] == s[0];
      TrimStartPadded(before, s + after);
      TrimEndPadded(s, after);
    }
  }

  /* ---------------- Integers ---------------- */

  predicate IsDigit(c: char) {
    '0' <= c <= '9'
  }

  function DigitValue(c: char): nat
    requires IsDigit(c)
  {
    c as int - '0' as int
  }

  function DigitChar(d: nat): (c: char)
    requires d < 10
    ensures IsDigit(c) && DigitValue(c) == d
  {
    ('0' as int + d) as char
  }

  /** The digit part accepted by Python's `int()`: decimal digits, where single
      underscores may separate two digits. */
  predicate DigitGroup(t: string) {
    && |t| > 0
    && IsDigit(t[0]) && IsDigit(t[|t| - 1])
    && (forall i :: 0 <= i < |t| ==> IsDigit(t[i]) || t[i] == '_')
    && (forall i :: 0 <= i < |t| - 1 ==> t[i] == '_' ==> t[i + 1] != '_')
  }

  /** The number a digit group denotes; underscores are skipped. */
  function DigitsValue(t: string): nat {
    if t == [] then 0
    else if IsDigit(t[|t| - 1]) then 10 * DigitsValue(t[..|t| - 1]) + DigitValue(t[|t| - 1])
    else DigitsValue(t[..|t| - 1])
  }

  /** The number of decimal digits in `t`; underscores and signs are not counted. */
  function DigitCount(t: string): (n: nat)
    ensures n <= |t|
  {
    if t == [] then 0 else (if IsDigit(t[0]) then 1 else 0) + DigitCount(t[1..])
  }

  /** CPython's default `sys.get_int_max_str_digits()`: `int()` refuses a decimal
      string with more digits than this. */
  const MaxStrDigits: nat := 4300

  /** `int(s)` for a string `s`: surrounding whitespace is ignored, an optional
      sign may precede the digit group, a group of more than `MaxStrDigits`
      digits is refused, and anything else raises ValueError, modelled here as None. */
  function ParseInt(s: string): (r: Option<int>)
    ensures r.Some? ==> DigitCount(Strip(s)) <= MaxStrDigits
  {
    var t := Strip(s);
    if |t| > 0 && (t[0] == '+' || t[0] == '-') then
      if DigitGroup(t[1..]) && DigitCount(t[1..]) <= MaxStrDigits then
        Some(if t[0] == '-' then -(DigitsValue(t[1..]) as int) else DigitsValue(t[1..]) as int)
      else None
    else if DigitGroup(t) && DigitCount(t) <= MaxStrDigits then Some(DigitsValue(t))
    else None
  }

  /** `int()` refuses text whose digits, once stripped, number more than
      `MaxStrDigits`, however well formed it is. */
  lemma ParseIntTooManyDigits(s: string)
    requires DigitCount(Strip(s)) > MaxStrDigits
    ensures ParseInt(s) == None
  {
  }

  /** `int()` refuses any text that, once stripped, holds a character other than
      a digit or an underscore, except for a sign in front. */
  lemma ParseIntRejects(s: string, i: nat)
    requires i < |Strip(s)|
    requires !IsDigit(Strip(s)[i]) && Strip(s)[i] != '_'
    requires i > 0 || (Strip(s)[i] != '+' && Strip(s)[i] != '-')
    ensures ParseInt(s) == None
  {
    var t := Strip(s);
    if |t| > 0 && (t[0] == '+' || t[0] == '-') {
      assert t[1..][i - 1] == t[i];
    }
  }

  /** The decimal rendering of a natural number, as `str(n)` or an f-string gives it. */
  function ShowNat(n: nat): (r: string)
    ensures |r| > 0
    ensures forall i :: 0 <= i < |r| ==> IsDigit(r[i])
  {
    if n < 10 then [DigitChar(n)] else ShowNat(n / 10) + [DigitChar(n % 10)]
  }

  lemma {:induction false} ShowNatValue(n: nat)
    ensures DigitsValue(ShowNat(n)) == n
    decreases n
  {
    var r := ShowNat(n);
    if n < 10 {
      assert r[..|r| - 1] == [];
    } else {
      assert r[..|r| - 1] == ShowNat(n / 10);
      ShowNatValue(n / 10);
    }
  }

  lemma {:induction false} AllDigitsCount(t: string)
    requires forall i :: 0 <= i < |t| ==> IsDigit(t[i])
    ensures DigitCount(t) == |t|
    decreases |t|
  {
    if t != [] {
      assert forall i :: 0 <= i < |t[1..]| ==> t[1..][i] == t[i + 1];
      AllDigitsCount(t[1..]);
    }
  }

  /** Reading back the rendering of a number with `int()` gives the number, with
      or without whitespace around it, as long as it is within `int()`'s digit limit. */
  lemma {:induction false} ParseShowRoundTrip(n: nat, before: string, after: string)
    requires AllSpace(before) && AllSpace(after)
    requires |ShowNat(n)| <= MaxStrDigits
    ensures ParseInt(before + ShowNat(n) + after) == Some(n)
  {
    var t := ShowNat(n);
    StripPadded(before, t, after);
    ShowNatValue(n);
    ParseDigitGroup(before + t + after, t);
  }

  /** Text that strips to a digit group parses to the group's value. */
  lemma ParseDigitGroup(s: string, t: string)
    requires Strip(s) == t
    requires |t| > 0 && forall i :: 0 <= i < |t| ==> IsDigit(t[i])
    requires |t| <= MaxStrDigits
    ensures ParseInt(s) == Some(DigitsValue(t) as int)
  {
    AllDigitsCount(t);
    assert IsDigit(t[0]) && IsDigit(t[|t| - 1]);
    assert DigitGroup(t);
  }
}
