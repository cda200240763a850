/** Python's `int()` and `str()` on decimal text, as the library relies on
    them: `int(value)` for identifiers and balances, `int(header)` for
    Retry-After and `str(token)` for the login token. */
module Numerals {
  import opened Errors
  import opened Json

  /** `str.isspace()`: the characters `str.strip()` removes. */
  predicate IsSpace(c: char) {
    || c == ' ' || '\t' <= c <= '\r' || '\U{1c}' <= c <= '\U{1f}'
    || c == '\U{85}' || c == '\U{a0}' || c == '\U{1680}'
    || '\U{2000}' <= c <= '\U{200a}' || c == '\U{2028}' || c == '\U{2029}'
    || c == '\U{202f}' || c == '\U{205f}' || c == '\U{3000}'
  }

  predicate IsDigit(c: char) { '0' <= c <= '9' }

  predicate AllDigits(s: string) { forall i :: 0 <= i < |s| ==> IsDigit(s[i]) }

  function DigitValue(c: char): (d: nat)
    requires IsDigit(c)
    ensures d < 10
  {
    (c as int) - ('0' as int)
  }

  function DigitChar(d: nat): (c: char)
    requires d < 10
    ensures IsDigit(c) && DigitValue(c) == d
  {
    ((d + '0' as int) as char)
  }

  /** `str.lstrip()` with no argument. */
  function StripLeft(s: string): (r: string)
    ensures |r| <= |s| && r == s[|s| - |r|..]
    ensures r == [] || !IsSpace(r[0])
    ensures forall i :: 0 <= i < |s| - |r| ==> IsSpace(s[i])
  {
    if s != [] && IsSpace(s[0]) then StripLeft(s[1..]) else s
  }

  /** `str.rstrip()` with no argument. */
  function StripRight(s: string): (r: string)
    ensures |r| <= |s| && r == s[..|r|]
    ensures r == [] || !IsSpace(r[|r| - 1])
    ensures forall i :: |r| <= i < |s| ==> IsSpace(s[i])
  {
    if s != [] && IsSpace(s[|s| - 1]) then StripRight(s[..|s| - 1]) else s
  }

  /** `str.strip()` with no argument. */
  function Strip(s: string): string {
    StripRight(StripLeft(s))
  }

  /** The value of a string of decimal digits, most significant first. */
  function DigitsValue(ds: string): nat
    requires AllDigits(ds)
  {
    if ds == [] then 0 else DigitsValue(ds[..|ds| - 1]) * 10 + DigitValue(ds[|ds| - 1])
  }

  /** Digits where an underscore may only stand between two digits. */
  predicate WellGrouped(b: string) {
    && b != []
    && IsDigit(b[0])
    && IsDigit(b[|b| - 1])
    && forall i {:trigger b[i]} :: 0 <= i < |b| ==> IsDigit(b[i]) || (b[i] == '_' && i + 1 < |b| && IsDigit(b[i + 1]))
  }

  function RemoveUnderscores(b: string): (r: string)
    requires forall i :: 0 <= i < |b| ==> IsDigit(b[i]) || b[i] == '_'
    ensures AllDigits(r)
  {
    if b == [] then []
    else if b[0] == '_' then RemoveUnderscores(b[1..])
    else [b[0]] + RemoveUnderscores(b[1..])
  }

  /** `int(s)` for a string in base 10: surrounding whitespace, one sign and
      single underscores between digits are accepted; anything else is the
      ValueError, read here as None. */
  function ParseInt(s: string): (r: Option<int>)
    ensures var t := Strip(s);
      r.Some? <==> WellGrouped(t) || (|t| > 1 && (t[0] == '+' || t[0] == '-') && WellGrouped(t[1..]))
    ensures var t := Strip(s); t != [] && AllDigits(t) ==> r == Some(DigitsValue(t))
    ensures var t := Strip(s);
      |t| > 1 && (t[0] == '+' || t[0] == '-') && AllDigits(t[1..]) ==>
        r == Some(if t[0] == '-' then -(DigitsValue(t[1..]) as int) else DigitsValue(t[1..]))
    ensures var t := Strip(s); r.Some? ==> (r.value < 0 ==> t[0] == '-')
  {
    StrippedText(Strip(s));
    ParseStripped(Strip(s))
  }

  /** What `ParseStripped` accepts and the sign of what it returns. */
  lemma StrippedText(t: string)
    ensures ParseStripped(t).Some? <==>
      WellGrouped(t) || (|t| > 1 && (t[0] == '+' || t[0] == '-') && WellGrouped(t[1..]))
    ensures t != [] && AllDigits(t) ==> ParseStripped(t) == Some(DigitsValue(t))
    ensures |t| > 1 && (t[0] == '+' || t[0] == '-') && AllDigits(t[1..]) ==>
      ParseStripped(t) == Some(if t[0] == '-' then -(DigitsValue(t[1..]) as int) else DigitsValue(t[1..]))
    ensures ParseStripped(t).Some? ==> (ParseStripped(t).value < 0 ==> t[0] == '-')
  {
    PlainDigits(t);
  }

  /** Digits without underscores, signed or not, read as their value. */
  lemma PlainDigits(t: string)
    ensures t != [] && AllDigits(t) ==> ParseStripped(t) == Some(DigitsValue(t))
    ensures |t| > 1 && (t[0] == '+' || t[0] == '-') && AllDigits(t[1..]) ==>
      ParseStripped(t) == Some(if t[0] == '-' then -(DigitsValue(t[1..]) as int) else DigitsValue(t[1..]))
  {
    if t != [] && AllDigits(t) {
      UnsignedDigits(t);
    }
    if |t| > 1 && (t[0] == '+' || t[0] == '-') && AllDigits(t[1..]) {
      SignedDigits(t);
    }
  }

  lemma UnsignedDigits(t: string)
    requires t != [] && AllDigits(t)
    ensures ParseStripped(t) == Some(DigitsValue(t))
  {
    assert IsDigit(t[0]);
    DigitsMagnitude(t);
  }

  lemma SignedDigits(t: string)
    requires |t| > 1 && (t[0] == '+' || t[0] == '-') && AllDigits(t[1..])
    ensures ParseStripped(t) == Some(if t[0] == '-' then -(DigitsValue(t[1..]) as int) else DigitsValue(t[1..]))
  {
    DigitsMagnitude(t[1..]);
  }

  /** The sign and magnitude of text already stripped of whitespace. */
  function ParseStripped(t: string): Option<int> {
    if t != [] && (t[0] == '+' || t[0] == '-') then
      var v :- Magnitude(t[1..]);
      Some(if t[0] == '-' then -v else v)
    else
      Magnitude(t)
  }

  function Magnitude(b: string): (r: Option<int>)
    ensures r.Some? <==> WellGrouped(b)
    ensures r.Some? ==> r.value >= 0
  {
    if WellGrouped(b) then
      assert forall i :: 0 <= i < |b| ==> IsDigit(b[i]) || b[i] == '_';
      Some(DigitsValue(RemoveUnderscores(b)))
    else None
  }

  /** The shortest decimal digits of a natural number. */
  function NatDigits(n: nat): (s: string)
    ensures s != [] && AllDigits(s)
    ensures IsDigit(s[0]) && IsDigit(s[|s| - 1])
  {
    if n < 10 then [DigitChar(n)] else NatDigits(n / 10) + [DigitChar(n % 10)]
  }

  /** `str(n)` of a Python int. */
  function IntToString(n: int): (s: string)
    ensures s != []
    ensures n >= 0 ==> AllDigits(s) && DigitsValue(s) == n
    ensures n < 0 ==> |s| > 1 && s[0] == '-' && AllDigits(s[1..]) && DigitsValue(s[1..]) == -n
    ensures s[0] == '0' ==> s == "0"
  {
    if n < 0 then
      NatDigitsValue(-n);
      NatDigitsLeading(-n);
      var ds := NatDigits(-n);
      assert ("-" + ds)[1..] == ds;
      "-" + ds
    else
      NatDigitsValue(n);
      NatDigitsLeading(n);
      NatDigits(n)
  }

  /** Only zero itself is printed with a leading zero. */
  lemma {:induction false} NatDigitsLeading(n: nat)
    ensures NatDigits(n)[0] == '0' ==> n == 0
  {
    if n >= 10 {
      NatDigitsLeading(n / 10);
    }
  }

  lemma {:induction false} NatDigitsValue(n: nat)
    ensures DigitsValue(NatDigits(n)) == n
  {
    if n >= 10 {
      var s := NatDigits(n);
      assert s[..|s| - 1] == NatDigits(n / 10);
      NatDigitsValue(n / 10);
    }
  }

  lemma {:induction false} NoUnderscores(b: string)
    requires AllDigits(b)
    ensures RemoveUnderscores(b) == b
  {
    if b != [] {
      NoUnderscores(b[1..]);
    }
  }

  lemma StripUnpadded(s: string)
    requires s != [] && !IsSpace(s[0]) && !IsSpace(s[|s| - 1])
    ensures Strip(s) == s
  {
  }

  /** `int(str(n)) == n`: the decimal text Python prints for an int reads
      back as that int. */
  lemma IntRoundTrip(n: int)
    ensures ParseInt(IntToString(n)) == Some(n)
  {
    if n < 0 {
      NegativeRoundTrip(n);
    } else {
      NaturalRoundTrip(n);
    }
  }

  lemma NaturalRoundTrip(n: int)
    requires n >= 0
    ensures ParseInt(IntToString(n)) == Some(n)
  {
    var s := IntToString(n);
    assert IsDigit(s[0]) && IsDigit(s[|s| - 1]);
    StripUnpadded(s);
  }

  lemma NegativeRoundTrip(n: int)
    requires n < 0
    ensures ParseInt(IntToString(n)) == Some(n)
  {
    var s := IntToString(n);
    assert s[1..][|s| - 2] == s[|s| - 1];
    assert IsDigit(s[|s| - 1]);
    StripUnpadded(s);
  }

  /** Plain digits read as their value. */
  lemma DigitsMagnitude(ds: string)
    requires ds != [] && AllDigits(ds)
    ensures Magnitude(ds) == Some(DigitsValue(ds))
  {
    NoUnderscores(ds);
    assert WellGrouped(ds);
  }

  /** `int(value)` applied to a decoded JSON value: ints pass, booleans are
      0 and 1, strings are read by `ParseInt`, and None, lists and objects
      are a TypeError (None here). */
  function PyInt(v: Json): (r: Option<int>)
    ensures v.JInt? ==> r == Some(v.i)
    ensures v.JBool? ==> r == Some(if v.b then 1 else 0)
    ensures v.JStr? ==> r == ParseInt(v.s)
    ensures (v.JNull? || v.JList? || v.JObj?) ==> r.None?
  {
    match v
    case JInt(i) => Some(i)
    case JBool(b) => Some(if b then 1 else 0)
    case JStr(s) => ParseInt(s)
    case _ => None
  }
}
