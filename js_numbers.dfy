/** JavaScript values as the dashboard receives them from spreadsheet rows and
    form fields, and `parseFloat` on decimal text. A number that is NaN is
    represented by `None`. */
module JsNumbers {
  import opened Wrappers
  import opened Text

  /** A cell or a field value: `undefined`, `null`, a finite number or a string. */
  datatype JsValue = JUndefined | JNull | JNum(n: real) | JStr(s: string)

  /** JavaScript truthiness of a value. */
  predicate Truthy(v: JsValue) {
    match v
    case JUndefined => false
    case JNull => false
    case JNum(n) => n != 0.0
    case JStr(s) => s != []
  }

  function DigitValue(c: char): nat
    requires IsDigit(c)
  {
    c as int - '0' as int
  }

  function Pow10(n: nat): (r: nat)
    ensures r >= 1
  {
    if n == 0 then 1 else 10 * Pow10(n - 1)
  }

  /** The value of a string of decimal digits. */
  function DigitsValue(d: string): nat
    requires AllDigits(d)
  {
    if d == [] then 0 else DigitsValue(d[..|d| - 1]) * 10 + DigitValue(d[|d| - 1])
  }

  lemma AllDigitsAppend(a: string, b: string)
    requires AllDigits(a) && AllDigits(b)
    ensures AllDigits(a + b)
  {
    forall i | 0 <= i < |a + b| ensures IsDigit((a + b)[i]) {
      if i < |a| { assert (a + b)[i] == a[i]; } else { assert (a + b)[i] == b[i - |a|]; }
    }
  }

  /** Unfolding `DigitsValue` once at the last digit. */
  lemma DigitsValueLast(d: string)
    requires AllDigits(d) && d != []
    ensures AllDigits(d[..|d| - 1]) && IsDigit(d[|d| - 1])
    ensures DigitsValue(d) == DigitsValue(d[..|d| - 1]) * 10 + DigitValue(d[|d| - 1])
  {
  }

  lemma ShiftDigit(va: int, p: int, vb: int, d: int)
    ensures (va * p + vb) * 10 + d == va * (10 * p) + (vb * 10 + d)
  {
  }

  lemma {:induction false} DigitsValueAppend(a: string, b: string)
    requires AllDigits(a) && AllDigits(b)
    ensures AllDigits(a + b)
    ensures DigitsValue(a + b) == DigitsValue(a) * Pow10(|b|) + DigitsValue(b)
  {
    AllDigitsAppend(a, b);
    if b != [] {
      var ab := a + b;
      var b' := b[..|b| - 1];
      assert ab[..|ab| - 1] == a + b';
      assert ab[|ab| - 1] == b[|b| - 1];
      DigitsValueLast(ab);
      DigitsValueLast(b);
      DigitsValueAppend(a, b');
      ShiftDigit(DigitsValue(a), Pow10(|b'|), DigitsValue(b'), DigitValue(b[|b| - 1]));
    } else {
      assert a + b == a;
    }
  }

  /** Number of leading decimal digits. */
  function LeadingDigits(s: string): (n: nat)
    ensures n <= |s| && AllDigits(s[..n])
    ensures n < |s| ==> !IsDigit(s[n])
  {
    if s != [] && IsDigit(s[0]) then
      var n := 1 + LeadingDigits(s[1..]);
      assert forall i :: 1 <= i < n ==> s[..n][i] == s[1..][..n - 1][i - 1];
      n
    else 0
  }

  lemma {:induction false} LeadingDigitsAppend(a: string, b: string)
    requires AllDigits(a)
    ensures LeadingDigits(a + b) == |a| + LeadingDigits(b)
  {
    if a != [] {
      assert (a + b)[0] == a[0];
      assert (a + b)[1..] == a[1..] + b;
      LeadingDigitsAppend(a[1..], b);
    } else {
      assert a + b == b;
    }
  }

  /** The value of the digits `fp` written after a decimal point. */
  function FracValue(fp: string): real
    requires AllDigits(fp)
  {
    if fp == [] then 0.0 else (DigitValue(fp[0]) as real + FracValue(fp[1..])) / 10.0
  }

  /** The number written `ip.fp`. */
  function DecimalValue(ip: string, fp: string): real
    requires AllDigits(ip) && AllDigits(fp)
  {
    DigitsValue(ip) as real + FracValue(fp)
  }

  /** The longest prefix of the form `digits[.digits]`, NaN when it has no digit. */
  function UnsignedPrefix(u: string): Option<real> {
    var n := LeadingDigits(u);
    var rest := u[n..];
    var hasPoint := rest != [] && rest[0] == '.';
    var m := if hasPoint then LeadingDigits(rest[1..]) else 0;
    var fp := if hasPoint then rest[1..][..m] else [];
    if n == 0 && m == 0 then None else Some(DecimalValue(u[..n], fp))
  }

  /** `parseFloat(s)`: leading white space, an optional sign, then the longest
      decimal prefix; NaN (`None`) when there is no digit to read. */
  function ParseFloat(s: string): Option<real> {
    var t := TrimStart(s);
    if t != [] && t[0] == '-' then
      match UnsignedPrefix(t[1..])
      case Some(v) => Some(-v)
      case None => None
    else if t != [] && t[0] == '+' then UnsignedPrefix(t[1..])
    else UnsignedPrefix(t)
  }

  /** `parseInt(s)` in base 10: leading white space, an optional sign, then
      the longest run of digits; NaN (`None`) when there is none. */
  function ParseInt(s: string): Option<int> {
    var t := TrimStart(s);
    var u := if t != [] && (t[0] == '-' || t[0] == '+') then t[1..] else t;
    var n := LeadingDigits(u);
    if n == 0 then None
    else if t[0] == '-' then Some(-(DigitsValue(u[..n]) as int))
    else Some(DigitsValue(u[..n]))
  }

  /** `parseInt` reads a string of digits as its value, and stops at the
      first character that is not a digit. */
  lemma {:induction false} ParseIntDigits(d: string, rest: string)
    requires AllDigits(d) && d != [] && (rest == [] || !IsDigit(rest[0]))
    ensures ParseInt(d + rest) == Some(DigitsValue(d) as int)
  {
    var s := d + rest;
    assert s[0] == d[0];
    assert TrimStart(s) == s;
    LeadingDigitsAppend(d, rest);
    assert LeadingDigits(rest) == 0;
    assert s[..|d|] == d;
  }

  lemma LeadingDigitsAll(d: string)
    requires AllDigits(d)
    ensures LeadingDigits(d) == |d|
  {
    LeadingDigitsAppend(d, []);
    assert d + [] == d;
  }

  /** `parseFloat` reads a string starting with a digit or a point as it is. */
  lemma ParseFloatUnsigned(u: string)
    requires u != [] && (IsDigit(u[0]) || u[0] == '.')
    ensures ParseFloat(u) == UnsignedPrefix(u)
  {
    assert TrimStart(u) == u;
  }

  lemma {:induction false} UnsignedDigits(ip: string)
    requires AllDigits(ip) && ip != []
    ensures UnsignedPrefix(ip) == Some(DigitsValue(ip) as real)
  {
    LeadingDigitsAll(ip);
    assert ip[..|ip|] == ip;
    assert ip[|ip|..] == [];
    assert DecimalValue(ip, []) == DigitsValue(ip) as real;
  }

  lemma {:induction false} ParseFloatDigits(ip: string)
    requires AllDigits(ip) && ip != []
    ensures ParseFloat(ip) == Some(DigitsValue(ip) as real)
  {
    ParseFloatUnsigned(ip);
    UnsignedDigits(ip);
  }

  lemma {:induction false} UnsignedDecimal(ip: string, fp: string)
    requires AllDigits(ip) && AllDigits(fp) && |ip| + |fp| > 0
    ensures UnsignedPrefix(ip + "." + fp) == Some(DecimalValue(ip, fp))
  {
    var s := ip + "." + fp;
    var tail := "." + fp;
    assert s == ip + tail;
    LeadingDigitsAppend(ip, tail);
    assert LeadingDigits(tail) == 0;
    var n := LeadingDigits(s);
    assert n == |ip|;
    assert s[..n] == ip;
    assert s[n..] == tail;
    assert tail[1..] == fp;
    LeadingDigitsAll(fp);
    assert fp[..|fp|] == fp;
  }

  lemma {:induction false} ParseFloatDecimal(ip: string, fp: string)
    requires AllDigits(ip) && AllDigits(fp) && |ip| + |fp| > 0
    ensures ParseFloat(ip + "." + fp) == Some(DecimalValue(ip, fp))
  {
    var s := ip + "." + fp;
    assert s[0] == (if ip != [] then ip[0] else '.');
    ParseFloatUnsigned(s);
    UnsignedDecimal(ip, fp);
  }

  lemma {:induction false} ParseFloatNoDigit(s: string)
    requires forall i :: 0 <= i < |s| ==> !IsDigit(s[i])
    ensures ParseFloat(s) == None
  {
    var t := TrimStart(s);
    NoDigitAfter(s, |s| - |t|);
    if t != [] && (t[0] == '-' || t[0] == '+') {
      NoDigitAfter(t, 1);
      NoDigitPrefix(t[1..]);
    } else {
      NoDigitPrefix(t);
    }
  }

  /** A suffix of a text without digits has none either. */
  lemma NoDigitAfter(u: string, k: nat)
    requires k <= |u|
    requires forall i :: 0 <= i < |u| ==> !IsDigit(u[i])
    ensures forall i :: 0 <= i < |u[k..]| ==> !IsDigit(u[k..][i])
  {
    forall i | 0 <= i < |u[k..]| ensures !IsDigit(u[k..][i]) {
      assert u[k..][i] == u[k + i];
    }
  }

  lemma NoDigitPrefix(u: string)
    requires forall i :: 0 <= i < |u| ==> !IsDigit(u[i])
    ensures UnsignedPrefix(u) == None
  {
    assert LeadingDigits(u) == 0;
    if u != [] && u[0] == '.' {
      assert u[1..] == [] || !IsDigit(u[1..][0]);
    }
  }

  // ---------------------------------------------------------------------
  // Number to text and text to number

  function DigitChar(d: nat): (c: char)
    requires d <= 9
    ensures IsDigit(c) && DigitValue(c) == d
  {
    ('0' as int + d) as char
  }

  /** The decimal digits of a natural number. */
  function NatText(n: nat): (r: string)
    ensures r != [] && AllDigits(r)
    decreases n
  {
    if n < 10 then [DigitChar(n)] else NatText(n / 10) + [DigitChar(n % 10)]
  }

  /** Reading the digits back gives the number. */
  lemma {:induction false} NatTextValue(n: nat)
    ensures DigitsValue(NatText(n)) == n
    decreases n
  {
    var t := NatText(n);
    DigitsValueLast(t);
    if n >= 10 {
      NatTextValue(n / 10);
      assert t[..|t| - 1] == NatText(n / 10);
    } else {
      assert t[..|t| - 1] == [];
    }
  }

  /** The digits after the point of a fraction, at most `fuel` of them. */
  function FracText(f: real, fuel: nat): (r: string)
    requires 0.0 <= f < 1.0
    ensures AllDigits(r)
    decreases fuel
  {
    if fuel == 0 || f == 0.0 then []
    else
      var d := (f * 10.0).Floor;
      [DigitChar(d)] + FracText(f * 10.0 - d as real, fuel - 1)
  }

  function UnsignedText(x: real): string
    requires x >= 0.0
  {
    var whole := x.Floor;
    var frac := x - whole as real;
    NatText(whole) + (if frac == 0.0 then [] else "." + FracText(frac, 20))
  }

  /** `String(x)` for a number: its decimal expansion. */
  function NumberText(x: real): string {
    if x < 0.0 then "-" + UnsignedText(-x) else UnsignedText(x)
  }

  /** `String(n)` of a natural number reads back as the same number. */
  lemma ParseFloatNumberText(n: nat)
    ensures ParseFloat(NumberText(n as real)) == Some(n as real)
  {
    assert NumberText(n as real) == NatText(n);
    ParseFloatDigits(NatText(n));
    NatTextValue(n);
  }

  /** `String(v)` */
  function JsString(v: JsValue): string {
    match v
    case JUndefined => "undefined"
    case JNull => "null"
    case JNum(n) => NumberText(n)
    case JStr(s) => s
  }

  /** The whole text is a decimal literal: digits with at most one point and
      at least one digit. */
  predicate IsDecimalLiteral(u: string) {
    var n := LeadingDigits(u);
    var rest := u[n..];
    (rest == [] && n > 0) ||
    (rest != [] && rest[0] == '.' && AllDigits(rest[1..]) && (n > 0 || |rest| > 1))
  }

  /** `Number(s)` for text: white space around an optionally signed decimal
      literal; the empty text is 0; anything else is NaN. */
  function StrictNumber(s: string): (r: Option<real>)
    ensures Trim(s) == [] ==> r == Some(0.0)
    ensures Trim(s) != [] && r.Some? ==> r == ParseFloat(Trim(s))
  {
    var t := Trim(s);
    if t == [] then Some(0.0)
    else
      var u := if t[0] == '-' || t[0] == '+' then t[1..] else t;
      if IsDecimalLiteral(u) then ParseFloat(t) else None
  }

  /** `Number(v)` */
  function JsToNumber(v: JsValue): (r: Option<real>)
    ensures v.JNum? ==> r == Some(v.n)
    ensures v == JNull ==> r == Some(0.0)
    ensures v == JUndefined ==> r == None
    ensures v.JStr? ==> r == StrictNumber(v.s)
  {
    match v
    case JUndefined => None
    case JNull => Some(0.0)
    case JNum(n) => Some(n)
    case JStr(s) => StrictNumber(s)
  }
}
