/**
 * The amount token of a transaction. The bot converts it with Python's
 * `float()` and writes it back with an f-string; this model keeps the
 * number exact, as a decimal `units / 10^scale`, and writes it back in
 * plain decimal notation.
 */
module Amounts {
  import opened Wrappers
  import opened Text

  predicate IsDigit(c: char)
  {
    '0' <= c <= '9'
  }

  predicate AllDigits(s: string)
  {
    forall i :: 0 <= i < |s| ==> IsDigit(s[i])
  }

  function DigitValue(c: char): (v: nat)
    requires IsDigit(c)
    ensures v < 10
  {
    c as int - '0' as int
  }

  function DigitChar(d: nat): (c: char)
    requires d < 10
    ensures IsDigit(c) && DigitValue(c) == d
  {
    ('0' as int + d) as char
  }

  /** The number written by a string of decimal digits (most significant first). */
  function NatOf(s: string): nat
    requires AllDigits(s)
  {
    if s == [] then 0 else 10 * NatOf(s[..|s| - 1]) + DigitValue(s[|s| - 1])
  }

  /** The shortest decimal digits of `n`. */
  function DigitsOf(n: nat): (s: string)
    ensures s != [] && AllDigits(s)
  {
    if n < 10 then [DigitChar(n)] else DigitsOf(n / 10) + [DigitChar(n % 10)]
  }

  lemma {:induction false} NatOfDigitsOf(n: nat)
    ensures NatOf(DigitsOf(n)) == n
  {
    if n >= 10 {
      var s := DigitsOf(n);
      assert s[..|s| - 1] == DigitsOf(n / 10);
      NatOfDigitsOf(n / 10);
    }
  }

  function Zeros(k: nat): (s: string)
    ensures |s| == k && AllDigits(s)
  {
    if k == 0 then [] else Zeros(k - 1) + "0"
  }

  lemma {:induction false} NatOfZeros(k: nat)
    ensures NatOf(Zeros(k)) == 0
  {
    if k > 0 {
      assert Zeros(k)[..k - 1] == Zeros(k - 1);
      NatOfZeros(k - 1);
    }
  }

  /** Leading zeros do not change the number a digit string writes. */
  lemma {:induction false} NatOfLeadingZeros(k: nat, s: string)
    requires AllDigits(s)
    ensures AllDigits(Zeros(k) + s) && NatOf(Zeros(k) + s) == NatOf(s)
  {
    var z := Zeros(k) + s;
    if s == [] {
      assert z == Zeros(k);
      NatOfZeros(k);
    } else {
      assert z[..|z| - 1] == Zeros(k) + s[..|s| - 1];
      NatOfLeadingZeros(k, s[..|s| - 1]);
    }
  }

  /** The digits of `n`, left-padded with zeros to at least `width` characters. */
  function Padded(n: nat, width: nat): (s: string)
    ensures |s| >= width && |s| >= 1 && AllDigits(s)
    ensures NatOf(s) == n
  {
    var d := DigitsOf(n);
    NatOfDigitsOf(n);
    if |d| >= width then d
    else
      NatOfLeadingZeros(width - |d|, d);
      Zeros(width - |d|) + d
  }

  function Pow10(k: nat): (p: nat)
    ensures p >= 1
  {
    if k == 0 then 1 else 10 * Pow10(k - 1)
  }

  /** An exact decimal number: `units / 10^scale`. */
  datatype Decimal = Decimal(units: int, scale: nat)

  function Value(d: Decimal): real
  {
    d.units as real / Pow10(d.scale) as real
  }

  function Abs(x: int): nat
  {
    if x < 0 then -x else x
  }

  /**
   * An unsigned amount as written into a record: the integer digits and,
   * when the scale is positive, a `.` and exactly `scale` fraction digits.
   */
  function FormatUnsigned(n: nat, scale: nat): (s: string)
    ensures s != [] && IsDigit(s[0])
  {
    var p := Padded(n, scale + 1);
    var k := |p| - scale;
    p[..k] + (if scale == 0 then "" else "." + p[k..])
  }

  /** The amount as written into a record: an optional `-`, then the unsigned numeral. */
  function FormatAmount(d: Decimal): (s: string)
    ensures s != [] && (s[0] == '-' <==> d.units < 0)
  {
    (if d.units < 0 then "-" else "") + FormatUnsigned(Abs(d.units), d.scale)
  }

  /** Index of the first `.` in `s`, if any. */
  function FindDot(s: string): (r: Option<nat>)
    ensures r.None? ==> forall i :: 0 <= i < |s| ==> s[i] != '.'
    ensures r.Some? ==> r.value < |s| && s[r.value] == '.' && forall i :: 0 <= i < r.value ==> s[i] != '.'
  {
    if s == [] then None
    else if s[0] == '.' then Some(0)
    else match FindDot(s[1..])
      case None => None
      case Some(i) => Some(i + 1)
  }

  /** An unsigned decimal numeral: `ddd`, `ddd.ddd`, `ddd.` or `.ddd`, with at least one digit. */
  function ParseUnsigned(s: string): (r: Option<Decimal>)
    ensures r.Some? ==> r.value.units >= 0
  {
    match FindDot(s)
    case None =>
      if s != [] && AllDigits(s) then Some(Decimal(NatOf(s), 0)) else None
    case Some(i) =>
      var whole, frac := s[..i], s[i + 1..];
      if |whole| + |frac| > 0 && AllDigits(whole) && AllDigits(frac) then
        Some(Decimal(NatOf(whole + frac), |frac|))
      else None
  }

  /**
   * The amount token, as `float()` reads a plain decimal numeral: an
   * optional sign, then an unsigned numeral.
   */
  function ParseAmount(s: string): (r: Option<Decimal>)
    ensures r.Some? ==> s != []
    ensures r.Some? && s[0] == '-' ==> r.value.units <= 0
    ensures r.Some? && s[0] != '-' ==> r.value.units >= 0
  {
    if s != [] && (s[0] == '-' || s[0] == '+') then
      match ParseUnsigned(s[1..])
      case None => None
      case Some(d) => Some(if s[0] == '-' then Decimal(-d.units, d.scale) else d)
    else ParseUnsigned(s)
  }

  lemma UnsignedRoundTrip(n: nat, scale: nat)
    ensures ParseUnsigned(FormatUnsigned(n, scale)) == Some(Decimal(n, scale))
  {
    if scale == 0 {
      WholeRoundTrip(n);
    } else {
      FractionRoundTrip(n, scale);
    }
  }

  lemma WholeRoundTrip(n: nat)
    ensures ParseUnsigned(FormatUnsigned(n, 0)) == Some(Decimal(n, 0))
  {
    var p := Padded(n, 1);
    assert FormatUnsigned(n, 0) == p;
    ParseWhole(p);
  }

  /** Digits alone read as a whole number. */
  lemma ParseWhole(w: string)
    requires AllDigits(w) && w != []
    ensures ParseUnsigned(w) == Some(Decimal(NatOf(w), 0))
  {
    assert FindDot(w) == None;
  }

  lemma FractionRoundTrip(n: nat, scale: nat)
    requires scale > 0
    ensures ParseUnsigned(FormatUnsigned(n, scale)) == Some(Decimal(n, scale))
  {
    var p := Padded(n, scale + 1);
    var k := |p| - scale;
    var whole, frac := p[..k], p[k..];
    assert FormatUnsigned(n, scale) == whole + "." + frac;
    DigitsSplit(p, k);
    ParseWithDot(whole, frac);
  }

  lemma DigitsSplit(p: string, k: nat)
    requires AllDigits(p) && k <= |p|
    ensures AllDigits(p[..k]) && AllDigits(p[k..]) && p[..k] + p[k..] == p
  {
    assert forall i :: 0 <= i < |p| - k ==> p[k..][i] == p[k + i];
  }

  /** Digits, a dot and digits read as the digits without the dot, scaled by the fraction length. */
  lemma ParseWithDot(w: string, f: string)
    requires AllDigits(w) && AllDigits(f) && |w| + |f| > 0
    ensures AllDigits(w + f)
    ensures ParseUnsigned(w + "." + f) == Some(Decimal(NatOf(w + f), |f|))
  {
    var s := w + "." + f;
    FindDotAfterDigits(w, f);
    assert s[..|w|] == w && s[|w| + 1..] == f;
  }

  /** The sign an amount token may start with: none, `+` or `-`. */
  datatype Sign = NoSign | Plus | Minus

  function SignText(sg: Sign): string
  {
    match sg
    case NoSign => ""
    case Plus => "+"
    case Minus => "-"
  }

  function Signed(sg: Sign, n: int): int
  {
    if sg == Minus then -n else n
  }

  /** The sign `s` starts with. */
  function SignOf(s: string): (sg: Sign)
    ensures |SignText(sg)| <= |s| && s[..|SignText(sg)|] == SignText(sg)
  {
    if s != [] && s[0] == '-' then Minus
    else if s != [] && s[0] == '+' then Plus
    else NoSign
  }

  /** A sign in front of a numeral that starts with a digit or a dot applies to the numeral's value. */
  lemma ParseWithSign(sg: Sign, body: string, d: Decimal)
    requires body != [] && (IsDigit(body[0]) || body[0] == '.')
    requires ParseUnsigned(body) == Some(d)
    ensures ParseAmount(SignText(sg) + body) == Some(Decimal(Signed(sg, d.units), d.scale))
  {
    var s := SignText(sg) + body;
    if sg == NoSign {
      assert s == body;
    } else {
      assert s[0] == SignText(sg)[0] && s[1..] == body;
    }
  }

  /**
   * Every plain decimal spelling is an amount: an optional sign, digits, and
   * optionally a dot and more digits, with at least one digit in all. It
   * reads as the digits without the dot, negated after a `-`, scaled by the
   * number of digits after the dot (`+5`, `.5`, `007` and `-1.25` included).
   */
  lemma AmountSpellings(sg: Sign, w: string, f: string)
    requires AllDigits(w) && AllDigits(f)
    ensures |w| + |f| > 0 ==>
      && AllDigits(w + f)
      && ParseAmount(SignText(sg) + (w + "." + f)) == Some(Decimal(Signed(sg, NatOf(w + f)), |f|))
    ensures w != [] ==> ParseAmount(SignText(sg) + w) == Some(Decimal(Signed(sg, NatOf(w)), 0))
  {
    if |w| + |f| > 0 {
      DottedSpelling(sg, w, f);
    }
    if w != [] {
      ParseWhole(w);
      ParseWithSign(sg, w, Decimal(NatOf(w), 0));
    }
  }

  lemma DottedSpelling(sg: Sign, w: string, f: string)
    requires AllDigits(w) && AllDigits(f) && |w| + |f| > 0
    ensures AllDigits(w + f)
    ensures ParseAmount(SignText(sg) + (w + "." + f)) == Some(Decimal(Signed(sg, NatOf(w + f)), |f|))
  {
    var body := w + "." + f;
    ParseWithDot(w, f);
    DottedStart(w, f);
    ParseWithSign(sg, body, Decimal(NatOf(w + f), |f|));
  }

  lemma DottedStart(w: string, f: string)
    requires AllDigits(w)
    ensures var body := w + "." + f; body != [] && (IsDigit(body[0]) || body[0] == '.')
  {
    var body := w + "." + f;
    if w != [] {
      assert body[0] == w[0];
    } else {
      assert body[0] == '.';
    }
  }

  /** An accepted amount is its sign followed by an accepted unsigned numeral, whose value the sign applies to. */
  lemma ParseAmountUnsigned(s: string)
    requires ParseAmount(s).Some?
    ensures var sg := SignOf(s);
      var body := s[|SignText(sg)|..];
      && ParseUnsigned(body).Some?
      && ParseAmount(s).value == Decimal(Signed(sg, ParseUnsigned(body).value.units), ParseUnsigned(body).value.scale)
  {
    if SignOf(s) == NoSign {
      assert s[0..] == s;
    }
  }

  /** Every accepted unsigned numeral is digits alone, or digits, one dot and digits with at least one digit in all. */
  lemma UnsignedShapes(body: string)
    requires ParseUnsigned(body).Some?
    ensures
      || (body != [] && AllDigits(body) && ParseUnsigned(body).value == Decimal(NatOf(body), 0))
      || exists i :: 0 <= i < |body| && body[i] == '.' && |body| > 1
           && AllDigits(body[..i]) && AllDigits(body[i + 1..]) && AllDigits(body[..i] + body[i + 1..])
           && ParseUnsigned(body).value == Decimal(NatOf(body[..i] + body[i + 1..]), |body| - i - 1)
  {
  }

  /**
   * Every accepted amount has one of the spellings `AmountSpellings` lists:
   * after an optional sign, either digits alone, or digits, one dot and
   * digits with at least one digit in all; and it reads as that lemma says.
   */
  lemma AmountShapes(s: string)
    requires ParseAmount(s).Some?
    ensures var sg := SignOf(s);
      var body := s[|SignText(sg)|..];
      || (body != [] && AllDigits(body) && ParseAmount(s).value == Decimal(Signed(sg, NatOf(body)), 0))
      || exists i :: 0 <= i < |body| && body[i] == '.' && |body| > 1
           && AllDigits(body[..i]) && AllDigits(body[i + 1..]) && AllDigits(body[..i] + body[i + 1..])
           && ParseAmount(s).value == Decimal(Signed(sg, NatOf(body[..i] + body[i + 1..])), |body| - i - 1)
  {
    ParseAmountUnsigned(s);
    UnsignedShapes(s[|SignText(SignOf(s))|..]);
  }

  /** Reading back a written amount gives the same number, at the same scale. */
  lemma AmountRoundTrip(d: Decimal)
    ensures ParseAmount(FormatAmount(d)) == Some(d)
  {
    var body := FormatUnsigned(Abs(d.units), d.scale);
    UnsignedRoundTrip(Abs(d.units), d.scale);
    SignedRoundTrip(d, body);
    assert FormatAmount(d) == (if d.units < 0 then "-" else "") + body;
  }

  lemma SignedRoundTrip(d: Decimal, body: string)
    requires body != [] && IsDigit(body[0])
    requires ParseUnsigned(body) == Some(Decimal(Abs(d.units), d.scale))
    ensures ParseAmount((if d.units < 0 then "-" else "") + body) == Some(d)
  {
    var sg := if d.units < 0 then Minus else NoSign;
    ParseWithSign(sg, body, Decimal(Abs(d.units), d.scale));
    assert (if d.units < 0 then "-" else "") == SignText(sg);
  }

  lemma {:induction false} FindDotAfterDigits(w: string, f: string)
    requires AllDigits(w)
    ensures FindDot(w + "." + f) == Some(|w|)
  {
    if w != [] {
      assert (w + "." + f)[1..] == w[1..] + "." + f;
      FindDotAfterDigits(w[1..], f);
    }
  }

  lemma DigitsNoSpace(s: string)
    requires AllDigits(s)
    ensures NoSpace(s)
  {
  }

  lemma ConcatNoSpace(a: string, b: string)
    requires NoSpace(a) && NoSpace(b)
    ensures NoSpace(a + b)
  {
    assert forall i :: 0 <= i < |a + b| ==> (a + b)[i] == if i < |a| then a[i] else b[i - |a|];
  }

  /** A written amount is a single token, so it survives whitespace splitting. */
  lemma FormatAmountIsToken(d: Decimal)
    ensures IsToken(FormatAmount(d))
  {
    var scale := d.scale;
    var p := Padded(Abs(d.units), scale + 1);
    var k := |p| - scale;
    DigitsNoSpace(p);
    var whole, frac := p[..k], p[k..];
    assert NoSpace(whole) && NoSpace(frac);
    var tail: string := if scale == 0 then "" else "." + frac;
    if scale != 0 {
      ConcatNoSpace(".", frac);
    }
    ConcatNoSpace(whole, tail);
    var body := FormatUnsigned(Abs(d.units), scale);
    assert body == whole + tail;
    var sign: string := if d.units < 0 then "-" else "";
    ConcatNoSpace(sign, body);
    assert FormatAmount(d) == sign + body;
  }
}
