/**
 The canonical decimal printer of `agent_gateway/static_agent_transport.py`: fixed-point notation with
 trailing zeros stripped.  Two representations get one string exactly when they are the same number.
 */
module CanonicalDecimal {
  import opened ExecutionEvents

  /** (-1)^negative * coeff * 10^exp, as the decimal type stores it. */
  datatype Decimal = Finite(negative: bool, coeff: nat, exp: int) | NotFinite

  function Pow10(n: nat): (r: nat)
    ensures r > 0
  {
    if n == 0 then 1 else 10 * Pow10(n - 1)
  }

  // ---------------------------------------------------------------------------------------------
  // Printing
  // ---------------------------------------------------------------------------------------------

  function DigitChar(d: nat): (c: char)
    requires d < 10
    ensures '0' <= c <= '9'
  {
    ('0' as int + d) as char
  }

  predicate AllDigits(s: string) {
    forall c :: c in s ==> '0' <= c <= '9'
  }

  /** Without leading zeros, except that zero is "0". */
  function Digits(n: nat): (s: string)
    ensures s != [] && AllDigits(s)
  {
    if n < 10 then [DigitChar(n)] else Digits(n / 10) + [DigitChar(n % 10)]
  }

  function Zeros(n: nat): (s: string)
    ensures |s| == n && AllDigits(s) && forall i :: 0 <= i < n ==> s[i] == '0'
  {
    seq(n, _ => '0')
  }

  /** At least one digit before `places` digits. */
  function Padded(c: nat, places: nat): (s: string)
    ensures |s| > places && AllDigits(s)
  {
    var ds := Digits(c);
    if |ds| <= places then Zeros(places - |ds| + 1) + ds else ds
  }

  /** `format(value, "f")` of a non-negative finite decimal. */
  function FixedPoint(c: nat, e: int): string {
    if e >= 0 then (if c == 0 then "0" else Digits(c) + Zeros(e))
    else
      var ds := Padded(c, -e);
      ds[..|ds| + e] + "." + ds[|ds| + e..]
  }

  /** `rstrip` of one character. */
  function StripRight(s: string, ch: char): string {
    if s != [] && s[|s| - 1] == ch then StripRight(s[..|s| - 1], ch) else s
  }

  function CanonicalDigits(c: nat, e: int): string {
    var rendered := FixedPoint(c, e);
    var stripped := if '.' in rendered then StripRight(StripRight(rendered, '0'), '.') else rendered;
    if stripped == "" then "0" else stripped
  }

  /** `None` where the source raises. */
  function CanonicalDecimal(d: Decimal): Option<string> {
    if d.NotFinite? then None
    else Some((if d.negative then "-" else "") + CanonicalDigits(d.coeff, d.exp))
  }

  // ---------------------------------------------------------------------------------------------
  // Parsing and numbers
  // ---------------------------------------------------------------------------------------------

  function DigitValue(c: char): nat {
    if '0' <= c <= '9' then c as int - '0' as int else 0
  }

  function ParseDigits(s: string): nat {
    if s == [] then 0 else 10 * ParseDigits(s[..|s| - 1]) + DigitValue(s[|s| - 1])
  }

  /** Where the point stands, or the end. */
  function PointIn(s: string): (i: nat)
    ensures i <= |s| && (i < |s| ==> s[i] == '.') && forall k :: 0 <= k < i ==> s[k] != '.'
  {
    if s == [] || s[0] == '.' then 0 else 1 + PointIn(s[1..])
  }

  function ParseMagnitude(s: string): (nat, int) {
    var i := PointIn(s);
    if i == |s| then (ParseDigits(s), 0) else (ParseDigits(s[..i] + s[i + 1..]), -(|s| - i - 1))
  }

  function Parse(s: string): Decimal {
    if s != [] && s[0] == '-' then
      var (c, e) := ParseMagnitude(s[1..]);
      Finite(true, c, e)
    else
      var (c, e) := ParseMagnitude(s);
      Finite(false, c, e)
  }

  /** c * 10^e == c' * 10^e'. */
  predicate SameMagnitude(c: nat, e: int, c': nat, e': int) {
    if e <= e' then c == c' * Pow10(e' - e) else c' == c * Pow10(e - e')
  }

  /** The same number, where a negative zero is told from a positive one. */
  predicate SameNumber(a: Decimal, b: Decimal) {
    a.Finite? && b.Finite? && a.negative == b.negative && SameMagnitude(a.coeff, a.exp, b.coeff, b.exp)
  }

  // ---------------------------------------------------------------------------------------------
  // The normal form
  // ---------------------------------------------------------------------------------------------

  /** No positive exponent, and no trailing zero behind the point. */
  function Normal(c: nat, e: int): (nat, int)
    decreases if e < 0 then -e else 0
  {
    if c == 0 then (0, 0)
    else if e >= 0 then (c * Pow10(e), 0)
    else if c % 10 == 0 then Normal(c / 10, e + 1)
    else (c, e)
  }

  predicate IsNormal(c: nat, e: int) {
    e <= 0 && (e < 0 ==> c % 10 != 0)
  }

  lemma {:induction false} PowAdds(a: nat, b: nat)
    ensures Pow10(a + b) == Pow10(a) * Pow10(b)
  {
    if a == 0 {
    } else {
      PowAdds(a - 1, b);
      assert Pow10(a + b) == 10 * Pow10(a - 1 + b);
      assert 10 * (Pow10(a - 1) * Pow10(b)) == (10 * Pow10(a - 1)) * Pow10(b);
    }
  }

  lemma {:induction false} NormalIsNormal(c: nat, e: int)
    ensures var (c', e') := Normal(c, e);
            IsNormal(c', e') && e' >= (if e < 0 then e else 0) && SameMagnitude(c, e, c', e')
    decreases if e < 0 then -e else 0
  {
    if c != 0 && e < 0 && c % 10 == 0 {
      NormalIsNormal(c / 10, e + 1);
      var (c', e') := Normal(c / 10, e + 1);
      assert e + 1 <= e';
      assert c / 10 == c' * Pow10(e' - (e + 1));
      assert Pow10(e' - e) == 10 * Pow10(e' - e - 1);
      assert c == 10 * (c / 10) == 10 * (c' * Pow10(e' - e - 1)) == c' * (10 * Pow10(e' - e - 1));
    }
  }

  lemma MultipleOfTen(c: nat, k: nat)
    requires k > 0
    ensures (c * Pow10(k)) % 10 == 0
  {
    assert c * Pow10(k) == 10 * (c * Pow10(k - 1));
  }

  /** Equal magnitudes have the same normal form. */
  lemma NormalFormIsUnique(c: nat, e: int, c': nat, e': int)
    requires IsNormal(c, e) && IsNormal(c', e') && SameMagnitude(c, e, c', e')
    ensures c == c' && e == e'
  {
    if e < e' {
      MultipleOfTen(c', e' - e);
    } else if e' < e {
      MultipleOfTen(c, e - e');
    }
  }

  /** Being the same magnitude is comparing after scaling both to any common, smaller exponent. */
  lemma SameMagnitudeScaled(c: nat, e: int, c': nat, e': int, low: int)
    requires low <= e && low <= e'
    ensures SameMagnitude(c, e, c', e') <==> c * Pow10(e - low) == c' * Pow10(e' - low)
  {
    if e <= e' {
      ScaleUp(c, c', e' - e, e - low);
    } else {
      ScaleUp(c', c, e - e', e' - low);
    }
  }

  lemma ScaleUp(c: nat, c': nat, gap: nat, k: nat)
    ensures c == c' * Pow10(gap) <==> c * Pow10(k) == c' * Pow10(gap + k)
  {
    PowAdds(gap, k);
    assert c' * (Pow10(gap) * Pow10(k)) == (c' * Pow10(gap)) * Pow10(k);
    Cancel(c, c' * Pow10(gap), Pow10(k));
  }

  lemma Cancel(a: nat, b: nat, k: nat)
    requires k > 0
    ensures a == b <==> a * k == b * k
  {
    assert (a - b) * k == a * k - b * k;
    if a * k == b * k {
      ZeroFactor(a - b, k);
    }
  }

  lemma ZeroFactor(x: int, k: int)
    requires x * k == 0 && k > 0
    ensures x == 0
  {
  }

  lemma NormalsAgreeExactlyWhenSame(c: nat, e: int, c': nat, e': int)
    ensures Normal(c, e) == Normal(c', e') <==> SameMagnitude(c, e, c', e')
  {
    var (n, x) := Normal(c, e);
    var (n', x') := Normal(c', e');
    NormalIsNormal(c, e);
    NormalIsNormal(c', e');
    var low := if e <= e' then e else e';
    var lowest := if low <= 0 then low else 0;
    SameMagnitudeScaled(c, e, n, x, lowest);
    SameMagnitudeScaled(c', e', n', x', lowest);
    SameMagnitudeScaled(c, e, c', e', lowest);
    SameMagnitudeScaled(n, x, n', x', lowest);
    if SameMagnitude(n, x, n', x') {
      NormalFormIsUnique(n, x, n', x');
    }
  }

  // ---------------------------------------------------------------------------------------------
  // Printing sees only the normal form
  // ---------------------------------------------------------------------------------------------

  lemma TenTimesPower(c: nat, n: nat)
    requires c > 0 && n > 0
    ensures c * Pow10(n) == 10 * (c * Pow10(n - 1)) && c * Pow10(n - 1) > 0
  {
  }

  lemma {:induction false} DigitsShift(c: nat, n: nat)
    requires c > 0
    ensures Digits(c) + Zeros(n) == Digits(c * Pow10(n))
    decreases n
  {
    hide Digits;
    if n == 0 {
      assert Digits(c) + Zeros(0) == Digits(c);
    } else {
      DigitsShift(c, n - 1);
      TenTimesPower(c, n);
      TenTimes(c * Pow10(n - 1));
      assert Digits(c) + Zeros(n) == (Digits(c) + Zeros(n - 1)) + "0";
    }
  }

  lemma TenTimes(m: nat)
    requires m > 0
    ensures Digits(10 * m) == Digits(m) + "0"
  {
    assert (10 * m) / 10 == m && (10 * m) % 10 == 0;
    assert [DigitChar(0)] == "0";
  }

  lemma StripOne(s: string)
    ensures StripRight(s + "0", '0') == StripRight(s, '0')
  {
    assert (s + "0")[..|s|] == s;
  }

  /** One zero more behind the point. */
  lemma PaddedTimesTen(c: nat, n: nat)
    requires c > 0
    ensures Padded(10 * c, n + 1) == Padded(c, n) + "0"
  {
    TenTimes(c);
    var ds := Digits(c);
    if |ds| <= n {
      assert Zeros(n - |ds| + 1) + ds + "0" == Zeros(n - |ds| + 1) + (ds + "0");
    }
  }

  lemma {:induction false} StripPoint(s: string)
    requires AllDigits(s) && s != []
    ensures StripRight(StripRight(s + "." + "0", '0'), '.') == s
  {
    StripOne(s + ".");
    assert s + "." + "0" == (s + ".") + "0";
    assert (s + ".")[..|s|] == s;
    assert s[|s| - 1] in s;
  }

  /** The digits of a number below one, or with a fraction, around the point. */
  lemma PointBefore(c: nat, n: nat)
    requires n > 0
    ensures var ds := Padded(c, n);
            FixedPoint(c, 0 - n) == ds[..|ds| - n] + "." + ds[|ds| - n..] && '.' in FixedPoint(c, 0 - n)
  {
    var ds := Padded(c, n);
    assert (ds[..|ds| - n] + "." + ds[|ds| - n..])[|ds| - n] == '.';
  }

  lemma PlainDigits(c: nat)
    ensures FixedPoint(c, 0) == Digits(c) && '.' !in Digits(c) && CanonicalDigits(c, 0) == Digits(c)
  {
    assert Digits(c) + Zeros(0) == Digits(c);
  }

  /** `10 * m` with one more place is `m` with one more zero at the end. */
  lemma OneMorePlace(m: nat, n: nat)
    requires m > 0
    ensures var ds := Padded(m, n);
            FixedPoint(10 * m, 0 - (n + 1)) == ds[..|ds| - n] + "." + ds[|ds| - n..] + "0"
  {
    var ds := Padded(m, n);
    PaddedTimesTen(m, n);
    PointBefore(10 * m, n + 1);
    var longer := ds + "0";
    assert longer[..|longer| - (n + 1)] == ds[..|ds| - n];
    assert longer[|longer| - (n + 1)..] == ds[|ds| - n..] + "0";
    assert ds[..|ds| - n] + "." + (ds[|ds| - n..] + "0") == ds[..|ds| - n] + "." + ds[|ds| - n..] + "0";
  }

  lemma DropTrailingZero(m: nat, n: nat)
    requires m > 0
    ensures CanonicalDigits(10 * m, 0 - (n + 1)) == CanonicalDigits(m, 0 - n)
  {
    hide FixedPoint, StripRight;
    OneMorePlace(m, n);
    PointBefore(10 * m, n + 1);
    var ds := Padded(m, n);
    if n == 0 {
      PlainDigits(m);
      assert ds == Digits(m);
      assert ds[..|ds|] == ds && ds[|ds|..] == [] && ds + "." + [] + "0" == ds + "." + "0";
      StripPoint(ds);
    } else {
      PointBefore(m, n);
      StripOne(FixedPoint(m, 0 - n));
    }
  }

  lemma {:induction false} StripZeros(n: nat)
    ensures StripRight("0." + Zeros(n), '0') == "0."
  {
    if n == 0 {
      assert "0." + Zeros(0) == "0.";
    } else {
      StripZeros(n - 1);
      assert "0." + Zeros(n) == ("0." + Zeros(n - 1)) + "0";
      StripOne("0." + Zeros(n - 1));
    }
  }

  lemma ZeroIsZero(e: int)
    ensures CanonicalDigits(0, e) == "0"
  {
    if e < 0 {
      var n := -e;
      var ds := Padded(0, n);
      assert Digits(0) == "0";
      assert ds == Zeros(n) + "0" == Zeros(n + 1);
      assert ds[..1] == "0" && ds[1..] == Zeros(n);
      assert FixedPoint(0, e) == "0" + "." + Zeros(n) == "0." + Zeros(n);
      assert '.' in "0." + Zeros(n) by { assert ("0." + Zeros(n))[1] == '.'; }
      StripZeros(n);
      assert "0."[..1] == "0";
    }
  }

  lemma ShiftedDigits(c: nat, e: nat)
    requires c > 0
    ensures CanonicalDigits(c, e) == CanonicalDigits(c * Pow10(e), 0)
  {
    var m := c * Pow10(e);
    DigitsShift(c, e);
    if m == 0 { ZeroFactor(c, Pow10(e)); }
    PlainDigits(m);
    assert FixedPoint(c, e) == Digits(m);
  }

  lemma {:induction false} PrintsItsNormalForm(c: nat, e: int)
    ensures CanonicalDigits(c, e) == CanonicalDigits(Normal(c, e).0, Normal(c, e).1)
    decreases if e < 0 then -e else 0
  {
    hide CanonicalDigits;
    if c == 0 {
      ZeroIsZero(e);
      ZeroIsZero(0);
    } else if e >= 0 {
      ShiftedDigits(c, e);
    } else if c % 10 == 0 {
      DropTrailingZero(c / 10, -e - 1);
      PrintsItsNormalForm(c / 10, e + 1);
    }
  }

  // ---------------------------------------------------------------------------------------------
  // Parsing what was printed
  // ---------------------------------------------------------------------------------------------

  lemma {:induction false} ParseOfDigits(n: nat)
    ensures ParseDigits(Digits(n)) == n
  {
    if n < 10 {
      assert [DigitChar(n)][..0] == [];
    } else {
      ParseOfDigits(n / 10);
      assert (Digits(n / 10) + [DigitChar(n % 10)])[..|Digits(n / 10)|] == Digits(n / 10);
    }
  }

  lemma {:induction false} LeadingZeros(k: nat, s: string)
    ensures ParseDigits(Zeros(k) + s) == ParseDigits(s)
    decreases k + |s|
  {
    if s == [] {
      assert Zeros(k) + s == Zeros(k);
      if k > 0 {
        assert Zeros(k)[..k - 1] == Zeros(k - 1);
        LeadingZeros(k - 1, []);
        assert Zeros(k - 1) + [] == Zeros(k - 1);
      }
    } else {
      LeadingZeros(k, s[..|s| - 1]);
      assert (Zeros(k) + s)[..k + |s| - 1] == Zeros(k) + s[..|s| - 1];
    }
  }

  lemma {:induction false} PointAfterDigits(s: string, rest: string)
    requires AllDigits(s) && (rest == [] || rest[0] == '.')
    ensures PointIn(s + rest) == |s|
  {
    if s == [] {
      assert s + rest == rest;
    } else {
      assert s[0] in s && forall c :: c in s[1..] ==> c in s;
      assert (s + rest)[1..] == s[1..] + rest;
      PointAfterDigits(s[1..], rest);
    }
  }

  lemma ParsePadded(c: nat, n: nat)
    ensures ParseDigits(Padded(c, n)) == c
    ensures Padded(c, n)[|Padded(c, n)| - 1] == DigitChar(c % 10)
  {
    ParseOfDigits(c);
    if |Digits(c)| <= n {
      LeadingZeros(n - |Digits(c)| + 1, Digits(c));
    }
  }

  /** Nothing is stripped from a normal fraction. */
  lemma NormalFractionIsPrintedWhole(c: nat, n: nat)
    requires n > 0 && c % 10 != 0
    ensures var ds := Padded(c, n);
            CanonicalDigits(c, 0 - n) == ds[..|ds| - n] + "." + ds[|ds| - n..]
  {
    var ds, r := Padded(c, n), FixedPoint(c, 0 - n);
    PointBefore(c, n);
    ParsePadded(c, n);
    assert r[|r| - 1] == ds[|ds| - 1] == DigitChar(c % 10) != '0';
    assert ds[|ds| - 1] in ds;
  }

  /** What a reader of `whole.fraction` sees. */
  lemma ParseAroundPoint(whole: string, fraction: string)
    requires AllDigits(whole)
    ensures ParseMagnitude(whole + "." + fraction) == (ParseDigits(whole + fraction), -|fraction|)
  {
    var r := whole + "." + fraction;
    PointAfterDigits(whole, "." + fraction);
    assert whole + ("." + fraction) == r;
    assert r[..|whole|] + r[|whole| + 1..] == whole + fraction;
  }

  lemma ParseOfPlain(ds: string)
    requires AllDigits(ds)
    ensures ParseMagnitude(ds) == (ParseDigits(ds), 0)
  {
    PointAfterDigits(ds, []);
    assert ds + [] == ds;
  }

  lemma StartsWithADigit(ds: string, rest: string)
    requires ds != [] && AllDigits(ds)
    ensures (ds + rest)[0] != '-'
  {
    assert ds[0] in ds;
  }

  lemma ParseOfFraction(c: nat, n: nat)
    requires n > 0 && c % 10 != 0
    ensures ParseMagnitude(CanonicalDigits(c, 0 - n)) == (c, 0 - n)
    ensures CanonicalDigits(c, 0 - n) != [] && CanonicalDigits(c, 0 - n)[0] != '-'
  {
    hide CanonicalDigits, Padded, ParseMagnitude, ParseDigits;
    var ds := Padded(c, n);
    var whole, fraction := ds[..|ds| - n], ds[|ds| - n..];
    assert forall x :: x in whole ==> x in ds;
    NormalFractionIsPrintedWhole(c, n);
    ParsePadded(c, n);
    assert whole + fraction == ds;
    ParseAroundPoint(whole, fraction);
    StartsWithADigit(whole, "." + fraction);
  }

  lemma ParseOfNormal(c: nat, e: int)
    requires IsNormal(c, e)
    ensures ParseMagnitude(CanonicalDigits(c, e)) == (c, e)
    ensures CanonicalDigits(c, e) != [] && CanonicalDigits(c, e)[0] != '-'
  {
    hide CanonicalDigits, ParseMagnitude, Digits;
    if e == 0 {
      PlainDigits(c);
      ParseOfDigits(c);
      ParseOfPlain(Digits(c));
      StartsWithADigit(Digits(c), []);
    } else {
      ParseOfFraction(c, -e);
    }
  }

  // ---------------------------------------------------------------------------------------------
  // Main results
  // ---------------------------------------------------------------------------------------------

  /** Parsing the printed string returns the number, in normal form. */
  lemma ParseReturnsTheNumber(d: Decimal)
    requires d.Finite?
    ensures CanonicalDecimal(d).Some?
    ensures var back := Parse(CanonicalDecimal(d).value);
            SameNumber(d, back) && back == Finite(d.negative, Normal(d.coeff, d.exp).0, Normal(d.coeff, d.exp).1)
  {
    hide CanonicalDigits, ParseMagnitude, Normal, SameMagnitude;
    var (c, e) := Normal(d.coeff, d.exp);
    NormalIsNormal(d.coeff, d.exp);
    PrintsItsNormalForm(d.coeff, d.exp);
    ParseOfNormal(c, e);
    var s := CanonicalDigits(c, e);
    assert ("-" + s)[1..] == s && "" + s == s;
  }

  /** Two finite decimals print alike exactly when they are the same number; only the sign of zero is
      kept apart. */
  lemma SameStringExactlyWhenSameNumber(a: Decimal, b: Decimal)
    requires a.Finite? && b.Finite?
    ensures CanonicalDecimal(a) == CanonicalDecimal(b) <==> SameNumber(a, b)
  {
    NormalsAgreeExactlyWhenSame(a.coeff, a.exp, b.coeff, b.exp);
    PrintsItsNormalForm(a.coeff, a.exp);
    PrintsItsNormalForm(b.coeff, b.exp);
    ParseReturnsTheNumber(a);
    ParseReturnsTheNumber(b);
  }
}
