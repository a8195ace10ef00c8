/** Python's `float()` over decimal text, and the two ways the generators turn
    a sampled number back into text: `f"{v:.2f}"` and `str(round(v, 2))`.
    Numbers are exact reals; the rounding to hundredths is round-half-up on
    the exact value. */
module PyFloat {
  import opened PyText

  function Pow10(k: nat): (p: nat)
    ensures p >= 1
  {
    if k == 0 then 1 else 10 * Pow10(k - 1)
  }

  function Abs(v: real): real { if v < 0.0 then -v else v }

  /** The number written `whole` "." `frac`. */
  function DecimalValue(whole: string, frac: string): (v: real)
    requires AllDigits(whole) && AllDigits(frac)
    ensures v >= 0.0
  {
    DigitsValue(whole) as real + DigitsValue(frac) as real / Pow10(|frac|) as real
  }

  // ---------------------------------------------------------------------
  // float() on unsigned and signed decimal text
  // ---------------------------------------------------------------------

  /** An unsigned decimal: digits, or digits "." digits with at least one
      digit on some side ("5", "5.", ".5", "0.05"). */
  predicate IsUnsignedDecimal(s: string)
  {
    (s != [] && AllDigits(s)) ||
    exists k :: 0 <= k < |s| && s[k] == '.' && |s| >= 2 && AllDigits(s[..k]) && AllDigits(s[k + 1..])
  }

  /** A decimal with an optional leading '+' or '-'. */
  predicate IsDecimal(s: string)
  {
    IsUnsignedDecimal(s) || (|s| >= 1 && (s[0] == '+' || s[0] == '-') && IsUnsignedDecimal(s[1..]))
  }

  /** float() of text without a sign: the text is split at '.', and there must
      be one or two digit pieces. */
  function ParseUnsigned(s: string): (r: Option<real>)
    ensures r.Some? ==> r.value >= 0.0
  {
    var parts := Split(s, '.');
    if |parts| == 1 then
      if parts[0] != [] && AllDigits(parts[0]) then Some(DigitsValue(parts[0]) as real) else None
    else if |parts| == 2 && AllDigits(parts[0]) && AllDigits(parts[1]) && |parts[0]| + |parts[1]| >= 1 then
      Some(DecimalValue(parts[0], parts[1]))
    else
      None
  }

  /** Python's `float(s)` on the decimal forms: an optional sign, then an
      unsigned decimal; anything else raises (here: `None`). */
  function ParseDecimal(s: string): (r: Option<real>)
    ensures r.Some? && (s == [] || s[0] != '-') ==> r.value >= 0.0
  {
    if s != [] && (s[0] == '+' || s[0] == '-') then
      match ParseUnsigned(s[1..])
      case None => None
      case Some(x) => Some(if s[0] == '-' then -x else x)
    else
      ParseUnsigned(s)
  }

  /** ParseUnsigned accepts exactly the unsigned decimal grammar. */
  lemma ParseUnsignedAccepts(s: string)
    ensures ParseUnsigned(s).Some? <==> IsUnsignedDecimal(s)
  {
    if ParseUnsigned(s).Some? {
      ParseUnsignedSound(s);
    }
    if IsUnsignedDecimal(s) {
      ParseUnsignedComplete(s);
    }
  }

  lemma ParseUnsignedSound(s: string)
    requires ParseUnsigned(s).Some?
    ensures IsUnsignedDecimal(s)
  {
    var parts := Split(s, '.');
    JoinSplit(s, '.');
    if |parts| == 2 {
      var k := |parts[0]|;
      assert s == parts[0] + ['.'] + parts[1];
      assert s[k] == '.' && s[..k] == parts[0] && s[k + 1..] == parts[1];
    }
  }

  lemma ParseUnsignedComplete(s: string)
    requires IsUnsignedDecimal(s)
    ensures ParseUnsigned(s).Some?
  {
    if s != [] && AllDigits(s) {
      DigitsFree(s, '.');
      SplitWithoutSeparator(s, '.');
    } else {
      var k :| 0 <= k < |s| && s[k] == '.' && |s| >= 2 && AllDigits(s[..k]) && AllDigits(s[k + 1..]);
      DigitsFree(s[..k], '.');
      DigitsFree(s[k + 1..], '.');
      assert s == s[..k] + ['.'] + s[k + 1..];
      SplitPair(s[..k], '.', s[k + 1..]);
    }
  }

  /** ParseDecimal accepts exactly the signed decimal grammar. */
  lemma ParseDecimalAccepts(s: string)
    ensures ParseDecimal(s).Some? <==> IsDecimal(s)
  {
    ParseUnsignedAccepts(s);
    if s != [] {
      ParseUnsignedAccepts(s[1..]);
      if s[0] == '+' || s[0] == '-' {
        assert !IsUnsignedDecimal(s) by {
          assert !IsDigit(s[0]);
        }
      }
    }
  }

  /** Text that float() accepts holds only digits and '.', apart from a sign
      in front; in particular no '-' after the first character and no colon. */
  lemma DecimalCharacters(s: string)
    requires ParseDecimal(s).Some?
    ensures forall i :: 0 < i < |s| ==> IsDigit(s[i]) || s[i] == '.'
    ensures |s| >= 1 && (IsDigit(s[0]) || s[0] == '.' || s[0] == '+' || s[0] == '-')
  {
    ParseDecimalAccepts(s);
    if IsUnsignedDecimal(s) {
      UnsignedCharacters(s);
    } else {
      UnsignedCharacters(s[1..]);
      forall i | 0 < i < |s| ensures IsDigit(s[i]) || s[i] == '.' {
        assert s[i] == s[1..][i - 1];
      }
    }
  }

  lemma UnsignedCharacters(s: string)
    requires IsUnsignedDecimal(s)
    ensures |s| >= 1 && forall i :: 0 <= i < |s| ==> IsDigit(s[i]) || s[i] == '.'
  {
    if !(s != [] && AllDigits(s)) {
      var k :| 0 <= k < |s| && s[k] == '.' && |s| >= 2 && AllDigits(s[..k]) && AllDigits(s[k + 1..]);
      forall i | 0 <= i < |s| ensures IsDigit(s[i]) || s[i] == '.' {
        if i < k { assert s[i] == s[..k][i]; }
        else if i > k { assert s[i] == s[k + 1..][i - k - 1]; }
      }
    }
  }

  /** float("W.F") for digit strings W and F is the decimal W.F. */
  lemma ParseWholeDotFrac(whole: string, frac: string)
    requires AllDigits(whole) && AllDigits(frac) && |whole| + |frac| >= 1
    ensures ParseDecimal(whole + "." + frac) == Some(DecimalValue(whole, frac))
  {
    DigitsFree(whole, '.');
    DigitsFree(frac, '.');
    SplitPair(whole, '.', frac);
    var s := whole + "." + frac;
    if |whole| >= 1 {
      assert s[0] == whole[0];
    } else {
      assert s[0] == '.';
    }
  }

  /** float(str(n)) == n. */
  lemma ParseNatText(n: nat)
    ensures ParseDecimal(NatText(n)) == Some(n as real)
  {
    var s := NatText(n);
    DigitsFree(s, '.');
    SplitWithoutSeparator(s, '.');
    NatTextValue(n);
  }

  // ---------------------------------------------------------------------
  // Rounding to hundredths and the two text forms
  // ---------------------------------------------------------------------

  /** round(m, 2) expressed in hundredths, for m >= 0 (half-up on the exact
      value); it is within half a hundredth of m. */
  function Hundredths(m: real): (n: nat)
    requires m >= 0.0
    ensures -0.005 <= (n as real) / 100.0 - m <= 0.005
  {
    (m * 100.0 + 0.5).Floor
  }

  function TwoDigits(k: nat): (s: string)
    requires k < 100
    ensures |s| == 2 && AllDigits(s) && DigitsValue(s) == k
  {
    var s := [DigitChar(k / 10), DigitChar(k % 10)];
    assert s[..1] == [DigitChar(k / 10)] && s[..1][..0] == [];
    assert DigitsValue(s[..1]) == k / 10;
    assert DigitsValue(s) == (k / 10) * 10 + k % 10;
    s
  }

  function SignText(v: real): string { if v < 0.0 then "-" else "" }

  /** The number a rounded value stands for, with the sign of v. */
  function Rounded(v: real): real
  {
    var r := (Hundredths(Abs(v)) as real) / 100.0;
    if v < 0.0 then -r else r
  }

  /** Python's `f"{v:.2f}"`: the rounded magnitude with exactly two decimals,
      "-" in front of a negative v. */
  function Fixed2(v: real): string
  {
    var n := Hundredths(Abs(v));
    SignText(v) + NatText(n / 100) + "." + TwoDigits(n % 100)
  }

  /** Python's `str(round(v, 2))` for values below 1e16: the rounded
      magnitude with its trailing zero decimals dropped, but at least one
      decimal ("130.0", "4.5", "0.06"). */
  function Repr2(v: real): string
  {
    var n := Hundredths(Abs(v));
    SignText(v) + NatText(n / 100) + "." + FracText(n % 100)
  }

  function FracText(f: nat): (s: string)
    requires f < 100
    ensures |s| >= 1 && AllDigits(s)
  {
    if f == 0 then "0" else if f % 10 == 0 then [DigitChar(f / 10)] else TwoDigits(f)
  }

  lemma FracTextValue(f: nat)
    requires f < 100
    ensures DigitsValue(FracText(f)) as real / Pow10(|FracText(f)|) as real == f as real / 100.0
  {
    if f == 0 {
    } else if f % 10 == 0 {
      var s := FracText(f);
      assert s[..0] == [];
      assert DigitsValue(s) == f / 10;
      assert f == 10 * (f / 10);
    } else {
      assert Pow10(2) == 100;
    }
  }

  lemma WholeAndHundredths(n: nat)
    ensures (n / 100) as real + (n % 100) as real / 100.0 == n as real / 100.0
  {
    assert n == 100 * (n / 100) + n % 100;
    assert n as real == 100.0 * ((n / 100) as real) + (n % 100) as real;
  }

  /** Reading back a sign, whole part and fraction text. */
  lemma ParseSigned(v: real, whole: string, frac: string)
    requires AllDigits(whole) && AllDigits(frac) && |whole| >= 1
    ensures ParseDecimal(SignText(v) + whole + "." + frac)
      == Some(if v < 0.0 then -DecimalValue(whole, frac) else DecimalValue(whole, frac))
  {
    ParseWholeDotFrac(whole, frac);
    var u := whole + "." + frac;
    if v < 0.0 {
      var s := "-" + whole + "." + frac;
      assert s[1..] == u;
      assert !IsDigit('-');
      assert s[0] == '-';
      assert ParseDecimal(u) == ParseUnsigned(u) by { assert u[0] == whole[0]; }
    } else {
      assert SignText(v) + whole + "." + frac == u;
    }
  }

  lemma TwoDigitsDenote(n: nat)
    ensures DecimalValue(NatText(n / 100), TwoDigits(n % 100)) == n as real / 100.0
  {
    NatTextValue(n / 100);
    assert Pow10(2) == 100;
    WholeAndHundredths(n);
  }

  lemma FracTextDenotes(n: nat)
    ensures DecimalValue(NatText(n / 100), FracText(n % 100)) == n as real / 100.0
  {
    NatTextValue(n / 100);
    FracTextValue(n % 100);
    WholeAndHundredths(n);
  }

  lemma RoundedClose(v: real)
    ensures -0.005 <= Rounded(v) - v <= 0.005
  {
  }

  /** The .2f text reads back as the rounded value, within 0.005 of v. */
  lemma Fixed2RoundTrip(v: real)
    ensures ParseDecimal(Fixed2(v)) == Some(Rounded(v))
    ensures -0.005 <= Rounded(v) - v <= 0.005
  {
    var n := Hundredths(Abs(v));
    ParseSigned(v, NatText(n / 100), TwoDigits(n % 100));
    TwoDigitsDenote(n);
    RoundedClose(v);
  }

  /** The str() text reads back as the same rounded value. */
  lemma Repr2RoundTrip(v: real)
    ensures ParseDecimal(Repr2(v)) == Some(Rounded(v))
    ensures ParseDecimal(Repr2(v)) == ParseDecimal(Fixed2(v))
  {
    var n := Hundredths(Abs(v));
    var whole, frac := NatText(n / 100), FracText(n % 100);
    ParseSigned(v, whole, frac);
    FracTextDenotes(n);
    assert Repr2(v) == SignText(v) + whole + "." + frac;
    assert DecimalValue(whole, frac) == n as real / 100.0;
    assert Rounded(v) == if v < 0.0 then -DecimalValue(whole, frac) else DecimalValue(whole, frac);
    Fixed2RoundTrip(v);
  }

  // ---------------------------------------------------------------------
  // Numeric literals of the one-column catalog
  // ---------------------------------------------------------------------

  /** A non-negative Python number literal as written in a catalog: an int
      (`130`) or a float with at most two decimals (`4.3`, `0.06`), kept as
      its number of hundredths. */
  datatype PyNum = PyInt(n: nat) | PyFloat(cents: nat)

  /** The literal's value in hundredths. */
  function NumCents(x: PyNum): nat
  {
    match x
    case PyInt(n) => 100 * n
    case PyFloat(c) => c
  }

  function NumValue(x: PyNum): (v: real)
    ensures v == NumCents(x) as real / 100.0
  {
    match x
    case PyInt(n) => n as real
    case PyFloat(c) => c as real / 100.0
  }

  /** `str(x)`: the digits of an int; for a float its shortest repr, the
      whole part, '.', and the decimals without trailing zeros (at least
      one). */
  function NumText(x: PyNum): (s: string)
    ensures |s| >= 1 && forall i :: 0 <= i < |s| ==> IsDigit(s[i]) || s[i] == '.'
  {
    match x
    case PyInt(n) => NatText(n)
    case PyFloat(c) => NatText(c / 100) + "." + FracText(c % 100)
  }

  /** float(str(x)) is x's value. */
  lemma NumTextParses(x: PyNum)
    ensures ParseDecimal(NumText(x)) == Some(NumValue(x))
  {
    match x
    case PyInt(n) => ParseNatText(n);
    case PyFloat(c) =>
      ParseWholeDotFrac(NatText(c / 100), FracText(c % 100));
      FracTextDenotes(c);
  }
}
