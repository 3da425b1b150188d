/** The conversion of a cleaned response line to a capacitance value
    (numpy's `astype(float)`), restricted to plain decimal notation and
    computed exactly on reals: an optional sign, digits, and at most one
    decimal point with at least one digit somewhere. */
module Decimal {
  import opened Text
  import opened Outcomes

  /** The value of the digits after a decimal point: the first digit counts
      tenths, the next hundredths, and so on. */
  function FractionValue(f: string): (v: real)
    requires AllDigits(f)
    ensures 0.0 <= v <= 1.0
  {
    if f == [] then 0.0 else (DigitValue(f[0]) as real + FractionValue(f[1..])) / 10.0
  }

  /** The value of an unsigned literal `digits`, `digits.digits`, `.digits` or `digits.`. */
  function ParseUnsigned(u: string): Option<real> {
    var k := DigitPrefix(u);
    ParseParts(u[..k], u[k..])
  }

  /** The value of the whole digits `whole` followed by the text `rest`,
      which must be empty or a point and fraction digits. */
  function ParseParts(whole: string, rest: string): Option<real>
    requires AllDigits(whole)
  {
    if rest == [] then
      if whole != [] then Some(DigitsValue(whole) as real) else None
    else if rest[0] == '.' && AllDigits(rest[1..]) && (whole != [] || |rest| > 1) then
      Some(DigitsValue(whole) as real + FractionValue(rest[1..]))
    else
      None
  }

  predicate IsSign(c: char) { c == '-' || c == '+' }

  /** The text after an optional leading sign. */
  function Unsigned(s: string): string {
    if |s| > 0 && IsSign(s[0]) then s[1..] else s
  }

  /** The number a cleaned line denotes, or None when the conversion would raise. */
  function ParseDecimal(s: string): Option<real> {
    match ParseUnsigned(Unsigned(s))
    case None => None
    case Some(v) => Some(if |s| > 0 && s[0] == '-' then -v else v)
  }

  /** The accepted texts, described without reference to the parser: after
      the sign, only digits and dots, at most one dot, at least one digit. */
  ghost predicate IsDecimalText(s: string) {
    var u := Unsigned(s);
    && (forall i :: 0 <= i < |u| ==> IsDigit(u[i]) || u[i] == '.')
    && (forall i, j :: 0 <= i < j < |u| && u[i] == '.' ==> u[j] != '.')
    && (exists i :: 0 <= i < |u| && IsDigit(u[i]))
  }

  /** The parser accepts exactly the decimal texts. */
  lemma ParseDecimalAccepts(s: string)
    ensures ParseDecimal(s).Some? <==> IsDecimalText(s)
  {
    var u := Unsigned(s);
    var k := DigitPrefix(u);
    var rest := u[k..];
    assert forall i :: 0 <= i < k ==> IsDigit(u[i]) by {
      assert forall i :: 0 <= i < k ==> u[i] == u[..k][i];
    }
    assert forall i :: 0 <= i < |rest| ==> rest[i] == u[k + i];
    if ParseUnsigned(u).Some? {
      if rest == [] {
        assert IsDigit(u[0]);
      } else {
        assert forall i :: k < i < |u| ==> IsDigit(u[i]) by {
          forall i | k < i < |u| ensures IsDigit(u[i]) {
            assert u[i] == rest[1..][i - k - 1];
          }
        }
        if k > 0 {
          assert IsDigit(u[0]);
        } else {
          assert IsDigit(rest[1..][0]);
          assert IsDigit(u[1]);
        }
      }
    }
    if IsDecimalText(s) {
      var w :| 0 <= w < |u| && IsDigit(u[w]);
      if rest != [] {
        assert u[k] == '.';
        forall i | 0 <= i < |rest[1..]| ensures IsDigit(rest[1..][i]) {
          assert rest[1..][i] == u[k + 1 + i];
        }
        if k == 0 {
          assert w > 0;
          assert |rest| > 1;
        }
      } else {
        assert k > 0;
      }
    }
  }

  /** Whatever `str()` prints for an integer reads back as that integer. */
  lemma ParseDecimalOfInt(n: int)
    ensures ParseDecimal(IntToString(n)) == Some(n as real)
  {
    var m := if n < 0 then -n else n;
    var d := NatToString(m);
    assert Unsigned(IntToString(n)) == d by {
      if n < 0 {
        assert IntToString(n) == "-" + d;
      } else {
        assert !IsSign(d[0]);
      }
    }
    DigitPrefixOfRun(d, []);
    assert d + [] == d && d[..|d|] == d;
  }

  /** Whole digits, a point and fraction digits, without a sign. */
  lemma ParseDecimalOfParts(s: string, d: string, f: string)
    requires AllDigits(d) && |d| > 0 && AllDigits(f)
    requires s == d + ("." + f)
    ensures ParseDecimal(s) == Some(DigitsValue(d) as real + FractionValue(f))
  {
    assert s[0] == d[0];
    ParseDecimalUnsigned(s);
    ParseUnsignedOfFraction(d, f);
  }

  /** A text that starts with a digit has no sign. */
  lemma ParseDecimalUnsigned(s: string)
    requires |s| > 0 && IsDigit(s[0])
    ensures ParseDecimal(s) == ParseUnsigned(s)
  {
  }

  lemma ParseUnsignedOfFraction(d: string, f: string)
    requires AllDigits(d) && |d| > 0 && AllDigits(f)
    ensures ParseUnsigned(d + ("." + f)) == Some(DigitsValue(d) as real + FractionValue(f))
  {
    var tail := "." + f;
    assert tail[0] == '.' && tail[1..] == f;
    ParseUnsignedSplit(d, tail);
    assert ParseParts(d, tail) == Some(DigitsValue(d) as real + FractionValue(f));
  }

  /** The whole digits of an unsigned literal are its leading digit run. */
  lemma ParseUnsignedSplit(d: string, rest: string)
    requires AllDigits(d)
    requires rest == [] || !IsDigit(rest[0])
    ensures ParseUnsigned(d + rest) == ParseParts(d, rest)
  {
    var s := d + rest;
    DigitPrefixOfRun(d, rest);
    assert s[..|d|] == d;
    assert s[|d|..] == rest;
  }

  /** A leading minus negates the unsigned value and a leading plus keeps it. */
  lemma ParseDecimalSigned(t: string, v: real)
    requires ParseUnsigned(t) == Some(v)
    ensures ParseDecimal("-" + t) == Some(-v)
    ensures ParseDecimal("+" + t) == Some(v)
  {
    assert ("-" + t)[1..] == t;
    assert ("+" + t)[1..] == t;
  }

  /** A negative answer such as `-0.12` reads as -0.12. */
  lemma NegativeExample()
    ensures ParseDecimal("-0.12") == Some(-0.12)
  {
    var d, f := [DigitChar(0)], [DigitChar(1), DigitChar(2)];
    assert f[1..] == [DigitChar(2)] && f[1..][1..] == [];
    assert FractionValue(f) == 0.12;
    assert DigitsValue(d) == 0;
    ParseUnsignedOfFraction(d, f);
    ParseDecimalSigned(d + ("." + f), 0.12);
    assert "-" + (d + ("." + f)) == "-0.12";
  }

  /** An answer with a plus sign such as `+1.5` reads as 1.5. */
  lemma PlusExample()
    ensures ParseDecimal("+1.5") == Some(1.5)
  {
    var d, f := [DigitChar(1)], [DigitChar(5)];
    assert f[1..] == [];
    assert FractionValue(f) == 0.5;
    assert DigitsValue(d) == 1;
    ParseUnsignedOfFraction(d, f);
    ParseDecimalSigned(d + ("." + f), 1.5);
    assert "+" + (d + ("." + f)) == "+1.5";
  }

  /** A line as the board sends it, `1.23`, reads as 1.23. */
  lemma ParseExample()
    ensures ParseDecimal("1.23") == Some(1.23)
    ensures ParseDecimal("4.56") == Some(4.56)
    ensures ParseDecimal("7.89") == Some(7.89)
  {
    FractionExample(1, '2', '3');
    FractionExample(4, '5', '6');
    FractionExample(7, '8', '9');
  }

  lemma FractionExample(w: nat, a: char, b: char)
    requires w < 10 && IsDigit(a) && IsDigit(b)
    ensures ParseDecimal([DigitChar(w), '.', a, b])
      == Some(w as real + (10 * DigitValue(a) + DigitValue(b)) as real / 100.0)
  {
    var f := [a, b];
    assert f[1..] == [b] && [b][1..] == [];
    var x := DigitValue(a) as real;
    var y := DigitValue(b) as real;
    assert FractionValue([b]) == y / 10.0;
    assert FractionValue(f) == (x + y / 10.0) / 10.0;
    assert (x + y / 10.0) / 10.0 == (10.0 * x + y) / 100.0;
    assert (10 * DigitValue(a) + DigitValue(b)) as real == 10.0 * x + y;
    var d := [DigitChar(w)];
    assert DigitsValue(d) == w;
    ParseDecimalOfParts([DigitChar(w), '.', a, b], d, f);
  }
}
