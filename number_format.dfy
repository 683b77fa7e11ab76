/**
  Numeric text in generated URScript (ur_script.py `f_to_s`, `list_to_array`).
  A `real` stands for the exact value of the Python float being formatted.
 */
module NumberFormat {
  import opened Text
  import opened Results

  /** `'{0:.5f}'` prints five digits after the decimal point. */
  const Places: nat := 5
  const Scale: nat := 100000

  function Abs(x: real): real {
    if x < 0.0 then -x else x
  }

  function Pow10(k: nat): (p: nat)
    ensures p > 0
  {
    if k == 0 then 1 else 10 * Pow10(k - 1)
  }

  lemma ScaleIsPow10()
    ensures Pow10(Places) == Scale
  {
    assert Pow10(1) == 10;
    assert Pow10(3) == 1000;
  }

  /** The integer nearest to `x`, a tie going to the even neighbour (how Python rounds an exact tie). */
  function RoundHalfEven(x: real): nat
    requires x >= 0.0
  {
    var f := x.Floor;
    var frac := x - f as real;
    if frac < 0.5 then f
    else if frac > 0.5 then f + 1
    else if f % 2 == 0 then f
    else f + 1
  }

  /** The rounded value is within half a unit of `x`, and an exact tie lands on an even integer. */
  lemma RoundHalfEvenNearest(x: real)
    requires x >= 0.0
    ensures var m := RoundHalfEven(x);
            (m as real) - 0.5 <= x <= (m as real) + 0.5 &&
            (x == (m as real) - 0.5 || x == (m as real) + 0.5 ==> m % 2 == 0)
  {
  }

  lemma DigitIsVisible(c: char)
    requires IsDigit(c)
    ensures !IsSpace(c) && c != ',' && c != '.' && c != '-'
  {
  }

  lemma {:induction false} NatToStringLength(n: nat, k: nat)
    requires k > 0 && n < Pow10(k)
    ensures |NatToString(n)| <= k
    decreases n
  {
    if n >= 10 {
      assert k > 1;
      assert n / 10 < Pow10(k - 1);
      NatToStringLength(n / 10, k - 1);
    }
  }

  /** The five fractional digits of a scaled value `f < 10^5`, zero-padded on the left. */
  function Fraction(f: nat): string
    requires f < Scale
  {
    var d := NatToString(f);
    ScaleIsPow10();
    NatToStringLength(f, Places);
    Repeat('0', Places - |d|) + d
  }

  /** The fraction is exactly five digits and reads back as `f`. */
  lemma FractionFacts(f: nat)
    requires f < Scale
    ensures var r := Fraction(f);
            |r| == Places && AllDigits(r) && DigitsValue(r) == f
  {
    var d := NatToString(f);
    ScaleIsPow10();
    NatToStringLength(f, Places);
    LeadingZeros(Places - |d|, d);
    NatToStringRoundTrip(f);
  }

  /** `"-"` for a negative value, which Python prints even when the digits round to zero. */
  function SignText(v: real): string {
    if v < 0.0 then "-" else ""
  }

  /** Digits, a point and five digits: the magnitude part of `f_to_s`. */
  function Unsigned(m: nat): string {
    NatToString(m / Scale) + "." + Fraction(m % Scale)
  }

  /** Digits, then the point sixth from the end, then five digits. */
  lemma UnsignedFacts(m: nat)
    ensures var r := Unsigned(m);
            |r| >= 7 && AllDigits(r[..|r| - 6]) && r[|r| - 6] == '.' && AllDigits(r[|r| - 5..])
  {
    var r := Unsigned(m);
    FractionFacts(m % Scale);
    assert r[..|r| - 6] == NatToString(m / Scale);
    assert r[|r| - 5..] == Fraction(m % Scale);
  }

  /**
    `f_to_s(v)`: `v` with exactly five digits after the point, rounded to nearest with ties to even,
    and a leading `-` exactly when `v` is negative.
   */
  function FToS(v: real): (r: string)
    ensures |r| >= 7 && r[|r| - 6] == '.'
    ensures r[0] == '-' <==> v < 0.0
  {
    var m := RoundHalfEven(Abs(v) * Scale as real);
    UnsignedFacts(m);
    UnsignedFirst(m);
    SignText(v) + Unsigned(m)
  }

  /** The unsigned rendering uses only digits and the decimal point. */
  lemma UnsignedChars(m: nat)
    ensures var u := Unsigned(m);
            forall i :: 0 <= i < |u| ==> IsDigit(u[i]) || u[i] == '.'
  {
    var u := Unsigned(m);
    UnsignedFacts(m);
    forall i | 0 <= i < |u| ensures IsDigit(u[i]) || u[i] == '.' {
      if i < |u| - 6 {
        assert u[i] == u[..|u| - 6][i];
      } else if i > |u| - 6 {
        assert u[i] == u[|u| - 5..][i - (|u| - 5)];
      }
    }
  }

  /** Five digits after a point, a leading `-` exactly for a negative value, no whitespace and no comma. */
  lemma FToSFacts(v: real)
    ensures var r := FToS(v);
            |r| >= 7 && r[|r| - 6] == '.' && AllDigits(r[|r| - 5..]) &&
            (r[0] == '-' <==> v < 0.0) &&
            NoSpace(r) && ',' !in r
  {
    var u := Unsigned(RoundHalfEven(Abs(v) * Scale as real));
    var r := FToS(v);
    UnsignedFacts(RoundHalfEven(Abs(v) * Scale as real));
    UnsignedChars(RoundHalfEven(Abs(v) * Scale as real));
    forall i | 0 <= i < |r| ensures !IsSpace(r[i]) && r[i] != ',' {
      if i < |r| - |u| {
        assert r[i] == '-';
      } else {
        assert r[i] == u[i - (|r| - |u|)];
        if r[i] != '.' {
          DigitIsVisible(r[i]);
        }
      }
    }
    assert r[|r| - 5..] == u[|u| - 5..];
    assert u[0] != '-' by {
      if |u| > 6 {
        assert u[0] == u[..|u| - 6][0];
        DigitIsVisible(u[0]);
      }
    }
  }

  /** `float(s)` restricted to the shape `f_to_s` prints: an optional `-`, digits, `.`, digits. */
  function ParseFixed(s: string): Option<real> {
    if |s| > 0 && s[0] == '-' then
      match ParseUnsigned(s[1..])
      case Some(x) => Some(-x)
      case None => None
    else
      ParseUnsigned(s)
  }

  function ParseUnsigned(s: string): Option<real> {
    var i := IndexOf(s, '.');
    if 0 < i < |s| - 1 && AllDigits(s[..i]) && AllDigits(s[i + 1..]) then
      Some(DigitsValue(s[..i]) as real + DigitsValue(s[i + 1..]) as real / Pow10(|s| - i - 1) as real)
    else
      None
  }

  lemma UnsignedValue(m: nat)
    ensures ParseUnsigned(Unsigned(m)) == Some(m as real / Scale as real)
  {
    var q, f := m / Scale, m % Scale;
    var d := NatToString(q);
    var u := Unsigned(m);
    assert u == d + "." + Fraction(f);
    FractionFacts(f);
    assert forall j :: 0 <= j < |d| ==> d[j] != '.' by {
      forall j | 0 <= j < |d| ensures d[j] != '.' {
        DigitIsVisible(d[j]);
      }
    }
    IndexOfPiece(d, '.', Fraction(f));
    assert u[..|d|] == d;
    assert u[|d| + 1..] == Fraction(f);
    NatToStringRoundTrip(q);
    ScaleIsPow10();
    assert (q as real) + (f as real) / (Scale as real) == (m as real) / (Scale as real);
  }

  lemma SignedValue(v: real, u: string, y: real)
    requires |u| > 0 && u[0] != '-' && ParseUnsigned(u) == Some(y)
    ensures ParseFixed(SignText(v) + u) == Some(if v < 0.0 then -y else y)
  {
    if v < 0.0 {
      assert (SignText(v) + u)[1..] == u;
    } else {
      assert SignText(v) + u == u;
    }
  }

  /** The scaled magnitude, rounded, is within half a unit of `v` once signed and scaled back. */
  lemma RoundingError(v: real)
    ensures var m := RoundHalfEven(Abs(v) * Scale as real);
            var y := m as real / Scale as real;
            Abs((if v < 0.0 then -y else y) - v) <= 0.000005
  {
    var x := Abs(v) * Scale as real;
    RoundHalfEvenNearest(x);
  }

  /** When `v` has at most five decimals, rounding loses nothing. */
  lemma RoundingExact(v: real)
    requires (v * Scale as real).Floor as real == v * Scale as real
    ensures var y := RoundHalfEven(Abs(v) * Scale as real) as real / Scale as real;
            (if v < 0.0 then -y else y) == v
  {
    var k := v * Scale as real;
    var n := if v < 0.0 then -k.Floor else k.Floor;
    var x := Abs(v) * Scale as real;
    assert x == n as real;
    var m := RoundHalfEven(x);
    assert m == n;
  }

  lemma UnsignedFirst(m: nat)
    ensures Unsigned(m)[0] != '-'
  {
    var u := Unsigned(m);
    UnsignedFacts(m);
    if |u| > 6 {
      assert u[0] == u[..|u| - 6][0];
      DigitIsVisible(u[0]);
    }
  }

  /**
    Reading back what `f_to_s` printed gives a value within half a unit of the fifth decimal of `v`,
    and exactly `v` when `v` has at most five decimals.
   */
  lemma FToSRoundTrip(v: real)
    ensures ParseFixed(FToS(v)).Some?
    ensures Abs(ParseFixed(FToS(v)).value - v) <= 0.000005
    ensures (v * Scale as real).Floor as real == v * Scale as real ==> ParseFixed(FToS(v)).value == v
  {
    var m := RoundHalfEven(Abs(v) * Scale as real);
    UnsignedValue(m);
    UnsignedFirst(m);
    SignedValue(v, Unsigned(m), m as real / Scale as real);
    RoundingError(v);
    if (v * Scale as real).Floor as real == v * Scale as real {
      RoundingExact(v);
    }
  }

  /** The `f_to_s` image of every value, in order. */
  function Images(vals: seq<real>): seq<string> {
    seq(|vals|, k requires 0 <= k < |vals| => FToS(vals[k]))
  }

  /** The punctuation `f_to_s`, `list_to_array` and the statement builders print is not whitespace. */
  lemma PunctuationVisible()
    ensures !IsSpace('[') && !IsSpace(']') && !IsSpace(',') && !IsSpace('(') && !IsSpace(')')
  {
    PrintableVisible('[');
    PrintableVisible(']');
    PrintableVisible(',');
    PrintableVisible('(');
    PrintableVisible(')');
  }

  lemma {:induction false} JoinNoSpace(xs: seq<string>, sep: string)
    requires NoSpace(sep) && forall k :: 0 <= k < |xs| ==> NoSpace(xs[k])
    ensures NoSpace(Join(xs, sep))
    decreases |xs|
  {
    if |xs| > 1 {
      JoinNoSpace(xs[1..], sep);
      var j := Join(xs[1..], sep);
      assert Join(xs, sep) == xs[0] + sep + j;
      forall i | 0 <= i < |Join(xs, sep)| ensures !IsSpace(Join(xs, sep)[i]) {
        if i < |xs[0]| {
        } else if i < |xs[0]| + |sep| {
          assert Join(xs, sep)[i] == sep[i - |xs[0]|];
        } else {
          assert Join(xs, sep)[i] == j[i - |xs[0]| - |sep|];
        }
      }
    }
  }

  /** `list_to_array(vals)`: the `f_to_s` texts of the values, comma-separated, between brackets. */
  function ListToArray(vals: seq<real>): (r: string)
    ensures |r| >= 2 && r[0] == '[' && r[|r| - 1] == ']'
    ensures vals == [] ==> r == "[]"
  {
    "[" + Join(Images(vals), ",") + "]"
  }

  /** The array literal reads back as the input: the comma-separated items between the brackets are the `f_to_s` texts, in order. */
  lemma ListToArrayReadBack(vals: seq<real>)
    ensures var r := ListToArray(vals);
      vals != [] ==> SplitOn(r[1..|r| - 1], ',') == Images(vals)
  {
    var r := ListToArray(vals);
    ItemsReadBack(vals);
    assert r[1..|r| - 1] == Join(Images(vals), ",");
  }

  /** No `f_to_s` text holds a comma, so the comma-joined items split back into themselves. */
  lemma ItemsReadBack(vals: seq<real>)
    ensures vals != [] ==> SplitOn(Join(Images(vals), ","), ',') == Images(vals)
  {
    var images := Images(vals);
    if vals != [] {
      forall k | 0 <= k < |images| ensures ',' !in images[k] {
        FToSFacts(vals[k]);
      }
      SplitOnJoin(images, ',');
    }
  }

  /** The array literal is free of whitespace. */
  lemma ListToArrayFacts(vals: seq<real>)
    ensures NoSpace(ListToArray(vals))
  {
    var images := Images(vals);
    var body := Join(images, ",");
    PunctuationVisible();
    assert NoSpace(",");
    forall k | 0 <= k < |images| ensures NoSpace(images[k]) {
      FToSFacts(vals[k]);
    }
    JoinNoSpace(images, ",");
    var r := ListToArray(vals);
    forall i | 0 <= i < |r| ensures !IsSpace(r[i]) {
      if 0 < i < |r| - 1 {
        assert r[i] == body[i - 1];
      }
    }
  }


  /** Each item of the array literal parses to a value within 0.000005 of the value it came from. */
  lemma ListToArrayValues(vals: seq<real>)
    ensures forall k :: 0 <= k < |vals| ==>
      ParseFixed(Images(vals)[k]).Some? && Abs(ParseFixed(Images(vals)[k]).value - vals[k]) <= 0.000005
  {
    forall k | 0 <= k < |vals|
      ensures ParseFixed(Images(vals)[k]).Some? && Abs(ParseFixed(Images(vals)[k]).value - vals[k]) <= 0.000005
    {
      FToSRoundTrip(vals[k]);
    }
  }
}
