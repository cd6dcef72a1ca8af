/** The winter open-circuit voltage check: the rise of a panel's Voc in the
    cold, for the user's minimum temperature and for the fixed -25 °C that
    the page attributes to IEC 62548, multiplied up to a string and compared
    with the inverter's maximum input voltage. Inputs are read from text,
    with a comma accepted as the decimal separator. */
module WinterVoc {
  import opened JsNumbers

  /** The design temperature the page attributes to IEC 62548, °C. */
  const IecTemp: real := -25.0

  /** Standard test conditions, °C. */
  const StcTemp: real := 25.0

  // ---------------------------------------------------------------------
  // Reading a field: `parseInput`
  // ---------------------------------------------------------------------

  predicate IsDigit(c: char)
  {
    '0' <= c <= '9'
  }

  /** A run of decimal digits. */
  predicate AllDigits(s: string)
  {
    forall i :: 0 <= i < |s| ==> IsDigit(s[i])
  }

  /** The characters `[^\d.-]` does not remove. */
  predicate IsKept(c: char)
  {
    IsDigit(c) || c == '.' || c == '-'
  }

  /** `replace(/,/g, '.')`. */
  function ReplaceCommas(s: string): (r: string)
    ensures |r| == |s|
    ensures forall i :: 0 <= i < |s| ==> r[i] == (if s[i] == ',' then '.' else s[i])
  {
    if |s| == 0 then [] else ReplaceCommas(s[..|s| - 1]) + [if s[|s| - 1] == ',' then '.' else s[|s| - 1]]
  }

  /** `replace(/[^\d.-]/g, '')`: the kept characters, in order. */
  function Strip(s: string): (r: string)
    ensures |r| <= |s|
    ensures forall i :: 0 <= i < |r| ==> IsKept(r[i])
  {
    if |s| == 0 then []
    else Strip(s[..|s| - 1]) + (if IsKept(s[|s| - 1]) then [s[|s| - 1]] else [])
  }

  function Normalize(s: string): string
  {
    Strip(ReplaceCommas(s))
  }

  /** A normalised string has no comma and only digits, dots and minus
      signs, and normalising it again changes nothing. */
  lemma NormalizeSpec(s: string)
    ensures forall i :: 0 <= i < |Normalize(s)| ==> IsKept(Normalize(s)[i]) && Normalize(s)[i] != ','
    ensures Normalize(Normalize(s)) == Normalize(s)
  {
    var n := Normalize(s);
    NoCommaUnchanged(n);
    AllKeptUnchanged(n);
  }

  lemma {:induction false} NoCommaUnchanged(s: string)
    requires forall i :: 0 <= i < |s| ==> s[i] != ','
    ensures ReplaceCommas(s) == s
  {
  }

  lemma {:induction false} AllKeptUnchanged(s: string)
    requires forall i :: 0 <= i < |s| ==> IsKept(s[i])
    ensures Strip(s) == s
  {
    if |s| > 0 {
      AllKeptUnchanged(s[..|s| - 1]);
      assert s[..|s| - 1] + [s[|s| - 1]] == s;
    }
  }

  /** The filter works character by character: stripping a concatenation
      strips each part, and a single character survives exactly when it is
      kept. Together these fix `Strip` on every string: every kept character
      of the input survives, in order, and nothing else does. */
  lemma {:induction false} StripAppend(a: string, b: string)
    ensures Strip(a + b) == Strip(a) + Strip(b)
    decreases |b|
  {
    if |b| == 0 {
      assert a + b == a;
    } else {
      var b' := b[..|b| - 1];
      assert (a + b)[..|a + b| - 1] == a + b';
      assert (a + b)[|a + b| - 1] == b[|b| - 1];
      StripAppend(a, b');
    }
  }

  lemma StripChar(c: char)
    ensures Strip([c]) == if IsKept(c) then [c] else []
  {
    assert [c][..0] == [];
  }

  /** Replacing commas also works part by part. */
  lemma ReplaceCommasAppend(a: string, b: string)
    ensures ReplaceCommas(a + b) == ReplaceCommas(a) + ReplaceCommas(b)
  {
  }

  /** Text with no digit, dot, minus sign or comma in it (a unit, a space,
      a letter) disappears under normalisation. */
  lemma {:induction false} NoiseNormalizesAway(u: string)
    requires forall i :: 0 <= i < |u| ==> !IsKept(u[i]) && u[i] != ','
    ensures Normalize(u) == []
  {
    NoCommaUnchanged(u);
    if |u| > 0 {
      var init := u[..|u| - 1];
      NoiseNormalizesAway(init);
      NoCommaUnchanged(init);
      StripAppend(init, [u[|u| - 1]]);
      StripChar(u[|u| - 1]);
      assert init + [u[|u| - 1]] == u;
    }
  }

  /** The value of a run of decimal digits. */
  function DigitsValue(d: string): (v: nat)
    requires forall i :: 0 <= i < |d| ==> IsDigit(d[i])
  {
    if |d| == 0 then 0 else DigitsValue(d[..|d| - 1]) * 10 + DigitValue(d[|d| - 1])
  }

  function DigitValue(c: char): (v: nat)
    requires IsDigit(c)
    ensures v < 10
  {
    c as int - '0' as int
  }

  function Pow10(k: nat): (p: nat)
    ensures p >= 1
  {
    if k == 0 then 1 else 10 * Pow10(k - 1)
  }

  /** The end of the run of digits starting at `from`. */
  function DigitRun(s: string, from: nat): (k: nat)
    requires from <= |s|
    ensures from <= k <= |s|
    ensures forall i :: from <= i < k ==> IsDigit(s[i])
    ensures k < |s| ==> !IsDigit(s[k])
    decreases |s| - from
  {
    if from == |s| || !IsDigit(s[from]) then from else DigitRun(s, from + 1)
  }

  /** `parseFloat` on a normalised string: an optional minus sign, then the
      longest prefix of digits with at most one dot that holds at least one
      digit; None (NaN) when there is no such prefix. Exponents and
      `Infinity` cannot occur once the letters are stripped. */
  function ParseFloat(s: string): (r: Option<real>)
  {
    if |s| > 0 && s[0] == '-' then
      match ParseUnsigned(s, 1)
      case None => None
      case Some(x) => Some(-x)
    else ParseUnsigned(s, 0)
  }

  /** The unsigned decimal starting at `start`: integer digits, then
      optionally a dot and fraction digits. */
  function ParseUnsigned(s: string, start: nat): (r: Option<real>)
    requires start <= |s|
    ensures r.Some? ==> r.value >= 0.0
  {
    var intEnd := DigitRun(s, start);
    var frac := FractionDigits(s, intEnd);
    if intEnd == start && |frac| == 0 then None
    else Some(DigitsValue(s[start..intEnd]) as real + Fraction(frac))
  }

  /** The digits after a dot at `at`, or none when there is no dot there. */
  function FractionDigits(s: string, at: nat): (f: string)
    requires at <= |s|
    ensures forall i :: 0 <= i < |f| ==> IsDigit(f[i])
  {
    if at < |s| && s[at] == '.' then s[at + 1..DigitRun(s, at + 1)] else []
  }

  /** The value of the digits after the decimal point. */
  function Fraction(f: string): (x: real)
    requires forall i :: 0 <= i < |f| ==> IsDigit(f[i])
    ensures 0.0 <= x
  {
    if |f| == 0 then 0.0 else DigitsValue(f) as real / Pow10(|f|) as real
  }

  /** `parseInput`: 0 for an empty field and for text with no number in it,
      otherwise the number its normalised text starts with. */
  function ParseInput(val: string): (x: real)
    ensures val == "" ==> x == 0.0
    ensures ParseFloat(Normalize(val)).None? ==> x == 0.0
    ensures val != "" && ParseFloat(Normalize(val)).Some? ==> x == ParseFloat(Normalize(val)).value
  {
    if val == "" then 0.0
    else match ParseFloat(Normalize(val))
      case None => 0.0
      case Some(x) => x
  }

  /** Reading a field is insensitive to what normalisation throws away:
      the field reads the same as its own normal form. */
  lemma ParseInputNormalised(val: string)
    ensures ParseInput(Normalize(val)) == ParseInput(val)
  {
    NormalizeSpec(val);
    if val == "" {
      assert Normalize(val) == "";
    }
  }

  /** The decimal text of a natural number. */
  function NatText(n: nat): (t: string)
    ensures |t| > 0 && forall i :: 0 <= i < |t| ==> IsDigit(t[i])
  {
    var d := ['0' + (n % 10) as char];
    if n < 10 then d else NatText(n / 10) + d
  }

  lemma {:induction false} NatTextValue(n: nat)
    ensures DigitsValue(NatText(n)) == n
  {
    var t := NatText(n);
    if n >= 10 {
      NatTextValue(n / 10);
      assert t[..|t| - 1] == NatText(n / 10);
    }
  }

  lemma {:induction false} DigitRunToEnd(s: string, from: nat)
    requires from <= |s|
    requires forall i :: from <= i < |s| ==> IsDigit(s[i])
    ensures DigitRun(s, from) == |s|
    decreases |s| - from
  {
    if from < |s| {
      DigitRunToEnd(s, from + 1);
    }
  }

  /** A whole number typed into a field, with or without a minus sign,
      reads back as itself. */
  lemma ParseInputNatText(n: nat)
    ensures ParseInput(NatText(n)) == n as real
    ensures ParseInput("-" + NatText(n)) == -(n as real)
  {
    var t := NatText(n);
    NatTextValue(n);
    DigitsParse(t);
    DigitsParse("-" + t);
    assert ("-" + t)[1..] == t;
  }

  /** A run of digits, with or without a leading minus sign, reads as its
      value. */
  lemma DigitsParse(s: string)
    requires |s| > 0 && (IsDigit(s[0]) || (s[0] == '-' && |s| > 1))
    requires forall i :: 1 <= i < |s| ==> IsDigit(s[i])
    ensures var start := if s[0] == '-' then 1 else 0;
      ParseInput(s) == if start == 1 then -(DigitsValue(s[1..]) as real) else DigitsValue(s) as real
  {
    NormalFormReads(s);
    if s[0] == '-' {
      UnsignedDigits(s, 1);
    } else {
      UnsignedDigits(s, 0);
      assert s[0..] == s;
    }
  }

  lemma UnsignedDigits(s: string, start: nat)
    requires start < |s|
    requires forall i :: start <= i < |s| ==> IsDigit(s[i])
    ensures ParseUnsigned(s, start) == Some(DigitsValue(s[start..]) as real)
  {
    DigitRunToEnd(s, start);
    assert FractionDigits(s, |s|) == [];
    assert s[start..|s|] == s[start..];
  }

  /** Text already in normal form is read by `parseFloat` directly. */
  lemma NormalFormReads(s: string)
    requires s != ""
    requires forall i :: 0 <= i < |s| ==> IsKept(s[i]) && s[i] != ','
    ensures ParseInput(s) == match ParseFloat(s) case None => 0.0 case Some(x) => x
  {
    AllKeptUnchanged(s);
    NoCommaUnchanged(s);
  }

  /** Units, spaces and letters typed anywhere in a field are ignored:
      "12 V" reads as "12", "49,5 V" as "49,5". */
  lemma NoiseIgnored(x: string, u: string, y: string)
    requires forall i :: 0 <= i < |u| ==> !IsKept(u[i]) && u[i] != ','
    ensures ParseInput(x + u + y) == ParseInput(x + y)
  {
    NormalizeDropsNoise(x, u, y);
    if x + y == [] {
      EmptyReadsNothing();
    }
  }

  lemma NormalizeDropsNoise(x: string, u: string, y: string)
    requires forall i :: 0 <= i < |u| ==> !IsKept(u[i]) && u[i] != ','
    ensures Normalize(x + u + y) == Normalize(x + y)
  {
    var rx, ry := ReplaceCommas(x), ReplaceCommas(y);
    NoCommaUnchanged(u);
    assert ReplaceCommas(x + u + y) == rx + u + ry by {
      ReplaceCommasAppend(x + u, y);
      ReplaceCommasAppend(x, u);
    }
    assert ReplaceCommas(x + y) == rx + ry by {
      ReplaceCommasAppend(x, y);
    }
    NoiseNormalizesAway(u);
    assert Strip(u) == [];
    StripAppend(rx + u, ry);
    StripAppend(rx, u);
    StripAppend(rx, ry);
  }

  /** Empty text holds no number. */
  lemma EmptyReadsNothing()
    ensures ParseFloat([]) == None
  {
    assert DigitRun([], 0) == 0;
    assert FractionDigits([], 0) == [];
  }

  /** The value of the decimal with integer digits `a` and fraction
      digits `b`: the integer digits plus the fraction digits over ten to
      the number of them. */
  function DecimalValue(a: string, b: string): real
    requires AllDigits(a) && AllDigits(b)
  {
    DigitsValue(a) as real + DigitsValue(b) as real / Pow10(|b|) as real
  }

  /** The unsigned decimal `a.b` at `start` reads as DecimalValue. */
  lemma UnsignedDecimal(s: string, start: nat, a: string, b: string)
    requires start <= |s| && s[start..] == a + "." + b
    requires AllDigits(a) && AllDigits(b) && |a| + |b| > 0
    ensures ParseUnsigned(s, start) == Some(DecimalValue(a, b))
  {
    var k := start + |a|;
    DecimalLayout(s, start, a, b);
    ParseUnsignedUnfold(s, start, k);
  }

  lemma SameDigits(x: string, y: string)
    requires AllDigits(x) && x == y
    ensures DigitsValue(x) == DigitsValue(y)
  {
  }

  lemma SameFraction(x: string, y: string)
    requires AllDigits(x) && x == y
    ensures Fraction(x) == Fraction(y)
  {
  }

  /** Where the digit runs of `a.b` at `start` end, and what they hold. */
  lemma DecimalLayout(s: string, start: nat, a: string, b: string)
    requires start <= |s| && s[start..] == a + "." + b
    requires AllDigits(a) && AllDigits(b)
    ensures start + |a| < |s| && DigitRun(s, start) == start + |a|
    ensures |FractionDigits(s, start + |a|)| == |b|
    ensures DigitsValue(s[start..start + |a|]) as real + Fraction(FractionDigits(s, start + |a|)) == DecimalValue(a, b)
  {
    var dot := start + |a|;
    assert s[dot] == '.';
    forall i | start <= i < dot
      ensures IsDigit(s[i])
    {
      assert s[i] == s[start..][i - start] == a[i - start];
    }
    forall i | dot + 1 <= i < |s|
      ensures IsDigit(s[i])
    {
      assert s[i] == s[start..][i - start] == b[i - dot - 1];
    }
    DigitRunToEnd(s, dot + 1);
    assert s[start..dot] == a;
    assert s[dot + 1..|s|] == b;
    SameDigits(s[start..dot], a);
    SameFraction(FractionDigits(s, dot), b);
    FractionValue(b);
  }

  lemma ParseUnsignedUnfold(s: string, start: nat, k: nat)
    requires start <= |s| && k == DigitRun(s, start)
    requires k > start || |FractionDigits(s, k)| > 0
    ensures ParseUnsigned(s, start) == Some(DigitsValue(s[start..k]) as real + Fraction(FractionDigits(s, k)))
  {
  }

  lemma FractionValue(b: string)
    requires AllDigits(b)
    ensures Fraction(b) == DigitsValue(b) as real / Pow10(|b|) as real
  {
    if |b| == 0 {
      assert DigitsValue(b) == 0;
    }
  }

  /** A decimal typed with a dot or a comma, with or without a minus sign,
      reads as its value: "49.5" and "49,5" as 49.5, "-0,28" as -0.28. At
      least one digit must be there; either side of the separator may be
      empty. */
  lemma DecimalParse(a: string, b: string)
    requires AllDigits(a) && AllDigits(b) && |a| + |b| > 0
    ensures ParseInput(a + "." + b) == DecimalValue(a, b)
    ensures ParseInput("-" + a + "." + b) == -DecimalValue(a, b)
    ensures ParseInput(a + "," + b) == DecimalValue(a, b)
    ensures ParseInput("-" + a + "," + b) == -DecimalValue(a, b)
  {
    DotDecimal(a, b);
    NegativeDotDecimal(a, b);
    CommaForDot(a, b);
    NegativeCommaForDot(a, b);
  }

  lemma DotDecimal(a: string, b: string)
    requires AllDigits(a) && AllDigits(b) && |a| + |b| > 0
    ensures ParseInput(a + "." + b) == DecimalValue(a, b)
  {
    var t := a + "." + b;
    DottedKept(a, b);
    NormalFormReads(t);
    UnsignedDecimal(t, 0, a, b);
    if |a| > 0 {
      assert t[0] == a[0];
    } else {
      assert t[0] == '.';
    }
  }

  lemma NegativeDotDecimal(a: string, b: string)
    requires AllDigits(a) && AllDigits(b) && |a| + |b| > 0
    ensures ParseInput("-" + a + "." + b) == -DecimalValue(a, b)
  {
    var t := "-" + a + "." + b;
    DottedKept(a, b);
    NormalFormReads(t);
    assert t[1..] == a + "." + b;
    UnsignedDecimal(t, 1, a, b);
  }

  /** Digits around a dot, with or without a leading minus sign, are
      already in normal form. */
  lemma DottedKept(a: string, b: string)
    requires AllDigits(a) && AllDigits(b)
    ensures forall i :: 0 <= i < |a + "." + b| ==> IsKept((a + "." + b)[i]) && (a + "." + b)[i] != ','
    ensures forall i :: 0 <= i < |"-" + a + "." + b| ==> IsKept(("-" + a + "." + b)[i]) && ("-" + a + "." + b)[i] != ','
  {
  }

  /** With a comma for the dot, the text normalises to the dotted form. */
  lemma CommaForDot(a: string, b: string)
    requires AllDigits(a) && AllDigits(b)
    ensures ParseInput(a + "," + b) == ParseInput(a + "." + b)
  {
    var d := a + "." + b;
    assert ReplaceCommas(a + "," + b) == d;
    DottedKept(a, b);
    AllKeptUnchanged(d);
    NoCommaUnchanged(d);
  }

  lemma NegativeCommaForDot(a: string, b: string)
    requires AllDigits(a) && AllDigits(b)
    ensures ParseInput("-" + a + "," + b) == ParseInput("-" + a + "." + b)
  {
    var d := "-" + a + "." + b;
    assert ReplaceCommas("-" + a + "," + b) == d;
    DottedKept(a, b);
    AllKeptUnchanged(d);
    NoCommaUnchanged(d);
  }

  /** A voltage typed with its unit and a decimal comma: "49,5 V" reads
      as 49.5. */
  lemma VoltageWithUnit()
    ensures ParseInput("49,5 V") == 49.5
  {
    var typed, bare := "49,5 V", "49,5";
    NoiseIgnored(bare, " V", "");
    assert bare + " V" + "" == typed;
    assert bare + "" == "49" + "," + "5";
    assert ParseInput(typed) == ParseInput("49" + "," + "5");
    DecimalParse("49", "5");
    FortyNineAndAHalf();
  }

  lemma FortyNineAndAHalf()
    ensures DecimalValue("49", "5") == 49.5
  {
    assert DigitsValue("49") == 49 by {
      assert "49"[..1] == "4";
    }
    assert DigitsValue("5") == 5;
    assert Pow10(1) == 10;
  }

  /** A comma works as the decimal separator: "1,5" reads as 1.5. */
  lemma CommaIsDecimalSeparator(s: string)
    requires s == "1,5"
    ensures ParseInput(s) == 1.5
  {
    var t := "1.5";
    assert ReplaceCommas(s) == t;
    AllKeptUnchanged(t);
    assert Normalize(s) == t;
    OneAndAHalfReads(t);
  }

  lemma OneAndAHalfReads(t: string)
    requires t == "1.5"
    ensures ParseFloat(t) == Some(1.5)
  {
    assert DigitRun(t, 0) == 1 && DigitRun(t, 2) == 3;
    assert t[0..1] == "1" && t[2..3] == "5";
    assert DigitsValue("1") == 1 && DigitsValue("5") == 5;
  }

  /** Text with no number at its start reads as 0: after the first minus
      sign of "--5" comes a second one, not a digit. */
  lemma DoubleMinusReadsZero(s: string)
    requires s == "--5"
    ensures ParseInput(s) == 0.0
  {
    NormalFormReads(s);
    assert DigitRun(s, 1) == 1;
  }

  /** Only the prefix counts: "1.2.3" reads as 1.2. */
  lemma SecondDotEndsNumber(s: string)
    requires s == "1.2.3"
    ensures ParseInput(s) == 1.2
  {
    NormalFormReads(s);
    assert DigitRun(s, 0) == 1 && DigitRun(s, 2) == 3;
    assert s[0..1] == "1" && s[2..3] == "2";
    assert DigitsValue("1") == 1 && DigitsValue("2") == 2;
  }

  // ---------------------------------------------------------------------
  // The derating
  // ---------------------------------------------------------------------

  /** The temperature coefficient as used: always non-positive. */
  function EffectiveCoef(coef: real): (c: real)
    ensures c <= 0.0 && (c == coef || c == -coef)
  {
    if coef < 0.0 then coef else -coef
  }

  /** One block of results: the temperature difference to STC, the relative
      rise of Voc, the panel's and the string's open-circuit voltage. */
  datatype Derating = Derating(deltaT: real, growth: real, vPanel: real, vString: real)

  function Derate(voc: real, coef: real, tmin: real, n: real): (d: Derating)
    ensures d.deltaT == tmin - StcTemp
    ensures d.vString == d.vPanel * n
  {
    var deltaT := tmin - StcTemp;
    var growth := (EffectiveCoef(coef) / 100.0) * deltaT;
    var vPanel := voc * (1.0 + growth);
    Derating(deltaT, growth, vPanel, vPanel * n)
  }

  /** Voc rises in the cold: at or below 25 °C the growth is non-negative,
      and for a non-negative Voc the panel voltage is at least Voc. */
  lemma ColdRaisesVoltage(voc: real, coef: real, tmin: real, n: real)
    requires tmin <= StcTemp
    ensures Derate(voc, coef, tmin, n).growth >= 0.0
    ensures voc >= 0.0 ==> Derate(voc, coef, tmin, n).vPanel >= voc
  {
    var d := Derate(voc, coef, tmin, n);
    var c := EffectiveCoef(coef) / 100.0;
    assert d.growth == c * (tmin - StcTemp);
    NonPositiveProduct(c, tmin - StcTemp);
    if voc >= 0.0 {
      NonNegativeProduct(voc, d.growth);
      assert d.vPanel == voc + voc * d.growth;
    }
  }

  /** The colder the site, the higher the voltage of a panel with a
      non-negative Voc. */
  lemma ColderIsHigher(voc: real, coef: real, t1: real, t2: real, n: real)
    requires voc >= 0.0 && t1 <= t2
    ensures Derate(voc, coef, t1, n).vPanel >= Derate(voc, coef, t2, n).vPanel
  {
    var c := EffectiveCoef(coef) / 100.0;
    var g1, g2 := Derate(voc, coef, t1, n).growth, Derate(voc, coef, t2, n).growth;
    assert g1 - g2 == c * (t1 - t2);
    NonNegativeProduct(-c, t2 - t1);
    assert g1 >= g2;
    NonNegativeProduct(voc, g1 - g2);
  }

  lemma NonPositiveProduct(x: real, y: real)
    requires x <= 0.0 && y <= 0.0
    ensures x * y >= 0.0
  {
  }

  lemma NonNegativeProduct(x: real, y: real)
    requires x >= 0.0 && y >= 0.0
    ensures x * y >= 0.0
  {
  }

  // ---------------------------------------------------------------------
  // The status box
  // ---------------------------------------------------------------------

  /** What a status box shows: nothing, an excess over the inverter's
      maximum, a margin under 5%, or the margin in volts and percent. */
  datatype Status =
    | Hidden
    | Danger(excess: real)
    | Warning
    | Ok(margin: real, marginPercent: real)

  /** `updateStatusBox`. */
  function Classify(current: real, max: real): (s: Status)
    ensures s.Hidden? <==> max <= 0.0 || current <= 0.0
    ensures s.Danger? <==> max > 0.0 && current > 0.0 && current > max
    ensures s.Warning? <==> max > 0.0 && current > 0.0 && current <= max && (max - current) / max * 100.0 < 5.0
    ensures s.Ok? <==> max > 0.0 && current > 0.0 && current <= max && (max - current) / max * 100.0 >= 5.0
    ensures s.Danger? ==> s.excess == current - max && s.excess > 0.0
    ensures s.Ok? ==> s.margin == max - current && s.marginPercent * max == s.margin * 100.0
  {
    if max <= 0.0 || current <= 0.0 then Hidden
    else if current > max then Danger(current - max)
    else
      var margin := max - current;
      var marginPercent := (margin / max) * 100.0;
      if marginPercent < 5.0 then Warning else Ok(margin, marginPercent)
  }

  /** The warning band in plain terms: a visible, not exceeded string is a
      warning exactly when it is above 95% of the inverter's maximum. */
  lemma WarningBand(current: real, max: real)
    requires max > 0.0 && 0.0 < current <= max
    ensures Classify(current, max).Warning? <==> current > 0.95 * max
    ensures Classify(current, max).Ok? <==> current <= 0.95 * max
  {
    var p := (max - current) / max * 100.0;
    assert p * max == (max - current) * 100.0;
    if p < 5.0 {
      assert p * max < 5.0 * max;
    } else {
      assert p * max >= 5.0 * max;
    }
  }

  // ---------------------------------------------------------------------
  // The page
  // ---------------------------------------------------------------------

  /** The five text fields. */
  datatype VocInput = VocInput(voc: string, coef: string, tmin: string, panels: string, vmax: string)

  datatype VocResult = VocResult(user: Derating, iec: Derating, status: Status, statusIec: Status)

  /** `calculate`: both blocks and both status boxes. */
  function Calculate(inp: VocInput): (r: VocResult)
    ensures r.user == Derate(ParseInput(inp.voc), ParseInput(inp.coef), ParseInput(inp.tmin), ParseInput(inp.panels))
    ensures r.iec == Derate(ParseInput(inp.voc), ParseInput(inp.coef), IecTemp, ParseInput(inp.panels))
    ensures r.iec.deltaT == -50.0
    ensures r.status == Classify(r.user.vString, ParseInput(inp.vmax))
    ensures r.statusIec == Classify(r.iec.vString, ParseInput(inp.vmax))
  {
    var voc := ParseInput(inp.voc);
    var coef := ParseInput(inp.coef);
    var tmin := ParseInput(inp.tmin);
    var n := ParseInput(inp.panels);
    var vmax := ParseInput(inp.vmax);
    var user := Derate(voc, coef, tmin, n);
    var iec := Derate(voc, coef, IecTemp, n);
    VocResult(user, iec, Classify(user.vString, vmax), Classify(iec.vString, vmax))
  }

  /** The IEC block: a 50 K difference, a growth of half the coefficient's
      magnitude, and a panel voltage at least Voc when Voc is non-negative. */
  lemma IecBlock(inp: VocInput)
    ensures var r := Calculate(inp);
      var voc, coef := ParseInput(inp.voc), ParseInput(inp.coef);
      && r.iec.growth == (if coef < 0.0 then -coef else coef) / 2.0
      && r.iec.growth >= 0.0
      && (voc >= 0.0 ==> r.iec.vPanel >= voc)
  {
    var voc, coef := ParseInput(inp.voc), ParseInput(inp.coef);
    ColdRaisesVoltage(voc, coef, IecTemp, ParseInput(inp.panels));
  }

  /** The IEC block is the user block for a site at -25 °C: with the
      minimum temperature field reading -25 (as "-25" does), both blocks
      show the same figures. */
  lemma IecIsUserAtMinus25(inp: VocInput)
    requires ParseInput(inp.tmin) == IecTemp
    ensures Calculate(inp).iec == Calculate(inp).user
    ensures Calculate(inp).statusIec == Calculate(inp).status
  {
  }

  lemma MinusTwentyFiveReads()
    ensures ParseInput("-25") == IecTemp
  {
    DigitsParse("-25");
    assert "-25"[1..] == "25";
    assert "25"[..1] == "2";
    assert DigitsValue("25") == 25;
  }
}
