// The array part of the order-book messages as text: json_parser's parsePair,
// convertToDouble and parseArray against the rendered price levels.

module OrderBookText {
  import opened Options

  const NPOS: nat := 0xFFFF_FFFF_FFFF_FFFF

  // size_t arithmetic wraps.
  function Wrap(n: int): (r: nat)
    ensures r <= NPOS
  {
    if 0 <= n <= NPOS then n else n % (NPOS + 1)
  }

  predicate MatchesAt(s: string, pat: string, i: nat) {
    i + |pat| <= |s| && forall j :: 0 <= j < |pat| ==> pat[j] == s[i + j]
  }

  // string_view::find
  function Find(s: string, pat: string, pos: nat): (k: nat)
    ensures k == NPOS || (pos <= k < |s| && MatchesAt(s, pat, k))
    decreases |s| - pos
  {
    if pos + |pat| > |s| || pos >= |s| then NPOS
    else if MatchesAt(s, pat, pos) then pos else Find(s, pat, pos + 1)
  }

  // string_view::substr; None when it throws out_of_range.
  function Substr(s: string, pos: nat, n: nat): Option<string> {
    if pos > |s| then None
    else Some(s[pos..if pos + n < |s| then pos + n else |s|])
  }

  lemma {:induction false} FindAt(s: string, pat: string, pos: nat, k: nat)
    requires pos <= k < |s| && MatchesAt(s, pat, k)
    requires forall i :: pos <= i < k ==> !MatchesAt(s, pat, i)
    ensures Find(s, pat, pos) == k
    decreases k - pos
  {
    if pos < k {
      FindAt(s, pat, pos + 1, k);
    }
  }

  lemma {:induction false} FindNothing(s: string, pat: string, pos: nat)
    requires forall i :: pos <= i < |s| ==> !MatchesAt(s, pat, i)
    ensures Find(s, pat, pos) == NPOS
    decreases |s| - pos
  {
    if pos < |s| {
      FindNothing(s, pat, pos + 1);
    }
  }

  // ----------------------------------------------------------------- numbers

  datatype Reading = Reading(result: real, beforeDot: bool, exponent: real, isNegative: bool)

  // One character; the test for non-digits in the source can never hold, so
  // any other character counts by its distance from '0'.
  function ReadChar(r: Reading, c: char): Reading {
    if c == '-' then r.(isNegative := true)
    else if c == '.' then r.(beforeDot := false)
    else
      var digit := (c as int - '0' as int) as real;
      if r.beforeDot then r.(result := r.result * 10.0 + digit)
      else r.(result := r.result + digit * r.exponent, exponent := r.exponent * 0.1)
  }

  function ReadAll(s: string): Reading {
    if s == [] then Reading(0.0, true, 0.1, false) else ReadChar(ReadAll(s[..|s| - 1]), s[|s| - 1])
  }

  function Converted(s: string): real {
    var r := ReadAll(s);
    if r.isNegative then -r.result else r.result
  }

  // The digit branch of the loop in convertToDouble.
  method AddDigit(c: char, result0: real, beforeDot: bool, exponent0: real, ghost isNegative: bool)
    returns (result: real, exponent: real)
    requires c != '-' && c != '.'
    ensures Reading(result, beforeDot, exponent, isNegative) ==
            ReadChar(Reading(result0, beforeDot, exponent0, isNegative), c)
  {
    result, exponent := result0, exponent0;
    var digit := (c as int - '0' as int) as real;
    if beforeDot {
      result := result * 10.0 + digit;
    } else {
      result := result + digit * exponent;
      exponent := exponent * 0.1;
    }
  }

  method ConvertToDouble(valueStr: string) returns (result: real)
    ensures result == Converted(valueStr)
  {
    result := 0.0;
    var beforeDot, exponent, isNegative := true, 0.1, false;
    for i := 0 to |valueStr|
      invariant ReadAll(valueStr[..i]) == Reading(result, beforeDot, exponent, isNegative)
    {
      var c := valueStr[i];
      assert valueStr[..i + 1] == valueStr[..i] + [c];
      ReadSnoc(valueStr[..i], c);
      if c == '-' {
        isNegative := true;
      } else if c == '.' {
        beforeDot := false;
      } else {
        result, exponent := AddDigit(c, result, beforeDot, exponent, isNegative);
      }
    }
    assert valueStr[..|valueStr|] == valueStr;
    if isNegative {
      result := -result;
    }
  }

  type Digit = d: nat | d < 10

  // A decimal numeral: sign, digits before and after the point.
  datatype Decimal = Decimal(negative: bool, whole: seq<Digit>, fraction: seq<Digit>)

  function DigitChar(d: Digit): char { '0' + d as char }

  function DigitsText(ds: seq<Digit>): (s: string)
    ensures |s| == |ds| && forall i :: 0 <= i < |s| ==> '0' <= s[i] <= '9' && s[i] == DigitChar(ds[i])
  {
    seq(|ds|, i requires 0 <= i < |ds| => DigitChar(ds[i]))
  }

  function Sign(d: Decimal): string { if d.negative then "-" else "" }

  function Text(d: Decimal): string {
    Sign(d) + DigitsText(d.whole) + (if d.fraction == [] then "" else "." + DigitsText(d.fraction))
  }

  function DigitsValue(ds: seq<Digit>): nat {
    if ds == [] then 0 else DigitsValue(ds[..|ds| - 1]) * 10 + ds[|ds| - 1]
  }

  function Tenth(n: nat): real { if n == 0 then 1.0 else Tenth(n - 1) * 0.1 }

  // The number a numeral denotes.
  function ValueOf(d: Decimal): real {
    if d.negative then -Magnitude(d) else Magnitude(d)
  }

  function Magnitude(d: Decimal): real {
    DigitsValue(d.whole) as real + DigitsValue(d.fraction) as real * Tenth(|d.fraction|)
  }

  lemma ReadSnoc(s: string, c: char)
    ensures ReadAll(s + [c]) == ReadChar(ReadAll(s), c)
  {
    assert (s + [c])[..|s|] == s;
  }

  lemma {:induction false} ReadsWhole(sign: string, ds: seq<Digit>)
    requires sign == "" || sign == "-"
    ensures ReadAll(sign + DigitsText(ds)) == Reading(DigitsValue(ds) as real, true, 0.1, sign == "-")
  {
    if ds == [] {
      assert sign + DigitsText(ds) == sign;
      if sign == "-" {
        ReadSnoc("", '-');
      }
    } else {
      var n := |ds| - 1;
      ReadsWhole(sign, ds[..n]);
      assert sign + DigitsText(ds) == (sign + DigitsText(ds[..n])) + [DigitChar(ds[n])];
      ReadSnoc(sign + DigitsText(ds[..n]), DigitChar(ds[n]));
    }
  }

  lemma ReadsDigit(r: Reading, d: Digit)
    ensures ReadChar(r, DigitChar(d)) ==
            if r.beforeDot then r.(result := r.result * 10.0 + d as real)
            else r.(result := r.result + d as real * r.exponent, exponent := r.exponent * 0.1)
  {
    assert DigitChar(d) as int == '0' as int + d;
  }

  lemma {:induction false} ReadsFraction(before: string, ds: seq<Digit>)
    requires !ReadAll(before).beforeDot && ReadAll(before).exponent == 0.1
    ensures ReadAll(before + DigitsText(ds)) == FractionRead(ReadAll(before), ds)
  {
    if ds == [] {
      assert before + DigitsText(ds) == before;
    } else {
      var n := |ds| - 1;
      ReadsFraction(before, ds[..n]);
      assert before + DigitsText(ds) == (before + DigitsText(ds[..n])) + [DigitChar(ds[n])];
      ReadSnoc(before + DigitsText(ds[..n]), DigitChar(ds[n]));
      FractionGrows(ReadAll(before), ds);
    }
  }

  function FractionRead(r: Reading, ds: seq<Digit>): Reading {
    r.(result := r.result + DigitsValue(ds) as real * Tenth(|ds|), exponent := 0.1 * Tenth(|ds|))
  }

  lemma FractionGrows(r: Reading, ds: seq<Digit>)
    requires !r.beforeDot && ds != []
    ensures ReadChar(FractionRead(r, ds[..|ds| - 1]), DigitChar(ds[|ds| - 1])) == FractionRead(r, ds)
  {
    var n := |ds| - 1;
    ReadsDigit(FractionRead(r, ds[..n]), ds[n]);
    ShiftedValue(DigitsValue(ds[..n]) as real, ds[n] as real, Tenth(n));
  }

  lemma ShiftedValue(f: real, d: real, t: real)
    ensures f * t + d * (0.1 * t) == (f * 10.0 + d) * (t * 0.1)
  {
  }

  function WholeRead(d: Decimal): Reading {
    Reading(DigitsValue(d.whole) as real, true, 0.1, d.negative)
  }

  // What has been read after the whole text.
  function TextRead(d: Decimal): Reading {
    if d.fraction == [] then WholeRead(d)
    else FractionRead(WholeRead(d).(beforeDot := false), d.fraction)
  }

  lemma FractionIsRead(head: string, whole: Reading, ds: seq<Digit>)
    requires ReadAll(head) == whole && whole.exponent == 0.1
    ensures ReadAll(head + "." + DigitsText(ds)) == FractionRead(whole.(beforeDot := false), ds)
  {
    ReadSnoc(head, '.');
    assert head + ['.'] == head + ".";
    ReadsFraction(head + ".", ds);
  }

  lemma TextIsRead(d: Decimal)
    ensures ReadAll(Text(d)) == TextRead(d)
  {
    var head := Sign(d) + DigitsText(d.whole);
    ReadsWhole(Sign(d), d.whole);
    if d.fraction == [] {
      assert Text(d) == head;
    } else {
      assert Text(d) == head + "." + DigitsText(d.fraction);
      FractionIsRead(head, WholeRead(d), d.fraction);
    }
  }

  lemma MagnitudeIsRead(d: Decimal)
    ensures TextRead(d).result == Magnitude(d) && TextRead(d).isNegative == d.negative
  {
    if d.fraction == [] {
      assert DigitsValue(d.fraction) == 0;
    }
  }

  // convertToDouble reads a decimal numeral as the number it denotes.
  lemma ConvertReadsNumerals(d: Decimal)
    ensures Converted(Text(d)) == ValueOf(d)
  {
    TextIsRead(d);
    MagnitudeIsRead(d);
  }

  // ------------------------------------------------------------------- pairs

  datatype Update = Update(price: real, volume: real)

  // The two numbers of a pair as text; None when a substr throws.
  function SplitPair(pairStr: string): Option<(string, string)> {
    var comma := Find(pairStr, ",", 0);
    var price := Substr(pairStr, 1, Wrap(comma - 2));
    var volume := Substr(pairStr, Wrap(comma + 2), Wrap(|pairStr| - comma - 3));
    if price.None? || volume.None? then None else Some((price.value, volume.value))
  }

  // parsePair
  function ParsePair(pairStr: string): Option<Update> {
    var parts := SplitPair(pairStr);
    if parts.None? then None
    else Some(Update(Converted(parts.value.0), Converted(parts.value.1)))
  }

  datatype Level = Level(price: Decimal, volume: Decimal)

  function PairText(l: Level): string {
    "\"" + Text(l.price) + "\",\"" + Text(l.volume) + "\""
  }

  function UpdateOf(l: Level): Update { Update(ValueOf(l.price), ValueOf(l.volume)) }

  predicate IsNumeralChar(c: char) { '0' <= c <= '9' || c == '-' || c == '.' }

  lemma TextIsNumeral(d: Decimal)
    ensures forall i :: 0 <= i < |Text(d)| ==> IsNumeralChar(Text(d)[i])
  {
  }

  lemma QuotedPair(p: string, v: string)
    requires (forall i :: 0 <= i < |p| ==> p[i] != ',') && |p| + |v| + 5 < NPOS
    ensures SplitPair("\"" + p + "\",\"" + v + "\"") == Some((p, v))
  {
    var s := "\"" + p + "\",\"" + v + "\"";
    var comma := |p| + 2;
    assert s[comma] == ',';
    forall i | 0 <= i < comma
      ensures !MatchesAt(s, ",", i)
    {
      assert s[i] != ","[0];
    }
    FindAt(s, ",", 0, comma);
    assert s[1..|p| + 1] == p && s[|p| + 4..|s| - 1] == v;
  }

  lemma {:induction false} PairTextReads(l: Level)
    requires |PairText(l)| < NPOS
    ensures ParsePair(PairText(l)) == Some(UpdateOf(l))
  {
    TextIsNumeral(l.price);
    QuotedPair(Text(l.price), Text(l.volume));
    ConvertReadsNumerals(l.price);
    ConvertReadsNumerals(l.volume);
  }

  lemma PairTextHasNoBrackets(l: Level)
    ensures forall i :: 0 <= i < |PairText(l)| ==> PairText(l)[i] != ']' && PairText(l)[i] != '['
  {
    TextIsNumeral(l.price);
    TextIsNumeral(l.volume);
  }
}
