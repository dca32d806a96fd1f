/** The colour helpers of the browser front end: a three-bit colour code becomes a CSS
    `rgba(...)` string, and an `rgba(...)` string is re-scaled channel by channel. Numbers
    are rendered as JavaScript's template literals render integers; the alpha argument is
    the text its template rendering produces. */
module ColorUtils {
  import opened Values
  import opened Decimal

  predicate NoDigits(s: string)
  {
    forall k :: 0 <= k < |s| ==> !IsDigit(s[k])
  }

  /** The length of the run of digits `s` starts with. */
  function LeadingDigits(s: string): (k: nat)
    ensures k <= |s| && AllDigits(s[..k]) && (k < |s| ==> !IsDigit(s[k]))
    decreases |s|
  {
    if s == [] || !IsDigit(s[0]) then 0
    else
      var k := LeadingDigits(s[1..]);
      assert s[..1 + k] == [s[0]] + s[1..][..k];
      1 + k
  }

  /** `s.match(/\d+/g)`: the maximal runs of decimal digits, left to right. */
  function DigitRuns(s: string): (runs: seq<string>)
    ensures forall i :: 0 <= i < |runs| ==> |runs[i]| >= 1 && AllDigits(runs[i])
    decreases |s|
  {
    if s == [] then []
    else if !IsDigit(s[0]) then DigitRuns(s[1..])
    else
      var k := LeadingDigits(s);
      [s[..k]] + DigitRuns(s[k..])
  }

  /** A prefix without digits contributes no run. */
  lemma {:induction false} SkipNonDigits(p: string, t: string)
    requires NoDigits(p)
    ensures DigitRuns(p + t) == DigitRuns(t)
    decreases |p|
  {
    if p != [] {
      assert (p + t)[1..] == p[1..] + t;
      SkipNonDigits(p[1..], t);
    } else {
      assert p + t == t;
    }
  }

  lemma {:induction false} LeadingOfRun(d: string, t: string)
    requires AllDigits(d)
    requires t == [] || !IsDigit(t[0])
    ensures LeadingDigits(d + t) == |d|
    decreases |d|
  {
    if d != [] {
      assert (d + t)[1..] == d[1..] + t;
      LeadingOfRun(d[1..], t);
    } else {
      assert d + t == t;
    }
  }

  /** A run of digits followed by a non-digit (or the end) is one run. */
  lemma TakeRun(d: string, t: string)
    requires |d| >= 1 && AllDigits(d)
    requires t == [] || !IsDigit(t[0])
    ensures DigitRuns(d + t) == [d] + DigitRuns(t)
  {
    LeadingOfRun(d, t);
    assert (d + t)[..|d|] == d;
    assert (d + t)[|d|..] == t;
  }

  /** The CSS text `rgba(r, g, b, a)`. */
  function Rgba(r: string, g: string, b: string, a: string): string
  {
    "rgba(" + (r + (", " + (g + (", " + (b + (", " + (a + ")")))))))
  }

  /** A run followed by the separator `, `: the run, then the runs of what follows. */
  lemma RunThenSeparator(d: string, rest: string)
    requires |d| >= 1 && AllDigits(d)
    ensures DigitRuns(d + (", " + rest)) == [d] + DigitRuns(rest)
  {
    TakeRun(d, ", " + rest);
    SkipNonDigits(", ", rest);
  }

  /** Reading the digit runs of an `rgba(...)` text finds the three channels first. */
  lemma RunsOfRgba(r: string, g: string, b: string, a: string)
    requires |r| >= 1 && AllDigits(r) && |g| >= 1 && AllDigits(g) && |b| >= 1 && AllDigits(b)
    ensures DigitRuns(Rgba(r, g, b, a)) == [r, g, b] + DigitRuns(a + ")")
  {
    var afterB := a + ")";
    var afterG := b + (", " + afterB);
    var afterR := g + (", " + afterG);
    SkipNonDigits("rgba(", r + (", " + afterR));
    RunThenSeparator(r, afterR);
    RunThenSeparator(g, afterG);
    RunThenSeparator(b, afterB);
  }

  /** The default `alpha` of `binStr2Rgba`, as rendered. */
  const DefaultAlpha: string := "0.3"

  /** The accepted inputs: exactly three characters, each '0' or '1'. */
  predicate IsBinStr(s: string)
  {
    |s| == 3 && forall k :: 0 <= k < 3 ==> s[k] == '0' || s[k] == '1'
  }

  function Bit(c: char): nat
  {
    if c == '1' then 1 else 0
  }

  /** `binStr2Rgba(str, alpha)`: throws on any input other than three binary digits; each
      digit becomes a channel of 0 or 255. */
  function BinStr2Rgba(s: string, alpha: string): (r: Outcome<string>)
    ensures r.Raised? <==> !IsBinStr(s)
    ensures r.Raised? ==> r.exception == "Error"
    ensures r.Done? ==> (|DigitRuns(r.value)| >= 3 &&
      forall k :: 0 <= k < 3 ==> DigitsValue(DigitRuns(r.value)[k]) == 255 * Bit(s[k]))
    ensures r.Done? ==>
      DigitRuns(r.value) ==
        [NatToString(255 * Bit(s[0])), NatToString(255 * Bit(s[1])), NatToString(255 * Bit(s[2]))] + DigitRuns(alpha + ")")
    ensures r.Done? ==> |r.value| > |alpha| + 5 && r.value[..5] == "rgba(" && r.value[|r.value| - |alpha| - 1..] == alpha + ")"
  {
    if !IsBinStr(s) then Raised("Error")
    else
      BinRgbaReadsBack(s, alpha);
      Done(BinRgba(s, alpha))
  }

  /** The text built for three binary digits. */
  function BinRgba(s: string, alpha: string): string
    requires IsBinStr(s)
  {
    Rgba(NatToString(255 * Bit(s[0])), NatToString(255 * Bit(s[1])), NatToString(255 * Bit(s[2])), alpha)
  }

  /** Reading that text back finds the three channels, then the runs of the alpha. */
  lemma BinRgbaReadsBack(s: string, alpha: string)
    requires IsBinStr(s)
    ensures var text := BinRgba(s, alpha);
      && DigitRuns(text) ==
           [NatToString(255 * Bit(s[0])), NatToString(255 * Bit(s[1])), NatToString(255 * Bit(s[2]))] + DigitRuns(alpha + ")")
      && (forall k :: 0 <= k < 3 ==> DigitsValue(DigitRuns(text)[k]) == 255 * Bit(s[k]))
      && |text| > |alpha| + 5 && text[..5] == "rgba(" && text[|text| - |alpha| - 1..] == alpha + ")"
  {
    var red := NatToString(255 * Bit(s[0]));
    var green := NatToString(255 * Bit(s[1]));
    var blue := NatToString(255 * Bit(s[2]));
    RunsOfRgba(red, green, blue, alpha);
    DigitsValueOfNatToString(255 * Bit(s[0]));
    DigitsValueOfNatToString(255 * Bit(s[1]));
    DigitsValueOfNatToString(255 * Bit(s[2]));
  }

  /** `Math.floor(v * scale)`. */
  function ScaledValue(v: nat, scale: real): int
  {
    (v as real * scale).Floor
  }

  /** `Math.floor(run * scale)` rendered, or `NaN` for a channel the input lacks. */
  function ScaledChannel(runs: seq<string>, k: nat, scale: real): string
    requires forall i :: 0 <= i < |runs| ==> AllDigits(runs[i])
  {
    if k < |runs| then IntToString(ScaledValue(DigitsValue(runs[k]), scale)) else "NaN"
  }

  /** The alpha `scaleRgba` prints: the given one, else the fourth digit run of the input,
      else `undefined`. */
  function AlphaOf(runs: seq<string>, alpha: Option<string>): string
  {
    if alpha.Some? then alpha.value else if 3 < |runs| then runs[3] else "undefined"
  }

  /** `scaleRgba(rgba, scale, alpha)`: destructuring the `null` that a text without digits
      matches throws TypeError. */
  function ScaleRgba(rgba: string, scale: real, alpha: Option<string>): (r: Outcome<string>)
    ensures r.Raised? <==> DigitRuns(rgba) == []
    ensures r.Raised? ==> r.exception == "TypeError"
  {
    var runs := DigitRuns(rgba);
    if runs == [] then Raised("TypeError")
    else
      Done(Rgba(ScaledChannel(runs, 0, scale), ScaledChannel(runs, 1, scale),
        ScaledChannel(runs, 2, scale), AlphaOf(runs, alpha)))
  }

  /** Each channel of the result reads back as `Math.floor(channel * scale)` of the input's
      channel, for a non-negative scale and an input with three channels. */
  lemma ScaledChannelsReadBack(rgba: string, scale: real, alpha: Option<string>)
    requires |DigitRuns(rgba)| >= 3 && scale >= 0.0
    ensures ScaleRgba(rgba, scale, alpha).Done?
    ensures |DigitRuns(ScaleRgba(rgba, scale, alpha).value)| >= 3
    ensures forall k :: 0 <= k < 3 ==>
      DigitsValue(DigitRuns(ScaleRgba(rgba, scale, alpha).value)[k])
        == ScaledValue(DigitsValue(DigitRuns(rgba)[k]), scale)
  {
    var runs := DigitRuns(rgba);
    ScaleRgbaUnfold(rgba, scale, alpha);
    ReadBack(runs, scale, AlphaOf(runs, alpha));
  }

  /** The alpha `scaleRgba` writes is the given one, else the fourth number of the input,
      else `undefined`. */
  lemma ScaleRgbaAlpha(rgba: string, scale: real, alpha: Option<string>)
    requires DigitRuns(rgba) != []
    ensures var runs := DigitRuns(rgba);
      var out := ScaleRgba(rgba, scale, alpha);
      var a := if alpha.Some? then alpha.value else if |runs| > 3 then runs[3] else "undefined";
      && out.Done?
      && |out.value| > |a| + 5
      && out.value[..5] == "rgba("
      && out.value[|out.value| - |a| - 1..] == a + ")"
  {
    var runs := DigitRuns(rgba);
    var a := AlphaOf(runs, alpha);
    var c0, c1, c2 := ScaledChannel(runs, 0, scale), ScaledChannel(runs, 1, scale), ScaledChannel(runs, 2, scale);
    ScaleRgbaUnfold(rgba, scale, alpha);
    var head := "rgba(" + (c0 + (", " + (c1 + (", " + (c2 + ", ")))));
    assert Rgba(c0, c1, c2, a) == head + (a + ")");
  }

  /** A colour with fewer than three numbers gets `NaN` for each missing channel. */
  lemma ScaleRgbaMissingChannels(rgba: string, scale: real, alpha: Option<string>)
    requires DigitRuns(rgba) != []
    ensures var runs := DigitRuns(rgba);
      var out := ScaleRgba(rgba, scale, alpha);
      var a := if alpha.Some? then alpha.value else if |runs| > 3 then runs[3] else "undefined";
      var c0 := IntToString(ScaledValue(DigitsValue(runs[0]), scale));
      && (|runs| == 1 ==> out == Done(Rgba(c0, "NaN", "NaN", a)))
      && (|runs| == 2 ==>
            out == Done(Rgba(c0, IntToString(ScaledValue(DigitsValue(runs[1]), scale)), "NaN", a)))
  {
    ScaleRgbaUnfold(rgba, scale, alpha);
  }

  lemma ScaleRgbaUnfold(rgba: string, scale: real, alpha: Option<string>)
    requires DigitRuns(rgba) != []
    ensures var runs := DigitRuns(rgba);
      ScaleRgba(rgba, scale, alpha) == Done(Rgba(ScaledChannel(runs, 0, scale),
        ScaledChannel(runs, 1, scale), ScaledChannel(runs, 2, scale), AlphaOf(runs, alpha)))
  {
  }

  lemma ReadBack(runs: seq<string>, scale: real, alpha: string)
    requires forall i :: 0 <= i < |runs| ==> |runs[i]| >= 1 && AllDigits(runs[i])
    requires |runs| >= 3 && scale >= 0.0
    ensures var out := DigitRuns(Rgba(ScaledChannel(runs, 0, scale),
        ScaledChannel(runs, 1, scale), ScaledChannel(runs, 2, scale), alpha));
      |out| >= 3 &&
      forall k :: 0 <= k < 3 ==> DigitsValue(out[k]) == ScaledValue(DigitsValue(runs[k]), scale)
  {
    ScaledChannelText(runs, 0, scale);
    ScaledChannelText(runs, 1, scale);
    ScaledChannelText(runs, 2, scale);
    ReadBackNat(ScaledValue(DigitsValue(runs[0]), scale), ScaledValue(DigitsValue(runs[1]), scale),
      ScaledValue(DigitsValue(runs[2]), scale), alpha);
  }

  lemma ReadBackNat(v0: nat, v1: nat, v2: nat, alpha: string)
    ensures var out := DigitRuns(Rgba(NatToString(v0), NatToString(v1), NatToString(v2), alpha));
      |out| >= 3 && DigitsValue(out[0]) == v0 && DigitsValue(out[1]) == v1 && DigitsValue(out[2]) == v2
  {
    RunsOfRgba(NatToString(v0), NatToString(v1), NatToString(v2), alpha);
    DigitsValueOfNatToString(v0);
    DigitsValueOfNatToString(v1);
    DigitsValueOfNatToString(v2);
  }

  lemma ScaledChannelText(runs: seq<string>, k: nat, scale: real)
    requires forall i :: 0 <= i < |runs| ==> AllDigits(runs[i])
    requires k < |runs| && scale >= 0.0
    ensures ScaledValue(DigitsValue(runs[k]), scale) >= 0
    ensures ScaledChannel(runs, k, scale) == NatToString(ScaledValue(DigitsValue(runs[k]), scale))
  {
    var x := DigitsValue(runs[k]) as real * scale;
    ProductNonNegative(DigitsValue(runs[k]) as real, scale);
    FloorNonNegative(x);
  }

  lemma FloorNonNegative(x: real)
    requires x >= 0.0
    ensures x.Floor >= 0
  {
  }

  lemma ProductNonNegative(x: real, y: real)
    requires x >= 0.0 && y >= 0.0
    ensures x * y >= 0.0
  {
  }

  /** Scaling by a factor in [0, 1] never brightens a channel. */
  lemma ScalingDims(v: nat, scale: real)
    requires 0.0 <= scale <= 1.0
    ensures 0 <= ScaledValue(v, scale) <= v
  {
    ProductNonNegative(v as real, scale);
    assert v as real * scale <= v as real * 1.0 by {
      ProductNonNegative(v as real, 1.0 - scale);
    }
  }

  /** Round trip: re-scaling a colour code's `rgba` text by 1 with the same alpha gives the
      same text back. */
  lemma ScaleByOneRoundTrip(s: string, alpha: string)
    requires IsBinStr(s)
    ensures ScaleRgba(BinStr2Rgba(s, alpha).value, 1.0, Some(alpha)) == BinStr2Rgba(s, alpha)
  {
    ChannelsAtScaleOne(255 * Bit(s[0]), 255 * Bit(s[1]), 255 * Bit(s[2]), alpha);
  }

  /** At scale 1 the three channels of a colour written from numbers come back unchanged. */
  lemma ChannelsAtScaleOne(v0: nat, v1: nat, v2: nat, alpha: string)
    ensures var runs := DigitRuns(Rgba(NatToString(v0), NatToString(v1), NatToString(v2), alpha));
      && |runs| >= 3
      && ScaledChannel(runs, 0, 1.0) == NatToString(v0)
      && ScaledChannel(runs, 1, 1.0) == NatToString(v1)
      && ScaledChannel(runs, 2, 1.0) == NatToString(v2)
  {
    ReadBackNat(v0, v1, v2, alpha);
    var runs := DigitRuns(Rgba(NatToString(v0), NatToString(v1), NatToString(v2), alpha));
    UnitScale(DigitsValue(runs[0]));
    UnitScale(DigitsValue(runs[1]));
    UnitScale(DigitsValue(runs[2]));
  }

  lemma UnitScale(v: nat)
    ensures ScaledValue(v, 1.0) == v
  {
  }

  /** Without an explicit alpha, a colour made with the default alpha 0.3 comes back with
      alpha `0`: the fourth digit run of `0.3` is its integer part. */
  lemma DefaultAlphaBecomesZero(s: string)
    requires IsBinStr(s)
    ensures ScaleRgba(BinStr2Rgba(s, DefaultAlpha).value, 1.0, None)
      == Done(Rgba(NatToString(255 * Bit(s[0])), NatToString(255 * Bit(s[1])), NatToString(255 * Bit(s[2])), "0"))
  {
    var red := NatToString(255 * Bit(s[0]));
    var green := NatToString(255 * Bit(s[1]));
    var blue := NatToString(255 * Bit(s[2]));
    ChannelsAtScaleOne(255 * Bit(s[0]), 255 * Bit(s[1]), 255 * Bit(s[2]), DefaultAlpha);
    RunsOfRgba(red, green, blue, DefaultAlpha);
    assert DefaultAlpha + ")" == "0" + ".3)";
    TakeRun("0", ".3)");
  }

}
