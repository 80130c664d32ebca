/**
 * The display helpers of the player: the `M:SS` clock (`formatTime`), the
 * bitrate suffix (`formatBitrate`) and the quality-menu label
 * (`createQualityLabel`), together with the parsers that read each rendering
 * back and the lemmas that they do.
 */
module Format {
  import opened Wrappers
  import opened Decimal

  /** A quality level as the adaptive engine reports it: an optional height in pixels and a bitrate in bits per second. */
  datatype EngineLevel = EngineLevel(height: Option<nat>, bitrate: nat)

  /** JavaScript truthiness of an optional number: absent and zero are both false. */
  predicate Truthy(n: Option<nat>) {
    n.Some? && n.value != 0
  }

  // ---------------------------------------------------------------- clock

  /** `Math.trunc`. */
  function Trunc(x: real): int {
    if x >= 0.0 then x.Floor else -((-x).Floor)
  }

  /** JavaScript's `%` on numbers: the remainder takes the sign of the dividend. */
  function JsRemainder(a: real, b: real): real
    requires b != 0.0
  {
    a - b * Trunc(a / b) as real
  }

  /** `Math.floor(time / 60)`. */
  function Minutes(time: real): int {
    (time / 60.0).Floor
  }

  /** `Math.floor(time % 60)`. */
  function Seconds(time: real): int {
    JsRemainder(time, 60.0).Floor
  }

  /**
   * `formatTime`: whole minutes, a colon, and the whole seconds padded to two
   * places. For a non-negative time neither field has a sign and the seconds
   * field is exactly two digits.
   */
  function FormatTime(time: real): (s: string)
    ensures time >= 0.0 ==>
              s == NatToString(Minutes(time)) + ":" + [DigitChar(Seconds(time) / 10), DigitChar(Seconds(time) % 10)]
  {
    var clock := IntToString(Minutes(time)) + ":" + PadStart(IntToString(Seconds(time)), 2, '0');
    if time >= 0.0 then ClockText(time); clock else clock
  }

  /** The two fields of the clock of a non-negative time, as text. */
  lemma ClockText(time: real)
    requires time >= 0.0
    ensures Minutes(time) >= 0 && 0 <= Seconds(time) < 60
    ensures IntToString(Minutes(time)) == NatToString(Minutes(time))
    ensures PadStart(IntToString(Seconds(time)), 2, '0') == [DigitChar(Seconds(time) / 10), DigitChar(Seconds(time) % 10)]
  {
    ClockFields(time);
    var sec: nat := Seconds(time);
    TwoPlaces(sec);
  }

  /** Reads `M:SS` back into its minutes and seconds fields. */
  function ParseClock(s: string): Option<(nat, nat)> {
    if |s| >= 4 && s[|s| - 3] == ':' && AllDigits(s[..|s| - 3]) && AllDigits(s[|s| - 2..])
    then Some((ParseNat(s[..|s| - 3]), ParseNat(s[|s| - 2..])))
    else None
  }

  /** For a non-negative time the two fields are the minutes and the seconds below 60 of `floor(time)`. */
  lemma ClockFields(time: real)
    requires time >= 0.0
    ensures Minutes(time) >= 0 && 0 <= Seconds(time) < 60
    ensures 60 * Minutes(time) + Seconds(time) == time.Floor
  {
    var m := Minutes(time);
    assert Trunc(time / 60.0) == m;
    var rem := time - 60.0 * m as real;
    assert JsRemainder(time, 60.0) == rem;
    assert 0.0 <= rem < 60.0;
    assert rem.Floor == time.Floor - 60 * m;
  }

  lemma ParseTwoDigits(tens: nat, units: nat)
    requires tens < 10 && units < 10
    ensures ParseNat([DigitChar(tens), DigitChar(units)]) == 10 * tens + units
  {
    var t := [DigitChar(tens), DigitChar(units)];
    var first := [DigitChar(tens)];
    assert first[..0] == [];
    assert ParseNat(first) == DigitValue(DigitChar(tens)) == tens;
    assert t[..1] == first;
    assert ParseNat(t) == ParseNat(first) * 10 + DigitValue(DigitChar(units));
  }

  lemma ParseClockOfParts(head: string, tail: string)
    requires |head| >= 1 && AllDigits(head)
    requires |tail| == 2 && AllDigits(tail)
    ensures ParseClock(head + ":" + tail) == Some((ParseNat(head), ParseNat(tail)))
  {
    var s := head + ":" + tail;
    assert s[..|s| - 3] == head;
    assert s[|s| - 2..] == tail;
    assert s[|s| - 3] == ':';
  }

  lemma {:induction false} ParseClockOfFields(m: nat, sec: nat)
    requires sec < 60
    ensures ParseClock(NatToString(m) + ":" + PadStart(NatToString(sec), 2, '0')) == Some((m, sec))
  {
    var tens, units := sec / 10, sec % 10;
    assert 10 * tens + units == sec && tens < 10 && units < 10;
    TwoPlaces(sec);
    var head, tail := NatToString(m), [DigitChar(tens), DigitChar(units)];
    assert PadStart(NatToString(sec), 2, '0') == tail;
    ParseTwoDigits(tens, units);
    ParseNatToString(m);
    ParseClockOfParts(head, tail);
  }

  /**
   * For a non-negative time the clock is `floor(t/60)`, a colon and a
   * two-digit seconds field below 60, and parsing it gives back the minutes
   * and seconds of `floor(t)`.
   */
  lemma {:induction false} FormatTimeRoundTrip(time: real)
    requires time >= 0.0
    ensures var r := ParseClock(FormatTime(time));
            && r.Some?
            && r.value.0 == Minutes(time)
            && r.value.1 < 60
            && 60 * r.value.0 + r.value.1 == time.Floor
  {
    ClockFields(time);
    ParseClockOfFields(Minutes(time), Seconds(time));
  }

  // ---------------------------------------------------------------- bitrate

  /** `Math.round(bitrate / 1000)`: kilobits per second, halves rounded up. */
  function RoundKbps(bitrate: nat): (kbps: nat)
    ensures 1000 * kbps <= bitrate + 500 < 1000 * kbps + 1000
  {
    (bitrate + 500) / 1000
  }

  /** `formatBitrate`: empty for an absent or zero bitrate, otherwise ` (K kbps)`. */
  function FormatBitrate(bitrate: Option<nat>): (s: string)
    ensures s == "" <==> !Truthy(bitrate)
    ensures Truthy(bitrate) ==> |s| > 8 && s[..2] == " (" && s[|s| - 6..] == " kbps)"
  {
    if !Truthy(bitrate) then "" else " (" + NatToString(RoundKbps(bitrate.value)) + " kbps)"
  }

  /** Reads a ` (K kbps)` suffix back. */
  function ParseBitrateSuffix(s: string): Option<nat> {
    if |s| > 8 && s[..2] == " (" && s[|s| - 6..] == " kbps)" && AllDigits(s[2..|s| - 6])
    then Some(ParseNat(s[2..|s| - 6]))
    else None
  }

  lemma FormatBitrateRoundTrip(bitrate: Option<nat>)
    ensures FormatBitrate(bitrate) == "" <==> !Truthy(bitrate)
    ensures ParseBitrateSuffix(FormatBitrate(bitrate))
            == if Truthy(bitrate) then Some(RoundKbps(bitrate.value)) else None
  {
    if Truthy(bitrate) {
      var k := RoundKbps(bitrate.value);
      var s := FormatBitrate(bitrate);
      assert s[2..|s| - 6] == NatToString(k);
      ParseNatToString(k);
    }
  }

  // ---------------------------------------------------------------- label

  /** `createQualityLabel`: `{h}p` when the level has a height, else `Quality {index+1}`, then the bitrate suffix. */
  function CreateQualityLabel(level: EngineLevel, index: nat): (caption: string)
    ensures Truthy(level.height) ==>
              var d := NatToString(level.height.value);
              |d| < |caption| && caption[..|d|] == d && caption[|d|] == 'p'
    ensures !Truthy(level.height) ==> |caption| > 8 && caption[..8] == "Quality "
  {
    if Truthy(level.height)
    then NatToString(level.height.value) + "p" + FormatBitrate(Some(level.bitrate))
    else "Quality " + NatToString(index + 1) + FormatBitrate(Some(level.bitrate))
  }

  /** The height a label announces: a numeral directly followed by `p`. */
  function LabelHeight(caption: string): Option<nat> {
    var d := LeadingDigits(caption);
    if d != [] && |d| < |caption| && caption[|d|] == 'p' then Some(ParseNat(d)) else None
  }

  /** The ordinal a height-less label announces: the numeral after `Quality `. */
  function LabelOrdinal(caption: string): Option<nat> {
    if |caption| > 8 && caption[..8] == "Quality " && LeadingDigits(caption[8..]) != []
    then Some(ParseNat(LeadingDigits(caption[8..])))
    else None
  }

  lemma {:induction false} HeightLabelParts(h: nat, suffix: string)
    ensures LabelHeight(NatToString(h) + "p" + suffix) == Some(h)
    ensures LabelOrdinal(NatToString(h) + "p" + suffix) == None
  {
    var d := NatToString(h);
    var caption := d + "p" + suffix;
    assert caption == d + ("p" + suffix);
    LeadingDigitsOfNumeral(d, "p" + suffix);
    ParseNatToString(h);
    assert caption[|d|] == 'p';
    assert |caption| > 8 ==> caption[..8] != "Quality " by {
      assert IsDigit(caption[0]);
    }
  }

  lemma {:induction false} OrdinalLabelParts(n: nat, suffix: string)
    requires suffix == [] || suffix[0] == ' '
    ensures LabelHeight("Quality " + NatToString(n) + suffix) == None
    ensures LabelOrdinal("Quality " + NatToString(n) + suffix) == Some(n)
  {
    var d := NatToString(n);
    var caption := "Quality " + d + suffix;
    assert caption[8..] == d + suffix;
    assert caption[..8] == "Quality ";
    LeadingDigitsOfNumeral(d, suffix);
    ParseNatToString(n);
    assert !IsDigit(caption[0]);
  }

  /**
   * A label announces the level's height exactly when it has one, and the
   * 1-based position `index + 1` exactly when it has none; in both cases it
   * ends with the level's bitrate suffix.
   */
  lemma {:induction false} LabelRoundTrip(level: EngineLevel, index: nat)
    ensures var caption := CreateQualityLabel(level, index);
            && LabelHeight(caption) == (if Truthy(level.height) then Some(level.height.value) else None)
            && LabelOrdinal(caption) == (if Truthy(level.height) then None else Some(index + 1))
            && |FormatBitrate(Some(level.bitrate))| <= |caption|
            && caption[|caption| - |FormatBitrate(Some(level.bitrate))|..] == FormatBitrate(Some(level.bitrate))
  {
    var suffix := FormatBitrate(Some(level.bitrate));
    if Truthy(level.height) {
      HeightLabelParts(level.height.value, suffix);
    } else {
      OrdinalLabelParts(index + 1, suffix);
    }
  }
}
