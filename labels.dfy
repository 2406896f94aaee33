/** The text under a rotary slider and the labels of the frequency grid. Both show values
    above 999 in thousands with a "k"; number-to-text conversion is outside this model and
    comes in as a function. */
module Labels {

  /** The kind of parameter behind a slider; a choice parameter knows its current choice's name. */
  datatype ParameterKind = ChoiceParameter(currentChoiceName: string) | FloatParameter | OtherParameter

  /** How a value is shown: the number to print, its decimal places, and whether a "k" goes with it. */
  datatype Reading = Reading(number: real, decimals: nat, kilo: bool)

  /** Values above 999 are shown in thousands with two decimals, all others as they are with
      decimals argument 0. */
  function Scale(value: real): (r: Reading)
    ensures r.kilo <==> value > 999.0
    ensures r.decimals == (if r.kilo then 2 else 0)
    ensures r.number * (if r.kilo then 1000.0 else 1.0) == value
  {
    if value > 999.0 then Reading(value / 1000.0, 2, true) else Reading(value, 0, false)
  }

  /** What follows the number: nothing for an empty suffix, else a space, the "k" if any, the suffix. */
  function UnitText(suffix: string, kilo: bool): (u: string)
    ensures suffix == [] ==> u == []
    ensures suffix != [] ==> |u| == |suffix| + (if kilo then 2 else 1) && u[|u| - |suffix|..] == suffix
    ensures suffix != [] ==> u[..|u| - |suffix|] == (if kilo then " k" else " ")
  {
    if suffix == [] then [] else " " + (if kilo then "k" else "") + suffix
  }

  /** The slider's display string for its current value. */
  function DisplayString(param: ParameterKind, value: real, suffix: string, fmt: (real, nat) -> string): (r: string)
    ensures param.ChoiceParameter? ==> r == param.currentChoiceName
  {
    match param
    case ChoiceParameter(name) => name
    case FloatParameter =>
      var reading := Scale(value);
      fmt(reading.number, reading.decimals) + UnitText(suffix, reading.kilo)
    case OtherParameter =>
      // an unexpected parameter kind: no number, only the unit text
      UnitText(suffix, false)
  }

  /** A float value is printed as value / 1000 with two decimals exactly when it exceeds 999,
      else as itself with decimals argument 0; the number is followed by " k" + suffix or " " + suffix, or by
      nothing at all when the suffix is empty. */
  lemma FloatDisplay(value: real, suffix: string, fmt: (real, nat) -> string)
    ensures var r := DisplayString(FloatParameter, value, suffix, fmt);
            var number := if value > 999.0 then fmt(value / 1000.0, 2) else fmt(value, 0);
            r[..|number|] == number &&
            (suffix == [] ==> r == number) &&
            (suffix != [] ==> r[|number|..] == (if value > 999.0 then " k" else " ") + suffix)
  {
  }

  /** With an empty suffix a value in thousands keeps its two decimals but loses its "k":
      the string is the scaled number alone. */
  lemma EmptySuffixDropsKilo(value: real, fmt: (real, nat) -> string)
    requires value > 999.0
    ensures DisplayString(FloatParameter, value, "", fmt) == fmt(value / 1000.0, 2)
  {
  }

  /** With a frequency suffix the display ends in " kHz" exactly when the value exceeds 999,
      and in " Hz" otherwise. */
  lemma {:induction false} FrequencyDisplayUnits(value: real, fmt: (real, nat) -> string)
    ensures var r := DisplayString(FloatParameter, value, "Hz", fmt);
            (value > 999.0 ==> |r| >= 4 && r[|r| - 4..] == " kHz") &&
            (value <= 999.0 ==> |r| >= 3 && r[|r| - 3..] == " Hz") &&
            (|r| >= 4 && r[|r| - 4..] == " kHz" <==> value > 999.0)
  {
    var r := DisplayString(FloatParameter, value, "Hz", fmt);
    var reading := Scale(value);
    var number := fmt(reading.number, reading.decimals);
    assert r == number + UnitText("Hz", reading.kilo);
    if value > 999.0 {
      assert r[|r| - 4..] == " kHz";
    } else {
      assert r[|r| - 3..] == " Hz";
      assert |r| >= 4 ==> r[|r| - 3] == ' ';
    }
  }

  /** The label of a frequency grid line: the number, a "k" when in thousands, then "Hz". */
  function FrequencyLabel(f: real, fmtDefault: real -> string): (r: string)
    ensures |r| >= 2 && r[|r| - 2..] == "Hz"
  {
    var reading := Scale(f);
    fmtDefault(reading.number) + (if reading.kilo then "k" else "") + "Hz"
  }

  /** Frequencies at which the grid draws a labelled vertical line. */
  const FrequencyGrid: seq<real> := [20.0, 50.0, 100.0, 200.0, 500.0, 1000.0, 2000.0, 5000.0, 10000.0, 20000.0]

  /** The first five grid lines (20 Hz to 500 Hz) are labelled in Hz, the last five
      (1 kHz to 20 kHz) in kHz with the value divided by 1000. */
  function GridLabels(fmtDefault: real -> string): (labels: seq<string>)
    ensures |labels| == |FrequencyGrid|
    ensures forall k :: 0 <= k < 5 ==> labels[k] == fmtDefault(FrequencyGrid[k]) + "Hz"
    ensures forall k :: 5 <= k < 10 ==> labels[k] == fmtDefault(FrequencyGrid[k] / 1000.0) + "kHz"
  {
    seq(|FrequencyGrid|, k requires 0 <= k < |FrequencyGrid| => FrequencyLabel(FrequencyGrid[k], fmtDefault))
  }

  /** The slider text and the grid label agree on when a frequency is shown in kHz. */
  lemma KiloRuleShared(f: real, fmt: (real, nat) -> string, fmtDefault: real -> string)
    ensures var gridText := FrequencyLabel(f, fmtDefault);
            var text := DisplayString(FloatParameter, f, "Hz", fmt);
            f > 999.0 ==> gridText[|gridText| - 3..] == "kHz" && text[|text| - 4..] == " kHz"
  {
  }
}
