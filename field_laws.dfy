/** What loading a field and applying it again does to a stored value, kind
    by kind: the round trips of the settings window with no edit in
    between, and the unit spellings each direction accepts and writes. */
module FieldLaws {
  import opened Wrappers
  import opened Text
  import opened Dicts
  import opened DisplayMap
  import opened FieldRules

  /** A string with no whitespace at either end is its own `strip()`. */
  lemma StripPlain(s: string)
    requires s != [] && !IsSpace(s[0]) && !IsSpace(s[|s| - 1])
    ensures Strip(s) == s
  {
    assert PrefixLen(s, IsSpace) == 0;
    assert s[0..] == s;
    assert SuffixLen(s, IsSpace) == 0;
    assert s[..|s|] == s;
  }

  lemma StripNumber(num: string)
    requires NumberText(num)
    ensures Strip(num) == num
  {
    NumberNotSpace(num);
    StripPlain(num);
  }

  /** A number followed by a unit is written as number, one space, unit. */
  lemma ComposeNumber(num: string, unit: string)
    requires NumberText(num)
    ensures Compose(num, unit) == num + " " + unit
  {
    StripNumber(num);
  }

  // ---------------------------------------------------------------------
  // One field kind at a time: what `Load` and `Apply` come to for a kind

  lemma LoadVoltIs(units: seq<string>, v: string)
    requires |units| > 0
    ensures Load(Volt(units), v) == LoadVolt(v, units)
  {
    assert Load(Volt(units), v).Pair?;
  }

  lemma LoadFreqIs(v: string)
    ensures Load(Freq, v) == LoadFreq(v)
  {
    assert Load(Freq, v).Pair?;
  }

  lemma LoadOhmIs(v: string)
    ensures Load(Ohm, v) == LoadOhm(v)
  {
    assert Load(Ohm, v).Pair?;
  }

  lemma LoadTimeIs(v: string)
    ensures Load(Delay, v) == LoadTime(v) && Load(Timeout, v) == LoadTime(v)
  {
    assert Load(Delay, v).Pair? && Load(Timeout, v).Pair?;
  }

  lemma LoadToleranceIs(v: string)
    ensures Load(Tolerance, v) == LoadTolerance(v)
  {
    assert Load(Tolerance, v).Pair?;
  }

  lemma LoadResolutionIs(v: string, num: string, unit: string)
    requires MatchWord(v) == Some(Parsed(num, Some(unit)))
    ensures Load(Resolution, v) == Pair(num, unit)
  {
    var w := Load(Resolution, v);
    assert w == LoadResolution(v) by {
      assert Resolution.Valid() && !Resolution.ImpedanceSlot?;
    }
    assert LoadResolution(v) == Pair(num, unit);
  }

  lemma ApplyVoltIs(units: seq<string>, num: string, u: string)
    requires |units| > 0
    ensures Apply(Volt(units), Pair(num, u)) == Some(Compose(num, AsciiVolt(Strip(u))))
  {
    assert Apply(Volt(units), Pair(num, u)).Some?;
  }

  lemma ApplyFreqIs(num: string, u: string)
    ensures Apply(Freq, Pair(num, u)) == Some(Compose(num, Strip(u)))
    ensures Apply(Tolerance, Pair(num, u)) == Some(Compose(num, Strip(u)))
  {
    assert Apply(Freq, Pair(num, u)).Some? && Apply(Tolerance, Pair(num, u)).Some?;
  }

  lemma ApplyOhmIs(num: string, u: string)
    ensures Apply(Ohm, Pair(num, u)) == Some(Compose(num, OhmWord(Strip(u))))
  {
    assert Apply(Ohm, Pair(num, u)).Some?;
  }

  lemma ApplyTimeIs(num: string, u: string)
    ensures Apply(Delay, Pair(num, u)) == Some(Compose(num, ReverseOr(TIME_UNIT_DISPLAY, Strip(u))))
    ensures Apply(Timeout, Pair(num, u)) == Some(Compose(num, match TIMEOUT_UNIT_REVERSE.Get(Strip(u)) case Some(c) => c case None => Strip(u)))
  {
    assert Apply(Delay, Pair(num, u)).Some? && Apply(Timeout, Pair(num, u)).Some?;
  }

  lemma ApplyResolutionIs(num: string, u: string)
    ensures Apply(Resolution, Pair(num, u)) == Some(Compose(num, CanonicalLevelUnit(Strip(u))))
  {
    assert Apply(Resolution, Pair(num, u)).Some?;
  }

  // ---------------------------------------------------------------------
  // Comboboxes over a code/display table

  /** With no edit, an enumerated field stores back exactly the value it
      was loaded from if and only if that value is a code of the table or
      not one of its texts; a value that is only a text comes back as the
      code showing that text. */
  lemma ChoiceRoundTrip(t: Dict<string>, v: string)
    requires Injective(t) && |t.keys| > 0
    ensures Apply(Choice(t), Load(Choice(t), v)) == Some(v) <==> v in t.keys || v !in t.vals
    ensures v !in t.keys && v in t.vals ==> t.Get(Apply(Choice(t), Load(Choice(t), v)).value) == Some(v)
  {
    if v in t.keys {
      InverseOfForward(t, v);
    } else if v in t.vals {
      ForwardOfInverse(t, v);
      var c := InverseGet(t, v).value;
      assert c in t.keys;
    }
  }

  /** Every enumerated field of the window is over an injective table, so
      the round trip above applies to each. */
  lemma ChoiceTablesInjective(section: string, name: string)
    requires FieldOf(section, name).Choice? || FieldOf(section, name).Unstored?
    ensures Injective(FieldOf(section, name).table)
  {
    if section == GENERATOR_CONFIG && GeneratorConfigField(name).Some? {
      GeneratorConfigChoices(name);
    } else if name == "Low Dist" {
    } else if section == GENERATOR_FUNCTION {
      GeneratorFunctionChoices(name);
    } else if section == ANALYZER_CONFIG {
      AnalyzerConfigChoices(name);
    } else if section == ANALYZER_FUNCTION {
      AnalyzerFunctionChoices(name);
    }
  }

  lemma GeneratorConfigChoices(name: string)
    requires GeneratorConfigField(name).Some?
    requires GeneratorConfigField(name).value.Choice? || GeneratorConfigField(name).value.Unstored?
    ensures Injective(GeneratorConfigField(name).value.table)
  {
    if name == "Instrument Generator" {
      InstrumentGeneratorInjective();
    } else if name == "Channel Generator" {
      ChannelGeneratorInjective();
    } else if name == OUTPUT_TYPE {
      OutputTypeInjective();
    } else if name == "Bandwidth Generator" {
      BandwidthGeneratorInjective();
    }
  }

  lemma GeneratorFunctionChoices(name: string)
    requires GeneratorFunctionField(name).Choice? || GeneratorFunctionField(name).Unstored?
    ensures Injective(GeneratorFunctionField(name).table)
  {
    if name == "Function Generator" {
      FunctionGeneratorInjective();
    } else if name == "Sweep Ctrl" {
      SweepCtrlInjective();
    } else if name == "Next Step" {
      NextStepInjective();
    } else if name == "X Axis" {
      XAxisInjective();
    } else if name == "Z Axis" {
      ZAxisInjective();
    } else if name == "Spacing" {
      SpacingInjective();
    } else if name == "Halt" {
      HaltInjective();
    }
  }

  lemma AnalyzerConfigChoices(name: string)
    requires AnalyzerConfigField(name).Choice? || AnalyzerConfigField(name).Unstored?
    ensures Injective(AnalyzerConfigField(name).table)
  {
    if name == "Instrument Analyzer" {
      InstrumentAnalyzerInjective();
    } else if name == "Channel Analyzer" {
      ChannelAnalyzerInjective();
    } else if name == "Bandwidth Analyzer" {
      BandwidthAnalyzerInjective();
    } else if name == "Pre Filter" {
      PreFilterIsFilter(); FilterInjective();
    } else if name == "CH1 Input" {
      Ch1InputInjective();
    } else if name == "CH1 Impedance" {
      Ch1ImpedanceInjective();
    } else if name == "CH1 Range" {
      Ch1RangeInjective();
    } else if name == "Start Cond" {
      StartCondInjective();
    } else if name == "MAX FFT Size" {
      MaxFftSizeInjective();
    }
  }

  lemma AnalyzerFunctionChoices(name: string)
    requires AnalyzerFunctionField(name).Choice? || AnalyzerFunctionField(name).Unstored?
    ensures Injective(AnalyzerFunctionField(name).table)
  {
    if name == "Function Analyzer" {
      FunctionAnalyzerInjective();
    } else if name == "Meas Time" {
      MeasTimeInjective();
    } else if name == "Notch(Gain)" {
      NotchInjective();
    } else if name == "Filter1" || name == "Filter2" || name == "Filter3" {
      FilterAliases(); FilterInjective();
    } else if name == "Fnct Settling" {
      FnctSettlingInjective();
    } else if name == "Level Monitor" {
      LevelMonitorInjective();
    } else if name == "Second Monitor" {
      SecondMonitorInjective();
    } else if name == "Input Monitor" {
      InputMonitorInjective();
    } else if name == "Freq/Phase" {
      FreqInjective();
    }
  }

  /** A radio field stores back its value when it is a code, and its
      fallback otherwise. */
  lemma RadioRoundTrip(t: Dict<string>, fallback: string, v: string)
    ensures Apply(Radio(t, fallback), Load(Radio(t, fallback), v)) == Some(if v in t.keys then v else fallback)
  {
  }

  /** Both kinds of checkbox store `"ON"` exactly when the value was `on` in
      any letter case, and `"OFF"` otherwise; `"ON"` and `"OFF"` themselves
      come back unchanged. */
  lemma CheckboxRoundTrip(v: string)
    ensures Apply(Check, Load(Check, v)) == Apply(Flag, Load(Flag, v))
    ensures Apply(Check, Load(Check, v)) == Some("ON") <==> Upper(v) == "ON"
    ensures Apply(Check, Load(Check, v)) == Some("ON") || Apply(Check, Load(Check, v)) == Some("OFF")
    ensures v == "ON" || v == "OFF" ==> Apply(Check, Load(Check, v)) == Some(v)
  {
    assert Upper("ON") == "ON";
    assert Upper("OFF") == "OFF";
  }

  /** The filter combobox shows the text at a code's position, and reading
      the code at that text's position gives the code back; anything else
      shows the first text, whose code is `OFF`. */
  lemma FilterCodes(v: string)
    ensures ApplyFilter(LoadFilter(v).shown) == if v in FILTER_OPTIONS.keys then v else "OFF"
  {
    FilterInjective();
    PositionRoundTrip(FILTER_OPTIONS, v);
    assert FILTER_OPTIONS.keys[0] == "OFF";
  }

  /** In a table without repeated codes or texts, the text at a code's
      position leads back to the code, and the first text to the first code. */
  lemma PositionRoundTrip(t: Dict<string>, v: string)
    requires Injective(t) && |t.keys| > 0
    ensures (match IndexOf(t.vals, match IndexOf(t.keys, v) case Some(i) => t.vals[i] case None => t.vals[0])
             case Some(j) => t.keys[j] case None => t.keys[0]) == if v in t.keys then v else t.keys[0]
  {
    match IndexOf(t.keys, v)
    case Some(i) =>
      assert IndexOf(t.vals, t.vals[i]) == Some(i);
    case None =>
      assert IndexOf(t.vals, t.vals[0]) == Some(0);
  }

  lemma LoadFilterIs(v: string)
    ensures Load(FilterSelect, v) == LoadFilter(v)
  {
    assert Load(FilterSelect, v).FilterCombo?;
  }

  lemma ApplyFilterIs(d: string)
    ensures Apply(FilterSelect, FilterCombo(d)) == Some(ApplyFilter(d))
  {
    assert Apply(FilterSelect, FilterCombo(d)).Some?;
  }

  /** The generator filter stores back a filter code unchanged and turns
      anything else into `OFF`. */
  lemma FilterRoundTrip(v: string)
    ensures Apply(FilterSelect, Load(FilterSelect, v)) == Some(if v in FILTER_OPTIONS.keys then v else "OFF")
  {
    LoadFilterIs(v);
    ApplyFilterIs(LoadFilter(v).shown);
    FilterCodes(v);
  }

  // ---------------------------------------------------------------------
  // Number and unit fields

  /** The characters unit words are made of. */
  predicate IsWordChar(c: char) { IsVoltLetter(c) || c == 'Ω' || c == '%' }

  /** A unit word is neither whitespace nor part of a number anywhere, and
      so is its own `strip()`. */
  lemma PlainWord(u: string)
    requires u != [] && forall i :: 0 <= i < |u| ==> IsWordChar(u[i])
    ensures forall i :: 0 <= i < |u| ==> !IsSpace(u[i]) && !IsNumberChar(u[i])
    ensures Strip(u) == u
  {
    assert IsWordChar(u[0]) && IsWordChar(u[|u| - 1]);
    StripPlain(u);
  }

  /** A word of letters is a unit the compact number-and-unit pattern reads. */
  lemma LetterWord(u: string, letter: char -> bool)
    requires u != [] && forall i :: 0 <= i < |u| ==> letter(u[i]) && IsWordChar(u[i])
    ensures UnitText(u, letter) && Strip(u) == u
  {
    PlainWord(u);
  }

  lemma VoltUnitLetters(u: string)
    requires u in VOLTAGE_UNITS
    ensures u != [] && forall i :: 0 <= i < |u| ==> IsVoltLetter(u[i]) && IsWordChar(u[i])
    ensures AsciiVolt(u) != [] && forall i :: 0 <= i < |AsciiVolt(u)| ==> IsAsciiLetter(AsciiVolt(u)[i]) && IsWordChar(AsciiVolt(u)[i])
  {
  }

  /** The voltage units are non-empty words without whitespace, and the
      form each is written in has no `μ` and loads back as that unit. */
  lemma VoltUnitsAreWords(units: seq<string>, u: string)
    requires units == VOLT_UNITS || units == VOLTAGE_UNITS
    requires u in units
    ensures UnitText(AsciiVolt(u), IsVoltLetter) && Strip(u) == u
    ensures 'μ' !in AsciiVolt(u) && VoltUnit(Some(AsciiVolt(u)), units) == u
  {
    var a := AsciiVolt(u);
    VoltUnitLetters(u);
    LetterWord(a, IsVoltLetter);
    LetterWord(u, IsVoltLetter);
    AsciiMicroUnlisted();
  }

  /** The ASCII spelling `uV` is not among the offered units. */
  lemma AsciiMicroUnlisted()
    ensures "uV" !in VOLT_UNITS && "uV" !in VOLTAGE_UNITS
  {
    assert "uV"[0] == 'u';
  }

  /** A character outside both parts is outside the text `num + " " + a`. */
  lemma NotInComposed(c: char, num: string, a: string)
    requires c !in num && c != ' ' && c !in a
    ensures c !in num + " " + a
  {
    assert num + " " + a == num + ([' '] + a);
  }

  lemma FreqUnitsAreWords(u: string)
    requires u in FREQ_UNITS
    ensures UnitText(u, IsAsciiLetter) && Strip(u) == u
  {
    LetterWord(u, IsAsciiLetter);
  }

  /** The text written for a number and a voltage unit, and what the
      corrected loader makes of it. */
  lemma VoltText(units: seq<string>, num: string, u: string) returns (s: string)
    requires units == VOLT_UNITS || units == VOLTAGE_UNITS
    requires NumberText(num) && u in units
    ensures s == num + " " + AsciiVolt(u) && Compose(num, AsciiVolt(Strip(u))) == s
    ensures LoadVolt(s, units) == Pair(num, u)
    ensures 'μ' !in s
  {
    VoltUnitsAreWords(units, u);
    s := VoltWordText(units, num, u);
  }

  /** The same for any unit whose written form is a word that loads back
      as that unit. */
  lemma VoltWordText(units: seq<string>, num: string, u: string) returns (s: string)
    requires |units| > 0 && NumberText(num)
    requires UnitText(AsciiVolt(u), IsVoltLetter) && Strip(u) == u
    requires 'μ' !in AsciiVolt(u) && VoltUnit(Some(AsciiVolt(u)), units) == u
    ensures s == num + " " + AsciiVolt(u) && Compose(num, AsciiVolt(Strip(u))) == s
    ensures LoadVolt(s, units) == Pair(num, u)
    ensures 'μ' !in s
  {
    var a := AsciiVolt(u);
    ComposeNumber(num, a);
    s := num + " " + a;
    VoltWordLoads(units, num, a);
    NumberHasNoMicro(num);
    NotInComposed('μ', num, a);
  }

  lemma VoltWordLoads(units: seq<string>, num: string, a: string)
    requires |units| > 0 && NumberText(num) && UnitText(a, IsVoltLetter)
    ensures LoadVolt(num + " " + a, units) == Pair(num, VoltUnit(Some(a), units))
  {
    ParsesCompact(num, " ", a, IsVoltLetter);
    assert LoadVolt(num + " " + a, units).Pair?;
  }

  lemma NumberHasNoMicro(num: string)
    requires NumberText(num)
    ensures 'μ' !in num
  {
    forall i | 0 <= i < |num| ensures num[i] != 'μ' {
      assert IsNumberChar(num[i]);
    }
  }

  /** Corrected voltage loader: applying a number and any offered unit
      and loading the text again gives back the same number and unit, so
      `μV`, written as `uV`, survives the round trip. */
  lemma VoltRoundTrip(units: seq<string>, num: string, u: string)
    requires units == VOLT_UNITS || units == VOLTAGE_UNITS
    requires NumberText(num) && u in units
    ensures Apply(Volt(units), Pair(num, u)).Some?
    ensures Load(Volt(units), Apply(Volt(units), Pair(num, u)).value) == Pair(num, u)
    ensures 'μ' !in Apply(Volt(units), Pair(num, u)).value
  {
    var s := VoltText(units, num, u);
    ApplyVoltIs(units, num, u);
    LoadVoltIs(units, s);
  }

  lemma VoltWordLoadsAsWritten(units: seq<string>, num: string, a: string)
    requires |units| > 0 && NumberText(num) && UnitText(a, IsVoltLetter)
    ensures LoadVoltAsWritten(num + " " + a, units) == Pair(num, VoltUnitAsWritten(Some(a), units))
  {
    ParsesCompact(num, " ", a, IsVoltLetter);
    assert LoadVoltAsWritten(num + " " + a, units).Pair?;
  }

  /** The loader as it stands reads a number followed by `uV` as volts. */
  lemma MicroAsWritten(num: string)
    requires NumberText(num)
    ensures LoadVoltAsWritten(num + " " + "uV", VOLT_UNITS) == Pair(num, "V")
  {
    VoltUnitsAreWords(VOLT_UNITS, "μV");
    assert AsciiVolt("μV") == "uV";
    VoltWordLoadsAsWritten(VOLT_UNITS, num, "uV");
  }

  /** As the loader stands, the text `"5 uV"` that apply writes for 5 μV,
      or for any other number of microvolts, is read back as 5 V, and
      applying again writes `"5 V"`. */
  lemma VoltMicroLostAsWritten(num: string)
    requires NumberText(num)
    ensures Apply(Volt(VOLT_UNITS), Pair(num, "μV")) == Some(num + " " + "uV")
    ensures LoadVoltAsWritten(num + " " + "uV", VOLT_UNITS) == Pair(num, "V")
    ensures Apply(Volt(VOLT_UNITS), LoadVoltAsWritten(num + " " + "uV", VOLT_UNITS)) == Some(num + " " + "V")
  {
    MicroWritten(num);
    MicroAsWritten(num);
    VoltWritten(num);
  }

  lemma MicroWritten(num: string)
    requires NumberText(num)
    ensures Apply(Volt(VOLT_UNITS), Pair(num, "μV")) == Some(num + " " + "uV")
  {
    var s := VoltText(VOLT_UNITS, num, "μV");
    ApplyVoltIs(VOLT_UNITS, num, "μV");
  }

  lemma VoltWritten(num: string)
    requires NumberText(num)
    ensures Apply(Volt(VOLT_UNITS), Pair(num, "V")) == Some(num + " " + "V")
  {
    var t := VoltText(VOLT_UNITS, num, "V");
    ApplyVoltIs(VOLT_UNITS, num, "V");
  }

  /** A frequency with an offered unit survives apply and load. */
  lemma FreqRoundTrip(num: string, u: string)
    requires NumberText(num) && u in FREQ_UNITS
    ensures Apply(Freq, Pair(num, u)).Some?
    ensures Load(Freq, Apply(Freq, Pair(num, u)).value) == Pair(num, u)
  {
    FreqUnitsAreWords(u);
    ComposeNumber(num, u);
    ApplyFreqIs(num, u);
    var s := num + " " + u;
    ParsesCompact(num, " ", u, IsAsciiLetter);
    LoadFreqIs(s);
    assert LoadFreq(s).unit == u;
  }

  /** The unit alternatives the spaced patterns accept are unit words. */
  lemma AlternativeWord(a: string)
    requires a in OHM_ALTERNATIVES || a in TIME_ALTERNATIVES || a in TOLERANCE_ALTERNATIVES
    ensures a != [] && forall i :: 0 <= i < |a| ==> IsWordChar(a[i])
  {
  }

  /** The unit words `ohm` and `kohm` load as `Ω` and `kΩ`. */
  lemma OhmWordLoads(num: string, w: string)
    requires NumberText(num) && (w == "ohm" || w == "kohm")
    ensures LoadOhm(num + " " + w) == Pair(num, if w == "kohm" then "kΩ" else "Ω")
  {
    assert EqualsIgnoreCase(w, w);
    ParsesVariant(num, w, w, OHM_ALTERNATIVES);
    assert IsKilo(Some(w)) <==> w == "kohm" by { assert w[0] == (if w == "kohm" then 'k' else 'o'); }
  }

  /** Ref Imped is stored with the unit words `ohm` and `kohm`, and those
      words load back as `Ω` and `kΩ`. */
  lemma OhmRoundTrip(num: string, u: string)
    requires NumberText(num) && (u == "Ω" || u == "kΩ")
    ensures Apply(Ohm, Pair(num, u)) == Some(num + " " + (if u == "Ω" then "ohm" else "kohm"))
    ensures Load(Ohm, Apply(Ohm, Pair(num, u)).value) == Pair(num, u)
  {
    assert forall i :: 0 <= i < |u| ==> IsWordChar(u[i]);
    PlainWord(u);
    var w := OhmWord(u);
    assert w == (if u == "Ω" then "ohm" else "kohm");
    ComposeNumber(num, w);
    ApplyOhmIs(num, u);
    OhmWordLoads(num, w);
    LoadOhmIs(num + " " + w);
  }

  /** Lower-casing keeps a character that is not an upper-case ASCII letter,
      so a string equal to one of the unit alternatives ignoring case starts
      and ends with what that alternative starts and ends with, up to case. */
  lemma CaseVariant(u: string, a: string)
    requires EqualsIgnoreCase(u, a) && a != []
    requires !IsSpace(a[0]) && !IsNumberChar(a[0]) && !IsSpace(a[|a| - 1])
    ensures u != [] && !IsSpace(u[0]) && !IsNumberChar(u[0]) && !IsSpace(u[|u| - 1])
    ensures LowerChar(u[0]) == LowerChar(a[0])
  {
    assert |u| == |Lower(u)| == |Lower(a)| == |a|;
    assert Lower(u)[0] == Lower(a)[0];
    assert Lower(u)[|u| - 1] == Lower(a)[|a| - 1];
  }

  /** A typed unit equal to an alternative ignoring case is read by the
      spaced pattern as typed. */
  lemma ParsesVariant(num: string, u: string, a: string, alts: seq<string>)
    requires NumberText(num) && a in alts && EqualsIgnoreCase(u, a)
    requires a in OHM_ALTERNATIVES || a in TIME_ALTERNATIVES || a in TOLERANCE_ALTERNATIVES
    ensures MatchSpaced(num + " " + u, alts) == Some(Parsed(num, Some(u)))
    ensures LowerChar(u[0]) == LowerChar(a[0])
  {
    AlternativeWord(a);
    PlainWord(a);
    CaseVariant(u, a);
    assert FirstIgnoreCase(u, alts).Some?;
    ParsesSpaced(num, u, alts);
  }

  /** Among the Ohm alternatives, the kilo ones are those whose first letter
      lower-cases to `k`. */
  lemma OhmKilo(a: string)
    requires a in OHM_ALTERNATIVES
    ensures a != [] && (LowerChar(a[0]) == 'k' <==> a[0] == 'k')
  {
    assert a[0] == 'k' || a[0] == 'Ω' || a[0] == 'o' || a[0] == 'O';
  }

  /** Any spelling of `ohm`, `kohm`, `Ω` or `kΩ`, in any letter case, loads
      as exactly `Ω` or `kΩ`, and the kilo forms are the ones starting with
      `k`. */
  lemma OhmSpellings(num: string, u: string, a: string)
    requires NumberText(num) && a in OHM_ALTERNATIVES && EqualsIgnoreCase(u, a)
    ensures Load(Ohm, num + " " + u) == Pair(num, if a[0] == 'k' then "kΩ" else "Ω")
  {
    ParsesVariant(num, u, a, OHM_ALTERNATIVES);
    OhmKilo(a);
    LoadOhmIs(num + " " + u);
    assert LoadOhm(num + " " + u).unit == (if a[0] == 'k' then "kΩ" else "Ω");
  }

  /** The time codes are lower-case words, each with a shown unit. */
  lemma TimeCodes(c: string)
    requires c in TIME_ALTERNATIVES
    ensures Lower(c) == c && TIME_UNIT_DISPLAY.Get(c).Some?
  {
  }

  /** Every shown time unit is its own `strip()`, and both reverse tables
      give it the same code, whose shown unit it is. */
  lemma TimeDisplays(u: string)
    requires u in TIME_UNIT_DISPLAY.vals
    ensures Strip(u) == u
    ensures ReverseOr(TIME_UNIT_DISPLAY, u) in TIME_ALTERNATIVES
    ensures TIME_UNIT_DISPLAY.Get(ReverseOr(TIME_UNIT_DISPLAY, u)) == Some(u)
    ensures TIMEOUT_UNIT_REVERSE.Get(u) == Some(ReverseOr(TIME_UNIT_DISPLAY, u))
  {
    TimeDisplayWord(u);
    TimeTables();
    ReverseTableAgrees(TIME_UNIT_DISPLAY, TIMEOUT_UNIT_REVERSE, u);
  }

  lemma TimeDisplayWord(u: string)
    requires u in TIME_UNIT_DISPLAY.vals
    ensures Strip(u) == u
  {
    assert forall i :: 0 <= i < |u| ==> IsWordChar(u[i]);
    PlainWord(u);
  }

  /** The time display table is one-to-one over the time codes, and the
      Timeout reverse table is exactly its inverse. */
  lemma TimeTables()
    ensures Injective(TIME_UNIT_DISPLAY) && TIME_UNIT_DISPLAY.keys == TIME_ALTERNATIVES
    ensures TIMEOUT_UNIT_REVERSE.keys == TIME_UNIT_DISPLAY.vals && TIMEOUT_UNIT_REVERSE.vals == TIME_UNIT_DISPLAY.keys
  {
  }

  /** A table spelled out as the inverse of a one-to-one table agrees with
      the inverse lookup. */
  lemma ReverseTableAgrees(t: Dict<string>, r: Dict<string>, d: string)
    requires Injective(t) && r.keys == t.vals && r.vals == t.keys && d in t.vals
    ensures InverseGet(t, d).Some? && r.Get(d) == InverseGet(t, d)
    ensures InverseGet(t, d).value in t.keys && t.Get(InverseGet(t, d).value) == Some(d)
  {
    FirstIsLast(t.vals, d);
    ForwardOfInverse(t, d);
  }

  /** The Delay field writes the time-unit code of the unit it shows, and
      the code loads back as that shown unit. */
  lemma DelayRoundTrip(num: string, u: string)
    requires NumberText(num) && u in TIME_UNIT_DISPLAY.vals
    ensures Apply(Delay, Pair(num, u)).Some?
    ensures Load(Delay, Apply(Delay, Pair(num, u)).value) == Pair(num, u)
  {
    TimeDisplays(u);
    var c := ReverseOr(TIME_UNIT_DISPLAY, u);
    TimeCodes(c);
    ApplyTimeIs(num, u);
    ComposeNumber(num, c);
    var s := num + " " + c;
    ParsesVariant(num, c, c, TIME_ALTERNATIVES);
    LoadTimeIs(s);
    assert LoadTime(s).unit == u;
  }

  /** ... and so does the Timeout field, whose reverse table spelled out by
      hand gives the same code for every shown unit. */
  lemma TimeoutRoundTrip(num: string, u: string)
    requires NumberText(num) && u in TIME_UNIT_DISPLAY.vals
    ensures Apply(Timeout, Pair(num, u)) == Apply(Delay, Pair(num, u))
    ensures Load(Timeout, Apply(Timeout, Pair(num, u)).value) == Pair(num, u)
  {
    TimeDisplays(u);
    ApplyTimeIs(num, u);
    DelayRoundTrip(num, u);
    LoadTimeIs(Apply(Delay, Pair(num, u)).value);
  }

  /** A time unit typed in any letter case loads as the lower-case unit
      it names, with `us` shown as `μs`. */
  lemma TimeSpellings(num: string, u: string, a: string)
    requires NumberText(num) && a in TIME_ALTERNATIVES && EqualsIgnoreCase(u, a)
    ensures Load(Delay, num + " " + u) == Load(Timeout, num + " " + u)
    ensures Load(Delay, num + " " + u) == Pair(num, TIME_UNIT_DISPLAY.Get(a).value)
  {
    ParsesVariant(num, u, a, TIME_ALTERNATIVES);
    TimeCodes(a);
    assert Lower(u) == a;
    LoadTimeIs(num + " " + u);
    assert LoadTime(num + " " + u).unit == TIME_UNIT_DISPLAY.Get(a).value;
  }

  /** A tolerance with an offered unit survives apply and load. */
  lemma ToleranceRoundTrip(num: string, u: string)
    requires NumberText(num) && u in TOLERANCE_ALTERNATIVES
    ensures Apply(Tolerance, Pair(num, u)).Some?
    ensures Load(Tolerance, Apply(Tolerance, Pair(num, u)).value) == Pair(num, u)
  {
    AlternativeWord(u);
    PlainWord(u);
    ComposeNumber(num, u);
    ApplyFreqIs(num, u);
    var s := num + " " + u;
    ParsesVariant(num, u, u, TOLERANCE_ALTERNATIVES);
    LoadToleranceIs(s);
    assert LoadTolerance(s).unit == u;
  }

  lemma ResolutionUnitLetters(u: string)
    requires u in RESOLUTION_UNITS
    ensures u != [] && forall i :: 0 <= i < |u| ==> IsAsciiLetter(u[i]) && IsWordChar(u[i])
  {
  }

  /** A level with an offered unit survives apply and load ... */
  lemma ResolutionRoundTrip(num: string, u: string)
    requires NumberText(num) && u in RESOLUTION_UNITS
    ensures Apply(Resolution, Pair(num, u)).Some?
    ensures Load(Resolution, Apply(Resolution, Pair(num, u)).value) == Pair(num, u)
  {
    ResolutionUnitLetters(u);
    LetterWord(u, IsAsciiLetter);
    ComposeNumber(num, u);
    ApplyResolutionIs(num, u);
    var s := num + " " + u;
    ParsesWord(num, u);
    LoadResolutionIs(s, num, u);
  }

  /** ... and a unit word outside the offered list, loaded and applied, is
      written in its offered spelling when one matches ignoring case, and
      as typed otherwise. */
  lemma ResolutionSpellings(num: string, u: string)
    requires NumberText(num) && UnitText(u, IsAsciiLetter)
    ensures Apply(Resolution, Load(Resolution, num + " " + u)) == Some(num + " " + CanonicalLevelUnit(u))
  {
    var s := num + " " + u;
    ParsesWord(num, u);
    LoadResolutionIs(s, num, u);
    StripPlain(u);
    ApplyResolutionIs(num, u);
    ComposeNumber(num, CanonicalLevelUnit(u));
  }

  /** The spelling `DBV` the level unit check is there for becomes `dBV`. */
  lemma LevelUnitDBV()
    ensures CanonicalLevelUnit("DBV") == "dBV"
  {
    assert Lower("DBV") == Lower("dBV");
  }

  // ---------------------------------------------------------------------
  // The Impedance field

  /** The Impedance field stores back the balanced code it was built on,
      and the unbalanced field always stores `R5`. */
  lemma ImpedanceRoundTrip(display: string, c: string, selected: Option<string>)
    requires display != "Unbal" && c in IMPEDANCE_OPTIONS_BAL.keys
    ensures ImpedanceCode(ImpedanceWidget(display, Some(c))) == c
    ensures ImpedanceCode(ImpedanceWidget("Unbal", selected)) == "R5"
  {
    ImpedanceBalInjective();
    InverseOfForward(IMPEDANCE_OPTIONS_BAL, c);
    var d := IMPEDANCE_OPTIONS_BAL.Get(c).value;
    StripPlain(d);
  }

  /** Without a balanced code to show, the balanced field shows its first
      impedance and stores `R10`. */
  lemma ImpedanceFallback(display: string, selected: Option<string>)
    requires display != "Unbal"
    requires selected.None? || selected.value !in IMPEDANCE_OPTIONS_BAL.keys
    ensures ImpedanceCode(ImpedanceWidget(display, selected)) == "R10"
  {
    ImpedanceRoundTrip(display, "R10", selected);
  }

  /** A number of ohms, as displayed, squashes to the number and `Ω`. */
  lemma SquashDisplay(n: string)
    requires forall i :: 0 <= i < |n| ==> IsDigit(n[i])
    ensures Squash(n + " Ω") == n + "Ω"
  {
    assert n + " Ω" == n + [' '] + "Ω";
    ReplaceDrop(n, ' ', "Ω");
    LowerKeeps(n + "Ω");
  }

  /** Squashing keeps a first character that is neither a space nor an
      upper-case letter. */
  lemma SquashHead(s: string)
    requires s != [] && s[0] != ' ' && !('A' <= s[0] <= 'Z')
    ensures Squash(s) != [] && Squash(s)[0] == s[0]
  {
    assert ReplaceChar(s, ' ', "") == [s[0]] + ReplaceChar(s[1..], ' ', "");
  }

  /** The balanced impedances start with the digits 1, 2 and 6. */
  lemma ImpedanceDigits()
    ensures |IMPEDANCE_OPTIONS_BAL.vals| == 3
    ensures forall i :: 0 <= i < 3 ==> IMPEDANCE_OPTIONS_BAL.vals[i] != [] && IsDigit(IMPEDANCE_OPTIONS_BAL.vals[i][0])
    ensures IMPEDANCE_OPTIONS_BAL.vals[0][0] == '1' && IMPEDANCE_OPTIONS_BAL.vals[1][0] == '2' && IMPEDANCE_OPTIONS_BAL.vals[2][0] == '6'
  {
  }

  /** The three balanced impedances differ even with spaces removed and
      letters lower-cased: their first digits differ. */
  lemma SquashedImpedances(i: nat, j: nat)
    requires i < j < |IMPEDANCE_OPTIONS_BAL.vals|
    ensures Squash(IMPEDANCE_OPTIONS_BAL.vals[i]) != Squash(IMPEDANCE_OPTIONS_BAL.vals[j])
  {
    ImpedanceDigits();
    var a, b := IMPEDANCE_OPTIONS_BAL.vals[i], IMPEDANCE_OPTIONS_BAL.vals[j];
    assert a[0] != b[0];
    SquashApart(a, b);
  }

  /** Texts that start with different digits differ once squashed. */
  lemma SquashApart(a: string, b: string)
    requires a != [] && b != [] && IsDigit(a[0]) && IsDigit(b[0]) && a[0] != b[0]
    ensures Squash(a) != Squash(b)
  {
    SquashHead(a);
    SquashHead(b);
  }

  /** The search ignoring spaces and case finds the first text that
      matches. */
  lemma {:induction false} LooseFinds(t: Dict<string>, d: string, i: nat, j: nat)
    requires t.Shaped() && i <= j < |t.keys|
    requires Squash(t.vals[j]) == Squash(d)
    requires forall k :: i <= k < j ==> Squash(t.vals[k]) != Squash(d)
    ensures LooseMatch(t, d, i) == Some(t.keys[j])
    decreases j - i
  {
    if i < j {
      LooseFinds(t, d, i + 1, j);
    }
  }

  /** A displayed impedance that matches a balanced one only up to spaces
      and letter case still stores that impedance's code. */
  lemma ImpedanceLoose(c: string, d: string)
    requires c in IMPEDANCE_OPTIONS_BAL.keys
    requires Squash(Strip(d)) == Squash(IMPEDANCE_OPTIONS_BAL.Get(c).value)
    ensures ImpedanceCode(Combo(d)) == c
  {
    var t := IMPEDANCE_OPTIONS_BAL;
    var s := Strip(d);
    match InverseGet(t, s)
    case Some(c') =>
      ImpedanceBalInjective();
      ForwardOfInverse(t, s);
      var i := IndexOf(t.keys, c').value;
      var j := IndexOf(t.keys, c).value;
      assert t.vals[i] == s && t.Get(c) == Some(t.vals[j]);
      if i < j { SquashedImpedances(i, j); } else if j < i { SquashedImpedances(j, i); }
      assert i == j;
      assert ImpedanceCode(Combo(d)) == c';
    case None =>
      var j := IndexOf(t.keys, c).value;
      assert t.Get(c) == Some(t.vals[j]);
      forall k | 0 <= k < j ensures Squash(t.vals[k]) != Squash(s) {
        SquashedImpedances(k, j);
      }
      LooseFinds(t, s, 0, j);
      assert ImpedanceCode(Combo(d)) == t.keys[j];
  }
}
