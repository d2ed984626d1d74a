/** How the settings window turns one stored value into what a field shows
    (`load_settings`) and what a field shows back into the value it stores
    (`apply_settings`): the kind of each (section, label) field, the
    value/unit parsers behind the regular expressions of the loader, and the
    per-kind rules of both directions. */
module FieldRules {
  import opened Wrappers
  import opened Text
  import opened Dicts
  import opened DisplayMap

  const GENERATOR_CONFIG: string := "Generator Config"
  const GENERATOR_FUNCTION: string := "Generator Function"
  const ANALYZER_CONFIG: string := "Analyzer Config"
  const ANALYZER_FUNCTION: string := "Analyzer Function"

  const OUTPUT_TYPE: string := "Output Type (Unbal/Bal)"
  const IMPEDANCE: string := "Impedance"

  // ---------------------------------------------------------------------
  // Value/unit parsing

  /** The class `[\-\d\.]` (and `[\d\.\-]`) of the number group. */
  predicate IsNumberChar(c: char) { IsDigit(c) || c == '-' || c == '.' }

  /** The class `[a-zA-Zμ]` of the unit group of the voltage fields. */
  predicate IsVoltLetter(c: char) { IsAsciiLetter(c) || c == 'μ' }

  /** A successful match: the number group and the unit group, if it took
      part. */
  datatype Parsed = Parsed(num: string, unit: Option<string>)

  /** `re.match(r"^([\-\d\.]+)\s*(U+)?$", s)` with `U` the class given by
      `letter`: a run of number characters from the very start, optional
      whitespace, then either nothing or a run of unit letters, and `$` also
      accepts a single final newline. */
  function MatchCompact(s: string, letter: char -> bool): (r: Option<Parsed>)
    ensures r.Some? ==> r.value.num != [] && StartsWith(s, r.value.num)
    ensures r.Some? ==> forall i :: 0 <= i < |r.value.num| ==> IsNumberChar(r.value.num[i])
    ensures r.Some? && r.value.unit.Some? ==> r.value.unit.value != [] && forall i :: 0 <= i < |r.value.unit.value| ==> letter(r.value.unit.value[i])
  {
    var n := PrefixLen(s, IsNumberChar);
    var rest := TrimStart(s[n..], IsSpace);
    var k := PrefixLen(rest, letter);
    if n == 0 then None
    else if rest == [] then Some(Parsed(s[..n], None))
    else if k > 0 && (k == |rest| || (k + 1 == |rest| && rest[k] == '\n')) then Some(Parsed(s[..n], Some(rest[..k])))
    else None
  }

  /** The first entry of `alts` that equals `u` ignoring case. */
  function FirstIgnoreCase(u: string, alts: seq<string>): (r: Option<string>)
    ensures r.Some? ==> r.value in alts && EqualsIgnoreCase(u, r.value)
    ensures r.None? ==> forall a :: a in alts ==> !EqualsIgnoreCase(u, a)
  {
    if alts == [] then None
    else if EqualsIgnoreCase(u, alts[0]) then Some(alts[0])
    else FirstIgnoreCase(u, alts[1..])
  }

  /** `re.match(r"^\s*([\d\.\-]+)\s*(A|B|...)?\s*$", s, re.IGNORECASE)`: the
      unit group, when present, is the rest of the line with trailing
      whitespace dropped and must equal one alternative ignoring case; it is
      returned as typed. */
  function MatchSpaced(s: string, alts: seq<string>): (r: Option<Parsed>)
    ensures r.Some? ==> r.value.num != [] && forall i :: 0 <= i < |r.value.num| ==> IsNumberChar(r.value.num[i])
    ensures r.Some? && r.value.unit.Some? ==> FirstIgnoreCase(r.value.unit.value, alts).Some?
  {
    var t := TrimStart(s, IsSpace);
    var n := PrefixLen(t, IsNumberChar);
    var rest := TrimStart(t[n..], IsSpace);
    var u := TrimEnd(rest, IsSpace);
    if n == 0 then None
    else if rest == [] then Some(Parsed(t[..n], None))
    else if FirstIgnoreCase(u, alts).Some? then Some(Parsed(t[..n], Some(u)))
    else None
  }

  /** `re.match(r"^\s*([\d\.\-]+)\s*([a-zA-Z]+)?\s*$", s)`, the pattern of
      the Resolution field. */
  function MatchWord(s: string): (r: Option<Parsed>)
    ensures r.Some? ==> r.value.num != [] && forall i :: 0 <= i < |r.value.num| ==> IsNumberChar(r.value.num[i])
    ensures r.Some? && r.value.unit.Some? ==> r.value.unit.value != [] && forall i :: 0 <= i < |r.value.unit.value| ==> IsAsciiLetter(r.value.unit.value[i])
  {
    var t := TrimStart(s, IsSpace);
    var n := PrefixLen(t, IsNumberChar);
    var rest := TrimStart(t[n..], IsSpace);
    var k := PrefixLen(rest, IsAsciiLetter);
    if n == 0 then None
    else if rest == [] then Some(Parsed(t[..n], None))
    else if k > 0 && TrimStart(rest[k..], IsSpace) == [] then Some(Parsed(t[..n], Some(rest[..k])))
    else None
  }

  /** A number, a separator of whitespace and a run of unit letters that are
      neither whitespace nor number characters. */
  predicate NumberText(num: string) {
    num != [] && forall i :: 0 <= i < |num| ==> IsNumberChar(num[i])
  }

  predicate UnitText(unit: string, letter: char -> bool) {
    unit != [] && forall i :: 0 <= i < |unit| ==> letter(unit[i]) && !IsSpace(unit[i]) && !IsNumberChar(unit[i])
  }

  lemma NumberNotSpace(num: string)
    requires NumberText(num)
    ensures forall i :: 0 <= i < |num| ==> !IsSpace(num[i])
  {
  }

  /** The compact pattern reads back a number and a unit joined by whitespace. */
  lemma ParsesCompact(num: string, sep: string, unit: string, letter: char -> bool)
    requires NumberText(num) && UnitText(unit, letter)
    requires forall i :: 0 <= i < |sep| ==> IsSpace(sep[i])
    ensures MatchCompact(num + sep + unit, letter) == Some(Parsed(num, Some(unit)))
  {
    var s := num + sep + unit;
    assert s == num + (sep + unit);
    PrefixLenAppend(num, sep + unit, IsNumberChar);
    assert PrefixLen(s, IsNumberChar) == |num|;
    assert s[..|num|] == num;
    assert s[|num|..] == sep + unit;
    PrefixLenAppend(sep, unit, IsSpace);
    assert (sep + unit)[|sep|..] == unit;
    var rest := TrimStart(s[|num|..], IsSpace);
    assert rest == unit;
    PrefixLenAppend(unit, [], letter);
    assert unit + [] == unit;
  }

  /** ... and a number with no unit at all. */
  lemma ParsesBareNumber(num: string, letter: char -> bool)
    requires NumberText(num)
    ensures MatchCompact(num, letter) == Some(Parsed(num, None))
  {
    PrefixLenAppend(num, [], IsNumberChar);
    assert num + [] == num;
  }

  /** The spaced, case-insensitive pattern reads back a number and one
      of its alternatives joined by a space. */
  lemma ParsesSpaced(num: string, unit: string, alts: seq<string>)
    requires NumberText(num) && unit != [] && !IsSpace(unit[0]) && !IsNumberChar(unit[0]) && !IsSpace(unit[|unit| - 1])
    requires FirstIgnoreCase(unit, alts).Some?
    ensures MatchSpaced(num + " " + unit, alts) == Some(Parsed(num, Some(unit)))
  {
    var t := SpacedNumber(num, unit);
    assert SuffixLen(unit, IsSpace) == 0;
    assert unit[..|unit|] == unit;
    assert TrimEnd(unit, IsSpace) == unit;
  }

  /** A string made only of characters satisfying `p` is one whole run. */
  lemma WholeRun(u: string, p: char -> bool)
    requires forall i :: 0 <= i < |u| ==> p(u[i])
    ensures PrefixLen(u, p) == |u| && u[..|u|] == u
  {
    PrefixLenAppend(u, [], p);
    assert u + [] == u;
  }

  /** The first steps of both spaced patterns on `num + " " + unit`: nothing
      to strip in front, and the number run ends where `num` does. */
  lemma SpacedNumber(num: string, unit: string) returns (t: string)
    requires NumberText(num) && unit != [] && !IsSpace(unit[0]) && !IsNumberChar(unit[0])
    ensures t == TrimStart(num + " " + unit, IsSpace) && t == num + " " + unit
    ensures PrefixLen(t, IsNumberChar) == |num| && t[..|num|] == num
    ensures TrimStart(t[|num|..], IsSpace) == unit
  {
    t := num + " " + unit;
    assert t == num + (" " + unit);
    assert PrefixLen(t, IsSpace) == 0;
    PrefixLenAppend(num, " " + unit, IsNumberChar);
    assert t[|num|..] == " " + unit;
    PrefixLenAppend(" ", unit, IsSpace);
    assert (" " + unit)[1..] == unit;
  }

  /** The Resolution pattern reads back a number and a word of letters
      joined by a space. */
  lemma ParsesWord(num: string, unit: string)
    requires NumberText(num) && UnitText(unit, IsAsciiLetter)
    ensures MatchWord(num + " " + unit) == Some(Parsed(num, Some(unit)))
  {
    var t := SpacedNumber(num, unit);
    WholeRun(unit, IsAsciiLetter);
    assert unit[|unit|..] == [];
  }

  // ---------------------------------------------------------------------
  // Unit vocabularies

  const VOLT_UNITS: seq<string> := ["V", "mV", "μV", "dBV", "dBu", "dBm"]
  const VOLTAGE_UNITS: seq<string> := ["V", "mV", "μV", "dBV", "dBu", "dBm", "dBr"]
  const FREQ_UNITS: seq<string> := ["Hz", "kHz"]
  const OHM_ALTERNATIVES: seq<string> := ["kΩ", "Ω", "kohm", "ohm", "kOhm", "Ohm"]
  const TIME_ALTERNATIVES: seq<string> := ["s", "ms", "us", "min"]
  const TOLERANCE_ALTERNATIVES: seq<string> := ["%", "dB"]
  const RESOLUTION_UNITS: seq<string> := ["V", "mV", "uV", "dBV", "dBu", "W", "mW", "uW", "dBm"]

  /** The Delay/Timeout unit shown for each unit code. */
  const TIME_UNIT_DISPLAY: Dict<string> := Dict(["s", "ms", "us", "min"], ["s", "ms", "μs", "min"])

  /** The reverse table the Timeout field spells out by hand. */
  const TIMEOUT_UNIT_REVERSE: Dict<string> := Dict(["s", "ms", "μs", "min"], ["s", "ms", "us", "min"])

  // ---------------------------------------------------------------------
  // Field kinds and widgets

  datatype Field =
    | Choice(table: Dict<string>)          // read-only combobox over a code/display table
    | Unstored(table: Dict<string>)        // the same, but apply never stores the choice
    | Radio(table: Dict<string>, fallback: string)  // radio buttons over the codes
    | Check                                // checkbox on an "ON"/"OFF" string variable
    | Flag                                 // checkbox on a Boolean variable
    | FilterSelect                         // the generator filter combobox
    | Volt(units: seq<string>)             // number entry and voltage unit
    | Freq                                 // number entry and Hz/kHz
    | Ohm                                  // Ref Imped: number entry and Ω/kΩ
    | Delay                                // number entry and time unit
    | Timeout                              // the same, with its own reverse table
    | Tolerance                            // number entry and %/dB
    | Resolution                           // number entry and level unit
    | ImpedanceSlot                        // built after the section, from Output Type
    | Plain                                // plain text entry
  {
    predicate Valid() {
      match this
      case Choice(t) => t.Shaped() && |t.keys| > 0
      case Unstored(t) => t.Shaped() && |t.keys| > 0
      case Volt(units) => |units| > 0
      case _ => true
    }
  }

  /** What a field holds: `shown` is the text a combobox displays. */
  datatype Widget =
    | Combo(shown: string)
    | FilterCombo(shown: string)
    | Var(text: string)
    | BoolVar(on: bool)
    | Pair(val: string, unit: string)
    | Box(text: string)

  /** The widget shape each kind of field is built with. */
  predicate Fits(f: Field, w: Widget) {
    match f
    case Choice(_) => w.Combo?
    case Unstored(_) => w.Combo?
    case Radio(_, _) => w.Var?
    case Check => w.Var?
    case Flag => w.BoolVar?
    case FilterSelect => w.FilterCombo?
    case ImpedanceSlot => w.Combo? || w.Box?
    case Plain => w.Box?
    case _ => w.Pair?
  }

  /** The branch of `load_settings` and of `apply_settings` that a field
      takes, first match wins; both methods check the same (section, label)
      pairs in the same order. */
  function FieldOf(section: string, name: string): (f: Field)
    ensures f.Valid()
    ensures f.ImpedanceSlot? <==> section == GENERATOR_CONFIG && name == IMPEDANCE
  {
    if section == GENERATOR_CONFIG && GeneratorConfigField(name).Some? then GeneratorConfigField(name).value
    else if name == "Low Dist" then Check
    else if section == GENERATOR_FUNCTION then GeneratorFunctionField(name)
    else if section == ANALYZER_CONFIG then AnalyzerConfigField(name)
    else if section == ANALYZER_FUNCTION then AnalyzerFunctionField(name)
    else Plain
  }

  /** The Generator Config branches, which come before every other check. */
  function GeneratorConfigField(name: string): (r: Option<Field>)
    ensures r.Some? ==> r.value.Valid()
    ensures r.Some? && r.value.ImpedanceSlot? <==> name == IMPEDANCE
  {
    if name == "Instrument Generator" then Some(Choice(INSTRUMENT_GENERATOR_OPTIONS))
    else if name == "Channel Generator" then Some(Choice(CHANNEL_GENERATOR_OPTIONS))
    else if name == OUTPUT_TYPE then Some(Choice(OUTPUT_TYPE_OPTIONS))
    else if name == "Common (Float/Ground)" then Some(Radio(COMMON_OPTIONS, "GRO"))
    else if name == IMPEDANCE then Some(ImpedanceSlot)
    else if name == "Bandwidth Generator" then Some(Choice(BANDWIDTH_GENERATOR_OPTIONS))
    else if name == "Volt Range (Auto/Fix)" then Some(Radio(VOLT_RANGE_OPTIONS, "AUTO"))
    else if name == "Max Voltage" || name == "Ref Voltage" then Some(Volt(VOLT_UNITS))
    else if name == "Ref Frequency" then Some(Freq)
    else None
  }

  function GeneratorFunctionField(name: string): (f: Field)
    ensures f.Valid() && !f.ImpedanceSlot?
  {
    if name == "Function Generator" then Choice(FUNCTION_GENERATOR_OPTIONS)
    else if name == "Sweep Ctrl" then Choice(SWEEP_CTRL_OPTIONS)
    else if name == "Next Step" then Choice(NEXT_STEP_OPTIONS)
    else if name == "X Axis" then Choice(X_AXIS_OPTIONS)
    else if name == "Z Axis" then Choice(Z_AXIS_OPTIONS)
    else if name == "Spacing" then Choice(SPACING_OPTIONS)
    else if name == "Start" || name == "Stop" then Freq
    else if name == "Voltage" then Volt(VOLTAGE_UNITS)
    else if name == "Filter" then FilterSelect
    else if name == "Halt" then Choice(HALT_OPTIONS)
    else if name == "Equalizer" || name == "DC Offset" then Check
    else Plain
  }

  function AnalyzerConfigField(name: string): (f: Field)
    ensures f.Valid() && !f.ImpedanceSlot?
  {
    if name == "Instrument Analyzer" then Choice(INSTRUMENT_ANALYZER_OPTIONS)
    else if name == "Channel Analyzer" then Choice(CHANNEL_ANALYZER_OPTIONS)
    else if name == "CH1 Coupling" then Radio(CH1_COUPLING_OPTIONS, "AC")
    else if name == "Bandwidth Analyzer" then Choice(BANDWIDTH_ANALYZER_OPTIONS)
    else if name == "Pre Filter" then Choice(PRE_FILTER_OPTIONS)
    else if name == "CH1 Input" then Choice(CH1_INPUT_OPTIONS)
    else if name == "CH1 Impedance" then Choice(CH1_IMPEDANCE_OPTIONS)
    else if name == "CH1 Ground/Common" then Radio(CH1_COMMON_OPTIONS, "FLOat")
    else if name == "CH1 Range" then Choice(CH1_RANGE_OPTIONS)
    else if name == "Ref Imped" then Ohm
    else if name == "Start Cond" then Unstored(START_COND_OPTIONS)
    else if name == "Delay" then Delay
    else if name == "MAX FFT Size" then Choice(MAX_FFT_SIZE_OPTIONS)
    else Plain
  }

  function AnalyzerFunctionField(name: string): (f: Field)
    ensures f.Valid() && !f.ImpedanceSlot?
  {
    if name == "Function Analyzer" then Choice(FUNCTION_ANALYZER_OPTIONS)
    else if name == "S/N Sequence" then Flag
    else if name == "Meas Time" then Choice(MEAS_TIME_OPTIONS)
    else if name == "Notch(Gain)" then Choice(NOTCH_OPTIONS)
    else if name == "Filter1" then Choice(FILTER1_OPTIONS)
    else if name == "Filter2" then Choice(FILTER2_OPTIONS)
    else if name == "Filter3" then Choice(FILTER3_OPTIONS)
    else if name == "Fnct Settling" then Unstored(FNCT_SETTLING_OPTIONS)
    else if name == "Tolerance" then Tolerance
    else if name == "Resolution" then Resolution
    else if name == "Timeout" then Timeout
    else if name == "Bargraph" || name == "POST FFT" then Flag
    else if name == "Level Monitor" then Choice(LEVEL_MONITOR_OPTIONS)
    else if name == "Second Monitor" then Choice(SECOND_MONITOR_OPTIONS)
    else if name == "Input Monitor" then Choice(INPUT_MONITOR_OPTIONS)
    else if name == "Freq/Phase" then Choice(FREQ_OPTIONS)
    else if name == "Waveform" then Flag
    else Plain
  }

  // ---------------------------------------------------------------------
  // Loading: stored value to widget

  /** The unit a voltage field shows for a parsed unit group. The loader
      offers `units`, which spell micro as `μV`; the spelling `uV` that apply
      writes is read as `μV` (see `VoltUnitAsWritten` for the loader as it
      stands). */
  function VoltUnit(unit: Option<string>, units: seq<string>): (u: string)
    requires |units| > 0
    ensures u in units || (u == "μV" && unit == Some("uV"))
    ensures unit.Some? && unit.value in units ==> u == unit.value
  {
    if unit.Some? && unit.value in units then unit.value
    else if unit == Some("uV") then "μV"
    else units[0]
  }

  /** The loader's own choice: a unit group outside `units` falls back to the
      first unit, `V`. */
  function VoltUnitAsWritten(unit: Option<string>, units: seq<string>): (u: string)
    requires |units| > 0
    ensures u in units
    ensures unit.Some? && unit.value in units ==> u == unit.value
  {
    if unit.Some? && unit.value in units then unit.value else units[0]
  }

  /** Whether a parsed Ref Imped unit names kilo-ohms (`unit_part.lower()`
      starting with `k`, after `ohm`/`Ohm` became `Ω`). */
  predicate IsKilo(unit: Option<string>) {
    unit.Some? && unit.value != [] && LowerChar(unit.value[0]) == 'k'
  }

  function TimeUnit(unit: Option<string>): string {
    var code := Lower(if unit.Some? then unit.value else "s");
    match TIME_UNIT_DISPLAY.Get(code)
    case Some(d) => d
    case None => code
  }

  /** The widget `load_settings` builds for a stored value. The Impedance
      field is not built here: it waits for the end of the section. */
  function Load(f: Field, v: string): (w: Widget)
    requires f.Valid() && !f.ImpedanceSlot?
    ensures Fits(f, w)
  {
    match f
    case Choice(t) => LoadChoice(t, v)
    case Unstored(t) => LoadChoice(t, v)
    case Radio(t, fallback) => Var(if v in t.keys then v else fallback)
    case Check => Var(if Upper(v) == "ON" then "ON" else "OFF")
    case Flag => BoolVar(Upper(v) == "ON")
    case FilterSelect => LoadFilter(v)
    case Volt(units) => LoadVolt(v, units)
    case Freq => LoadFreq(v)
    case Ohm => LoadOhm(v)
    case Delay => LoadTime(v)
    case Timeout => LoadTime(v)
    case Tolerance => LoadTolerance(v)
    case Resolution => LoadResolution(v)
    case Plain => Box(v)
  }

  /** A combobox shows the text of a code, or the value itself. */
  function LoadChoice(t: Dict<string>, v: string): (w: Widget)
    requires t.Shaped()
    ensures w.Combo? && (v in t.keys ==> w.shown in t.vals)
  {
    Combo(match t.Get(v) case Some(d) => d case None => v)
  }

  /** The filter combobox shows the text at the position of the code, or
      the first text. */
  function LoadFilter(v: string): (w: Widget)
    ensures w.FilterCombo? && w.shown in FILTER_OPTIONS.vals
  {
    FilterCombo(match IndexOf(FILTER_OPTIONS.keys, v) case Some(i) => FILTER_OPTIONS.vals[i] case None => FILTER_OPTIONS.vals[0])
  }

  function LoadVolt(v: string, units: seq<string>): (w: Widget)
    requires |units| > 0
    ensures w.Pair?
  {
    match MatchCompact(v, IsVoltLetter)
    case Some(p) => Pair(p.num, VoltUnit(p.unit, units))
    case None => Pair(v, units[0])
  }

  function LoadFreq(v: string): (w: Widget)
    ensures w.Pair? && w.unit in FREQ_UNITS
  {
    match MatchCompact(v, IsAsciiLetter)
    case Some(p) => Pair(p.num, if p.unit.Some? && p.unit.value in FREQ_UNITS then p.unit.value else "Hz")
    case None => Pair(v, "Hz")
  }

  function LoadOhm(v: string): (w: Widget)
    ensures w.Pair? && (w.unit == "Ω" || w.unit == "kΩ")
  {
    match MatchSpaced(v, OHM_ALTERNATIVES)
    case Some(p) => Pair(p.num, if IsKilo(p.unit) then "kΩ" else "Ω")
    case None => Pair(v, "Ω")
  }

  function LoadTime(v: string): (w: Widget)
    ensures w.Pair?
  {
    match MatchSpaced(v, TIME_ALTERNATIVES)
    case Some(p) => Pair(p.num, TimeUnit(p.unit))
    case None => Pair(v, "s")
  }

  function LoadTolerance(v: string): (w: Widget)
    ensures w.Pair?
  {
    match MatchSpaced(v, TOLERANCE_ALTERNATIVES)
    case Some(p) => Pair(p.num, if p.unit.Some? then p.unit.value else "%")
    case None => Pair(v, "%")
  }

  function LoadResolution(v: string): (w: Widget)
    ensures w.Pair?
  {
    match MatchWord(v)
    case Some(p) => Pair(p.num, if p.unit.Some? then p.unit.value else "V")
    case None => Pair(v, "V")
  }

  /** The voltage widget the loader builds as it stands. */
  function LoadVoltAsWritten(v: string, units: seq<string>): (w: Widget)
    requires |units| > 0
    ensures w.Pair? && w.unit in units
  {
    match MatchCompact(v, IsVoltLetter)
    case Some(p) => Pair(p.num, VoltUnitAsWritten(p.unit, units))
    case None => Pair(v, units[0])
  }

  // ---------------------------------------------------------------------
  // Applying: widget to stored value

  /** `f"{val} {unit}" if val else ""` with both parts stripped first. */
  function Compose(val: string, unit: string): (r: string)
    ensures r == [] <==> Strip(val) == []
    ensures r != [] ==> |r| == |Strip(val)| + 1 + |unit| && StartsWith(r, Strip(val)) && r[|Strip(val)|] == ' ' && r[|Strip(val)| + 1..] == unit
  {
    var v := Strip(val);
    if v == [] then [] else v + " " + unit
  }

  /** The micro sign is written in ASCII. */
  function AsciiVolt(unit: string): (u: string)
    ensures unit != "μV" ==> u == unit
    ensures 'μ' !in u || (unit != "μV" && 'μ' in unit)
  {
    if unit == "μV" then "uV" else unit
  }

  /** The unit word written for an Ohm symbol; other spellings pass. */
  function OhmWord(unit: string): (u: string)
    ensures 'Ω' !in u || (unit != "Ω" && unit != "kΩ")
  {
    if unit == "Ω" then "ohm" else if unit == "kΩ" then "kohm" else unit
  }

  /** A Resolution unit outside the offered list becomes the first offered
      unit equal to it ignoring case, when there is one. */
  function CanonicalLevelUnit(unit: string): (u: string)
    ensures EqualsIgnoreCase(u, unit)
    ensures unit in RESOLUTION_UNITS ==> u == unit
    ensures u in RESOLUTION_UNITS <==> unit in RESOLUTION_UNITS || FirstIgnoreCase(unit, RESOLUTION_UNITS).Some?
    ensures u !in RESOLUTION_UNITS ==> u == unit
  {
    if unit in RESOLUTION_UNITS then unit
    else match FirstIgnoreCase(unit, RESOLUTION_UNITS)
      case Some(c) => c
      case None => unit
  }

  /** The code at the position of the shown filter text, or the first
      code, `OFF`. */
  function ApplyFilter(shown: string): (c: string)
    ensures c in FILTER_OPTIONS.keys
  {
    match IndexOf(FILTER_OPTIONS.vals, shown) case Some(i) => FILTER_OPTIONS.keys[i] case None => FILTER_OPTIONS.keys[0]
  }

  function ReverseOr(t: Dict<string>, d: string): string
    requires t.Shaped()
  {
    match InverseGet(t, d) case Some(c) => c case None => d
  }

  /** What `apply_settings` stores for a field, or `None` when the branch
      stores nothing and the value read from the file stays. */
  function Apply(f: Field, w: Widget): (r: Option<string>)
    requires f.Valid() && Fits(f, w)
    ensures r.None? <==> f.Unstored?
  {
    match f
    case Choice(t) => Some(ReverseOr(t, w.shown))
    case Unstored(_) => None
    case Radio(_, _) => Some(w.text)
    case Check => Some(w.text)
    case Flag => Some(if w.on then "ON" else "OFF")
    case FilterSelect => Some(ApplyFilter(w.shown))
    case Volt(_) => Some(Compose(w.val, AsciiVolt(Strip(w.unit))))
    case Freq => Some(Compose(w.val, Strip(w.unit)))
    case Ohm => Some(Compose(w.val, OhmWord(Strip(w.unit))))
    case Delay => Some(Compose(w.val, ReverseOr(TIME_UNIT_DISPLAY, Strip(w.unit))))
    case Timeout => Some(Compose(w.val, match TIMEOUT_UNIT_REVERSE.Get(Strip(w.unit)) case Some(c) => c case None => Strip(w.unit)))
    case Tolerance => Some(Compose(w.val, Strip(w.unit)))
    case Resolution => Some(Compose(w.val, CanonicalLevelUnit(Strip(w.unit))))
    case ImpedanceSlot => Some(if w.Combo? then w.shown else w.text)
    case Plain => Some(w.text)
  }

  // ---------------------------------------------------------------------
  // The Impedance field

  /** `set_impedance_widget`: an unbalanced output shows the fixed `5 Ω`, a
      balanced one a combobox on the stored code, or on `10 Ω` when the code
      is missing or not balanced. */
  function ImpedanceWidget(outputDisplay: string, selected: Option<string>): (w: Widget)
    ensures outputDisplay == "Unbal" ==> w == Box("5 Ω")
    ensures outputDisplay != "Unbal" ==> w.Combo? && w.shown in IMPEDANCE_OPTIONS_BAL.vals
  {
    if outputDisplay == "Unbal" then Box("5 Ω")
    else
      match selected
      case Some(c) =>
        (match IMPEDANCE_OPTIONS_BAL.Get(c) case Some(d) => Combo(d) case None => Combo(IMPEDANCE_OPTIONS_BAL.vals[0]))
      case None => Combo(IMPEDANCE_OPTIONS_BAL.vals[0])
  }

  /** A displayed impedance with spaces removed and letters lower-cased. */
  function Squash(s: string): (r: string)
    ensures ' ' !in r
    ensures forall i :: 0 <= i < |r| ==> !('A' <= r[i] <= 'Z')
  {
    Lower(ReplaceChar(s, ' ', ""))
  }

  /** The first code of `t`, from position `i` on, whose text matches `d`
      ignoring spaces and case. */
  function LooseMatch(t: Dict<string>, d: string, i: nat): (r: Option<string>)
    requires t.Shaped() && i <= |t.keys|
    ensures r.Some? ==> r.value in t.keys
    decreases |t.keys| - i
  {
    if i == |t.keys| then None
    else if Squash(t.vals[i]) == Squash(d) then Some(t.keys[i])
    else LooseMatch(t, d, i + 1)
  }

  /** The code `apply_settings` stores for the Impedance field after the
      loop: for a combobox the exact inverse of its stripped text, else a
      match ignoring spaces and case, else `R10`; anything else is the
      unbalanced `R5`. */
  function ImpedanceCode(w: Widget): (c: string)
    ensures w.Combo? ==> c in IMPEDANCE_OPTIONS_BAL.keys
    ensures !w.Combo? ==> c in IMPEDANCE_OPTIONS_UNBAL.keys
  {
    if w.Combo? then
      var d := Strip(w.shown);
      match InverseGet(IMPEDANCE_OPTIONS_BAL, d)
      case Some(c) => assert c in IMPEDANCE_OPTIONS_BAL.keys; c
      case None => (match LooseMatch(IMPEDANCE_OPTIONS_BAL, d, 0) case Some(c) => c case None => "R10")
    else "R5"
  }
}
