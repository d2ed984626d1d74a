/** `command_groups`: for each of the four sections of the settings
    document, the SCPI command prefix of every label the GUI shows. */
module CommandGroups {
  import opened Dicts

  const GENERATOR_CONFIG_LABELS: seq<string> :=
    ["Instrument Generator", "Channel Generator", "Output Type (Unbal/Bal)", "Impedance", "Common (Float/Ground)", "Bandwidth Generator", "Volt Range (Auto/Fix)", "Max Voltage", "Ref Voltage", "Ref Frequency"]

  const GENERATOR_CONFIG_PREFIXES: seq<string> :=
    ["INST1", "OUTP:CHAN", "OUTP:TYPE", "OUTP:IMP", "OUTP:LOW", "OUTP:BAND:MODE", "SOUR:VOLT:RANG", "SOUR:VOLT:MAX", "SOUR:VOLT:REF", "SOUR:FREQ:REF"]

  const GENERATOR_FUNCTION_LABELS: seq<string> :=
    ["Function Generator", "Low Dist", "Sweep Ctrl", "Frequency", "Next Step", "X Axis", "Z Axis", "Spacing", "Start", "Stop", "Points", "Halt", "Voltage", "Filter", "Equalizer", "DC Offset"]

  const GENERATOR_FUNCTION_PREFIXES: seq<string> :=
    ["SOUR:FUNC", "SOUR:LOWD", "SOUR:SWE:CONT", "SOUR:FREQ", "SOUR:SWE:NEXT", "SOUR:SWE:XAX", "SOUR:SWE:ZAX", "SOUR:SWE:FREQ:SPAC", "SOUR:SWE:FREQ:STAR", "SOUR:SWE:FREQ:STOP", "SOUR:SWE:FREQ:POIN", "SOUR:SWE:FREQ:HALT", "SOUR:VOLT", "SOUR:FILT", "SOUR:VOLT:EQU", "SOUR:VOLT:OFFS:STAT"]

  const ANALYZER_CONFIG_LABELS: seq<string> :=
    ["Instrument Analyzer", "Channel Analyzer", "CH1 Coupling", "Bandwidth Analyzer", "Pre Filter", "CH1 Input", "CH1 Impedance", "CH1 Ground/Common", "CH1 Range", "Ref Imped", "Start Cond", "Delay", "MAX FFT Size"]

  const ANALYZER_CONFIG_PREFIXES: seq<string> :=
    ["INST2", "INP1:CHAN", "INP1:COUP", "INP1:BAND:MODE", "INP1:FILT", "INP1:TYPE", "INP1:IMP", "INP1:COMM", "SENS:VOLT:RANG1:MODE", "SENS1:POW:REF:RES", "TRIG:SOUR", "TRIG:DEL", "SENS1:MAX:FFT:SIZE"]

  const ANALYZER_FUNCTION_LABELS: seq<string> :=
    ["Function Analyzer", "S/N Sequence", "Meas Time", "Bandwidth Analyzer Config", "Sweep Ctrl Analyzer Config", "Freq Mode", "Factor", "Notch(Gain)", "Filter1", "Filter2", "Filter3", "Fnct Settling", "Samples", "Tolerance", "Resolution", "Timeout", "Bargraph", "POST FFT", "Level Monitor", "Second Monitor", "Input Monitor", "Freq/Phase", "Waveform"]

  const ANALYZER_FUNCTION_PREFIXES: seq<string> :=
    ["SENS1:FUNC", "SENS1:FUNC:SNS", "SENS1:FUNC:APER:MODE", "SENS1:BAND:MODE", "SENS1:SWE:CONT", "SENS1:FREQ:SEL", "SENS1:FREQ:FACT", "SENS1:NOTC", "SENS1:FILT1", "SENS1:FILT2", "SENS1:FILT3", "SENS1:FUNC:SETT:MODE", "SENS1:FUNC:SETT:COUN", "SENS1:FUNC:SETT:TOL", "SENS1:FUNC:SETT:RES", "SENS1:FUNC:SETT:TOUT", "SENS1:FUNC:BARG", "SENS1:FUNC:FFT:STAT", "SENSE6:FUNC", "SENSE2:FUNC:SNDM", "SENSE2:FUNCtion", "SENSE3:FUNCtion", "SENSE7:FUNCtion"]

  const SECTION_NAMES: seq<string> :=
    ["Generator Config", "Generator Function", "Analyzer Config", "Analyzer Function"]

  /** Section name to (label to command prefix), in the program's order. */
  const COMMAND_GROUPS: Dict<Dict<string>> := Dict(SECTION_NAMES, [
    Dict(GENERATOR_CONFIG_LABELS, GENERATOR_CONFIG_PREFIXES),
    Dict(GENERATOR_FUNCTION_LABELS, GENERATOR_FUNCTION_PREFIXES),
    Dict(ANALYZER_CONFIG_LABELS, ANALYZER_CONFIG_PREFIXES),
    Dict(ANALYZER_FUNCTION_LABELS, ANALYZER_FUNCTION_PREFIXES)])

  /** Every section of the table is a dictionary in its own right, no label is
      listed twice in a section, and every prefix is non-empty, so every label
      of the table resolves. */
  ghost predicate WellFormedTable(t: Dict<Dict<string>>) {
    t.Valid()
    && forall j :: 0 <= j < |t.vals| ==>
         t.vals[j].Valid() && forall i :: 0 <= i < |t.vals[j].vals| ==> t.vals[j].vals[i] != ""
  }

  lemma GeneratorConfigDistinct()
    ensures Distinct(GENERATOR_CONFIG_LABELS) && |GENERATOR_CONFIG_LABELS| == |GENERATOR_CONFIG_PREFIXES|
    ensures forall i :: 0 <= i < |GENERATOR_CONFIG_PREFIXES| ==> GENERATOR_CONFIG_PREFIXES[i] != ""
  {
  }

  lemma GeneratorFunctionDistinct()
    ensures Distinct(GENERATOR_FUNCTION_LABELS) && |GENERATOR_FUNCTION_LABELS| == |GENERATOR_FUNCTION_PREFIXES|
    ensures forall i :: 0 <= i < |GENERATOR_FUNCTION_PREFIXES| ==> GENERATOR_FUNCTION_PREFIXES[i] != ""
  {
  }

  lemma AnalyzerConfigDistinct()
    ensures Distinct(ANALYZER_CONFIG_LABELS) && |ANALYZER_CONFIG_LABELS| == |ANALYZER_CONFIG_PREFIXES|
    ensures forall i :: 0 <= i < |ANALYZER_CONFIG_PREFIXES| ==> ANALYZER_CONFIG_PREFIXES[i] != ""
  {
  }

  // The longest label list is shown distinct in two halves.

  ghost const ANALYZER_FUNCTION_LABELS_HEAD: seq<string> :=
    ["Function Analyzer", "S/N Sequence", "Meas Time", "Bandwidth Analyzer Config", "Sweep Ctrl Analyzer Config", "Freq Mode", "Factor", "Notch(Gain)", "Filter1", "Filter2", "Filter3", "Fnct Settling"]

  ghost const ANALYZER_FUNCTION_LABELS_TAIL: seq<string> :=
    ["Samples", "Tolerance", "Resolution", "Timeout", "Bargraph", "POST FFT", "Level Monitor", "Second Monitor", "Input Monitor", "Freq/Phase", "Waveform"]

  lemma AnalyzerFunctionHalves()
    ensures ANALYZER_FUNCTION_LABELS == ANALYZER_FUNCTION_LABELS_HEAD + ANALYZER_FUNCTION_LABELS_TAIL
    ensures Distinct(ANALYZER_FUNCTION_LABELS_HEAD) && Distinct(ANALYZER_FUNCTION_LABELS_TAIL)
  {
  }

  lemma AnalyzerFunctionApart()
    ensures Apart(ANALYZER_FUNCTION_LABELS_HEAD, ANALYZER_FUNCTION_LABELS_TAIL)
  {
  }

  lemma AnalyzerFunctionDistinct()
    ensures Distinct(ANALYZER_FUNCTION_LABELS) && |ANALYZER_FUNCTION_LABELS| == |ANALYZER_FUNCTION_PREFIXES|
    ensures forall i :: 0 <= i < |ANALYZER_FUNCTION_PREFIXES| ==> ANALYZER_FUNCTION_PREFIXES[i] != ""
  {
    AnalyzerFunctionHalves();
    AnalyzerFunctionApart();
    DistinctJoin(ANALYZER_FUNCTION_LABELS_HEAD, ANALYZER_FUNCTION_LABELS_TAIL);
  }

  lemma TableWellFormed()
    ensures WellFormedTable(COMMAND_GROUPS)
  {
    GeneratorConfigDistinct();
    GeneratorFunctionDistinct();
    AnalyzerConfigDistinct();
    AnalyzerFunctionDistinct();
  }
}
