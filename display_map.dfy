/** The code/display tables of the GUI: for each enumerated setting, the
    SCPI code the instrument takes and the text the GUI shows for it, in the
    program's order.  The GUI inverts these tables (`{v: k for k, v in
    t.items()}`) to turn a shown choice back into a code. */
module DisplayMap {
  import opened Wrappers
  import opened Dicts

  /** Shorter labels shown in place of some settings labels; display only. */
  const DISPLAY_LABEL_OVERRIDES: Dict<string> := Dict(
    ["Bandwidth Analyzer Config", "Sweep Ctrl Analyzer Config", "Filter1", "Filter2", "Filter3"],
    ["Bandwidth", "Sweep Ctrl", "Filter", "Filter", "Filter"])

  // Generator Config

  const INSTRUMENT_GENERATOR_OPTIONS: Dict<string> := Dict(
    ["ANLG", "DIG", "I2S", "IMP", "U2C"],
    ["Analog", "Digital", "I2S Board", "Digital Impairment", "USI Dual Chan"])

  const CHANNEL_GENERATOR_OPTIONS: Dict<string> := Dict(
    ["OFF", "CH1", "CH2", "CH2Is1"],
    ["Off", "1", "2", "2 = 1"])

  const OUTPUT_TYPE_OPTIONS: Dict<string> := Dict(
    ["UNB", "BAL"],
    ["Unbal", "Bal"])

  const IMPEDANCE_OPTIONS_BAL: Dict<string> := Dict(
    ["R10", "R200", "R600"],
    ["10 Ω", "200 Ω", "600 Ω"])

  const IMPEDANCE_OPTIONS_UNBAL: Dict<string> := Dict(
    ["R5"],
    ["5 Ω"])

  const COMMON_OPTIONS: Dict<string> := Dict(
    ["FLO", "GRO"],
    ["Float", "Ground"])

  const BANDWIDTH_GENERATOR_OPTIONS: Dict<string> := Dict(
    ["B22", "B40", "B80", "AUTO", "SIN185"],
    ["22 kHz", "40 kHz", "80 kHz", "Play Auto", "Sine 185 kHz"])

  const VOLT_RANGE_OPTIONS: Dict<string> := Dict(
    ["AUTO", "FIX"],
    ["Auto", "Fix"])

  // Generator Function

  const FUNCTION_GENERATOR_OPTIONS: Dict<string> := Dict(
    ["SIN", "STER", "MULTI", "BURST", "S2P", "MDIS", "DFD", "DIM", "RAND", "ARB", "PLAY", "PLYA", "POL", "MOD", "DC", "SQU", "CHIR"],
    ["Sine", "Stereo Sine", "Multisine", "Sine Burst", "Sine² Pulse", "Mod Dist", "DFD", "DIM", "Random", "Arbitrary", "Play", "Play+Anlr", "Polarity", "Modulation", "DC", "Square", "Chirp"])

  const LOW_DIST_OPTIONS: Dict<string> := Dict(
    ["OFF", "ON"],
    ["Off", "On"])

  const SWEEP_CTRL_OPTIONS: Dict<string> := Dict(
    ["OFF", "ASW", "ALIS"],
    ["Off", "Auto Sweep", "Auto List"])

  const NEXT_STEP_OPTIONS: Dict<string> := Dict(
    ["ASYN", "LIST", "DWELl"],
    ["Anlr Sync", "Dwell File", "Dwell Value"])

  const X_AXIS_OPTIONS: Dict<string> := Dict(
    ["VOLT", "FREQ"],
    ["Voltage", "Frequency"])

  const Z_AXIS_OPTIONS: Dict<string> := Dict(
    ["OFF", "VOLT", "FREQ"],
    ["Off", "Voltage", "Frequency"])

  const SPACING_OPTIONS: Dict<string> := Dict(
    ["LINP", "LINS", "LOGP", "LOGS"],
    ["Lin Points", "Lin Steps", "Log Points", "Log Steps"])

  const FILTER_OPTIONS: Dict<string> := Dict(
    ["OFF", "UFIL1", "UFIL2", "UFIL3", "UFIL4", "UFIL5", "UFIL6", "UFIL7", "UFIL8", "UFIL9", "AWE", "CARM", "CCIU", "CCIR", "CCIT", "CMES", "DEMP17", "DCN", "DEMP5015", "DEMP75", "IECT", "JITT", "PEMP17", "PEMP50", "PEMP5015", "PEMP75", "HP22", "HP400", "LP22", "LP30", "LP80", "AES17", "CWE", "URUM", "WRUM"],
    ["Off", "Filter 1", "Filter 2", "Filter 3", "Filter 4", "Filter 5", "Filter 6", "Filter 7", "Filter 8", "Filter 9", "A Weighting", "CCIR 2k wtd", "CCIR unwtd", "CCIR 1k wtd", "CCITT", "C Message", "Deemph J.17", "DC Noise HP", "Deemph 50/15", "Deemph 75", "IEC Tuner", "Jitter wtd", "Preemp J.17", "Preemp 50", "Preemp 50/15", "Preemp 75", "High-pass 22 Hz", "High-pass 400 Hz", "Low-pass 22 kHz", "Low-pass 30 kHz", "Low-pass 80 kHz", "AES 17", "C Weighting", "Rumble unwtd", "Rumble wtd"])

  const HALT_OPTIONS: Dict<string> := Dict(
    ["STARt", "VALue", "MUTE"],
    ["Start", "Value", "Mute"])

  // Analyzer Config

  const INSTRUMENT_ANALYZER_OPTIONS: Dict<string> := Dict(
    ["ANLG", "A8CH", "A16CH", "DIG", "I2S", "U2CH", "U8CH", "DIGB"],
    ["Analog", "Analog 8 Chan", "Analog 16 Chan", "Digital", "I2S Board", "USI Dual Chan", "USI 8 Chan", "Dig Bitstream"])

  const CHANNEL_ANALYZER_OPTIONS: Dict<string> := Dict(
    ["CH1", "CH2", "CH1And2", "CH1Is2", "CH2Is1"],
    ["1", "2", "1 & 2", "1 = 2", "2 = 1"])

  const CH1_COUPLING_OPTIONS: Dict<string> := Dict(
    ["AC", "DC"],
    ["AC", "DC"])

  const BANDWIDTH_ANALYZER_OPTIONS: Dict<string> := Dict(
    ["B22", "B40", "B80", "B250"],
    ["22 kHz", "40 kHz", "80 kHz", "250 kHz"])

  const PRE_FILTER_OPTIONS: Dict<string> := Dict(
    ["OFF", "UFIL1", "UFIL2", "UFIL3", "UFIL4", "UFIL5", "UFIL6", "UFIL7", "UFIL8", "UFIL9", "AWE", "CARM", "CCIU", "CCIR", "CCIT", "CMES", "DEMP17", "DCN", "DEMP5015", "DEMP75", "IECT", "JITT", "PEMP17", "PEMP50", "PEMP5015", "PEMP75", "HP22", "HP400", "LP22", "LP30", "LP80", "AES17", "CWE", "URUM", "WRUM"],
    ["Off", "Filter 1", "Filter 2", "Filter 3", "Filter 4", "Filter 5", "Filter 6", "Filter 7", "Filter 8", "Filter 9", "A Weighting", "CCIR 2k wtd", "CCIR unwtd", "CCIR 1k wtd", "CCITT", "C Message", "Deemph J.17", "DC Noise HP", "Deemph 50/15", "Deemph 75", "IEC Tuner", "Jitter wtd", "Preemp J.17", "Preemp 50", "Preemp 50/15", "Preemp 75", "High-pass 22 Hz", "High-pass 400 Hz", "Low-pass 22 kHz", "Low-pass 30 kHz", "Low-pass 80 kHz", "AES 17", "C Weighting", "Rumble unwtd", "Rumble wtd"])

  const CH1_INPUT_OPTIONS: Dict<string> := Dict(
    ["BAL", "GEN1", "GEN2"],
    ["Bal", "GEN CH1", "GEN CH2"])

  const CH1_IMPEDANCE_OPTIONS: Dict<string> := Dict(
    ["R300", "R600", "R200K"],
    ["300 Ω", "600 Ω", "200 KΩ"])

  const CH1_COMMON_OPTIONS: Dict<string> := Dict(
    ["FLO", "GRO"],
    ["Float", "Ground"])

  const CH1_RANGE_OPTIONS: Dict<string> := Dict(
    ["AUTO", "FIXed", "LOWer"],
    ["Auto", "Fixed", "Lower"])

  const START_COND_OPTIONS: Dict<string> := Dict(
    ["AUTO", "TIM", "TCH", "CH1F", "CH1R", "CH1L", "CH1T", "CH1E"],
    ["Auto", "Time Tick", "Time Chart", "Freq Ch1", "Freq Fast Ch1", "Volt Ch1", "Lev Trig Ch1", "Edge Trig Ch1"])

  const MAX_FFT_SIZE_OPTIONS: Dict<string> := Dict(
    ["S512", "S1K", "S2K", "S4K", "S8K", "S16K", "S32K", "S64K", "S128K", "S256K"],
    ["0.5 k", "1 k", "2 k", "4 k", "8 k", "16 k", "32 k", "64 k", "128 k", "256 k"])

  // Analyzer Function

  const FUNCTION_ANALYZER_OPTIONS: Dict<string> := Dict(
    ["OFF", "RMS", "RMSS", "PEAK", "QPE", "SN", "DC", "FFT", "THD", "THDN", "MDIS", "DFD", "DIM", "POL", "RUBB", "REC", "NOCT", "PESQ", "PLUG", "PEAQ", "COH", "POLQ", "CHIR"],
    ["Off", "RMS", "RMS Selective", "Peak", "Quasi Peak", "S/N", "DC", "FFT", "THD", "THD+N SINAD", "Mod DIst", "DFD", "DIM", "Polarity", "RUB Buzz", "Record", "1/n Octave", "PESQ", "PLUGin", "PEAQ", "Transfer Co", "POLQA", "Chirpbased Meas"])

  const MEAS_TIME_OPTIONS: Dict<string> := Dict(
    ["AFASt", "AUTO", "VALue", "GENT"],
    ["Auto Fast", "Auto", "Value", "Gen Track"])

  const NOTCH_OPTIONS: Dict<string> := Dict(
    ["OFF", "DB0", "DB12", "DB30"],
    ["Off", "0 dB", "12 dB Auto", "30 dB Auto"])

  /** The three analyzer filters share one table. */
  const FILTER1_OPTIONS: Dict<string> := FILTER_OPTIONS
  const FILTER2_OPTIONS: Dict<string> := FILTER_OPTIONS
  const FILTER3_OPTIONS: Dict<string> := FILTER_OPTIONS

  const FNCT_SETTLING_OPTIONS: Dict<string> := Dict(
    ["OFF", "EXP", "FLAT", "AVER"],
    ["Off", "Exponential", "Flat", "Average"])

  const LEVEL_MONITOR_OPTIONS: Dict<string> := Dict(
    ["OFF", "LRMS", "DC", "PEAK"],
    ["Off", "RMS", "DC", "Peak"])

  const SECOND_MONITOR_OPTIONS: Dict<string> := Dict(
    ["OFF", "INP", "LEV"],
    ["Off", "Input Monitor", "Level Monitor"])

  const INPUT_MONITOR_OPTIONS: Dict<string> := Dict(
    ["OFF", "PEAK"],
    ["Off", "Peak"])

  const FREQ_OPTIONS: Dict<string> := Dict(
    ["OFF", "FREQ"],
    ["Off", "Frequency"])

  const BANDWIDTH_ANALYZER_CONFIG_OPTIONS: Dict<string> := Dict(
    ["PPCT1", "PPCT3", "POCT12", "PTOC", "PFAS", "PFIXED", "SPCT1", "SPCT3", "SOCT12", "STOC", "SFAS", "SFIX"],
    ["BP 1 %", "BP 3 %", "BP 1/12 Oct", "BP 1/3 Oct", "BP 1/3 Oct Fast", "BP Fixed", "BS 1 %", "BS 3 %", "BS 1/12 Oct", "BS 1/3 Oct", "BS 1/3 Oct Fast", "BS Fixed"])

  const FREQ_MODE_OPTIONS: Dict<string> := Dict(
    ["FIXed", "GENT", "CH1F"],
    ["Fixed", "Gen Track", "Freq Ch1"])

  /** A table whose inversion loses nothing: one display per code and no
      display shared by two codes. */
  predicate Injective(t: Dict<string>) {
    |t.keys| == |t.vals| && Distinct(t.keys) && Distinct(t.vals)
  }

  // The longer tables are shown injective in two halves and the pairs
  // across them.

  lemma InjectiveFromHalves(t: Dict<string>, kh: seq<string>, kt: seq<string>, vh: seq<string>, vt: seq<string>)
    requires t.keys == kh + kt && t.vals == vh + vt && |kh| + |kt| == |vh| + |vt|
    requires Distinct(kh) && Distinct(kt) && Apart(kh, kt)
    requires Distinct(vh) && Distinct(vt) && Apart(vh, vt)
    ensures Injective(t)
  {
    DistinctJoin(kh, kt);
    DistinctJoin(vh, vt);
  }

  ghost const FILTER_CODES_HEAD: seq<string> := ["OFF", "UFIL1", "UFIL2", "UFIL3", "UFIL4", "UFIL5", "UFIL6", "UFIL7", "UFIL8", "UFIL9", "AWE", "CARM", "CCIU", "CCIR", "CCIT", "CMES", "DEMP17"]
  ghost const FILTER_CODES_TAIL: seq<string> := ["DCN", "DEMP5015", "DEMP75", "IECT", "JITT", "PEMP17", "PEMP50", "PEMP5015", "PEMP75", "HP22", "HP400", "LP22", "LP30", "LP80", "AES17", "CWE", "URUM", "WRUM"]
  ghost const FILTER_TEXTS_HEAD: seq<string> := ["Off", "Filter 1", "Filter 2", "Filter 3", "Filter 4", "Filter 5", "Filter 6", "Filter 7", "Filter 8", "Filter 9", "A Weighting", "CCIR 2k wtd", "CCIR unwtd", "CCIR 1k wtd", "CCITT", "C Message", "Deemph J.17"]
  ghost const FILTER_TEXTS_TAIL: seq<string> := ["DC Noise HP", "Deemph 50/15", "Deemph 75", "IEC Tuner", "Jitter wtd", "Preemp J.17", "Preemp 50", "Preemp 50/15", "Preemp 75", "High-pass 22 Hz", "High-pass 400 Hz", "Low-pass 22 kHz", "Low-pass 30 kHz", "Low-pass 80 kHz", "AES 17", "C Weighting", "Rumble unwtd", "Rumble wtd"]

  lemma FilterHalves()
    ensures FILTER_OPTIONS.keys == FILTER_CODES_HEAD + FILTER_CODES_TAIL
    ensures FILTER_OPTIONS.vals == FILTER_TEXTS_HEAD + FILTER_TEXTS_TAIL
  {
  }

  lemma FilterCodesDistinct()
    ensures Distinct(FILTER_CODES_HEAD) && Distinct(FILTER_CODES_TAIL)
  {
  }

  lemma FilterTextsDistinct()
    ensures Distinct(FILTER_TEXTS_HEAD)
  {
  }

  lemma FilterTailTextsDistinct()
    ensures Distinct(FILTER_TEXTS_TAIL)
  {
  }

  lemma FilterCodesApart()
    ensures Apart(FILTER_CODES_HEAD, FILTER_CODES_TAIL)
  {
  }

  lemma FilterTextsApart()
    ensures Apart(FILTER_TEXTS_HEAD, FILTER_TEXTS_TAIL)
  {
  }

  lemma FilterInjective()
    ensures Injective(FILTER_OPTIONS)
  {
    FilterHalves();
    FilterCodesDistinct();
    FilterTextsDistinct();
    FilterTailTextsDistinct();
    FilterCodesApart();
    FilterTextsApart();
    InjectiveFromHalves(FILTER_OPTIONS, FILTER_CODES_HEAD, FILTER_CODES_TAIL, FILTER_TEXTS_HEAD, FILTER_TEXTS_TAIL);
  }

  ghost const FUNCTION_ANALYZER_CODES_HEAD: seq<string> := ["OFF", "RMS", "RMSS", "PEAK", "QPE", "SN", "DC", "FFT", "THD", "THDN", "MDIS"]
  ghost const FUNCTION_ANALYZER_CODES_TAIL: seq<string> := ["DFD", "DIM", "POL", "RUBB", "REC", "NOCT", "PESQ", "PLUG", "PEAQ", "COH", "POLQ", "CHIR"]
  ghost const FUNCTION_ANALYZER_TEXTS_HEAD: seq<string> := ["Off", "RMS", "RMS Selective", "Peak", "Quasi Peak", "S/N", "DC", "FFT", "THD", "THD+N SINAD", "Mod DIst"]
  ghost const FUNCTION_ANALYZER_TEXTS_TAIL: seq<string> := ["DFD", "DIM", "Polarity", "RUB Buzz", "Record", "1/n Octave", "PESQ", "PLUGin", "PEAQ", "Transfer Co", "POLQA", "Chirpbased Meas"]

  lemma FunctionAnalyzerHalves()
    ensures FUNCTION_ANALYZER_OPTIONS.keys == FUNCTION_ANALYZER_CODES_HEAD + FUNCTION_ANALYZER_CODES_TAIL
    ensures FUNCTION_ANALYZER_OPTIONS.vals == FUNCTION_ANALYZER_TEXTS_HEAD + FUNCTION_ANALYZER_TEXTS_TAIL
  {
  }

  lemma FunctionAnalyzerCodesDistinct()
    ensures Distinct(FUNCTION_ANALYZER_CODES_HEAD) && Distinct(FUNCTION_ANALYZER_CODES_TAIL)
  {
  }

  lemma FunctionAnalyzerTextsDistinct()
    ensures Distinct(FUNCTION_ANALYZER_TEXTS_HEAD)
  {
  }

  lemma FunctionAnalyzerTailTextsDistinct()
    ensures Distinct(FUNCTION_ANALYZER_TEXTS_TAIL)
  {
  }

  lemma FunctionAnalyzerCodesApart()
    ensures Apart(FUNCTION_ANALYZER_CODES_HEAD, FUNCTION_ANALYZER_CODES_TAIL)
  {
  }

  lemma FunctionAnalyzerTextsApart()
    ensures Apart(FUNCTION_ANALYZER_TEXTS_HEAD, FUNCTION_ANALYZER_TEXTS_TAIL)
  {
  }

  lemma FunctionAnalyzerInjective()
    ensures Injective(FUNCTION_ANALYZER_OPTIONS)
  {
    FunctionAnalyzerHalves();
    FunctionAnalyzerCodesDistinct();
    FunctionAnalyzerTextsDistinct();
    FunctionAnalyzerTailTextsDistinct();
    FunctionAnalyzerCodesApart();
    FunctionAnalyzerTextsApart();
    InjectiveFromHalves(FUNCTION_ANALYZER_OPTIONS, FUNCTION_ANALYZER_CODES_HEAD, FUNCTION_ANALYZER_CODES_TAIL, FUNCTION_ANALYZER_TEXTS_HEAD, FUNCTION_ANALYZER_TEXTS_TAIL);
  }

  ghost const FUNCTION_GENERATOR_CODES_HEAD: seq<string> := ["SIN", "STER", "MULTI", "BURST", "S2P", "MDIS", "DFD", "DIM"]
  ghost const FUNCTION_GENERATOR_CODES_TAIL: seq<string> := ["RAND", "ARB", "PLAY", "PLYA", "POL", "MOD", "DC", "SQU", "CHIR"]
  ghost const FUNCTION_GENERATOR_TEXTS_HEAD: seq<string> := ["Sine", "Stereo Sine", "Multisine", "Sine Burst", "Sine² Pulse", "Mod Dist", "DFD", "DIM"]
  ghost const FUNCTION_GENERATOR_TEXTS_TAIL: seq<string> := ["Random", "Arbitrary", "Play", "Play+Anlr", "Polarity", "Modulation", "DC", "Square", "Chirp"]

  lemma FunctionGeneratorHalves()
    ensures FUNCTION_GENERATOR_OPTIONS.keys == FUNCTION_GENERATOR_CODES_HEAD + FUNCTION_GENERATOR_CODES_TAIL
    ensures FUNCTION_GENERATOR_OPTIONS.vals == FUNCTION_GENERATOR_TEXTS_HEAD + FUNCTION_GENERATOR_TEXTS_TAIL
  {
  }

  lemma FunctionGeneratorCodesDistinct()
    ensures Distinct(FUNCTION_GENERATOR_CODES_HEAD) && Distinct(FUNCTION_GENERATOR_CODES_TAIL)
  {
  }

  lemma FunctionGeneratorTextsDistinct()
    ensures Distinct(FUNCTION_GENERATOR_TEXTS_HEAD)
  {
  }

  lemma FunctionGeneratorTailTextsDistinct()
    ensures Distinct(FUNCTION_GENERATOR_TEXTS_TAIL)
  {
  }

  lemma FunctionGeneratorCodesApart()
    ensures Apart(FUNCTION_GENERATOR_CODES_HEAD, FUNCTION_GENERATOR_CODES_TAIL)
  {
  }

  lemma FunctionGeneratorTextsApart()
    ensures Apart(FUNCTION_GENERATOR_TEXTS_HEAD, FUNCTION_GENERATOR_TEXTS_TAIL)
  {
  }

  lemma FunctionGeneratorInjective()
    ensures Injective(FUNCTION_GENERATOR_OPTIONS)
  {
    FunctionGeneratorHalves();
    FunctionGeneratorCodesDistinct();
    FunctionGeneratorTextsDistinct();
    FunctionGeneratorTailTextsDistinct();
    FunctionGeneratorCodesApart();
    FunctionGeneratorTextsApart();
    InjectiveFromHalves(FUNCTION_GENERATOR_OPTIONS, FUNCTION_GENERATOR_CODES_HEAD, FUNCTION_GENERATOR_CODES_TAIL, FUNCTION_GENERATOR_TEXTS_HEAD, FUNCTION_GENERATOR_TEXTS_TAIL);
  }

  // One lemma per table keeps each proof small.

  lemma InstrumentGeneratorInjective()
    ensures Injective(INSTRUMENT_GENERATOR_OPTIONS)
  {
  }

  lemma ChannelGeneratorInjective()
    ensures Injective(CHANNEL_GENERATOR_OPTIONS)
  {
  }

  lemma OutputTypeInjective()
    ensures Injective(OUTPUT_TYPE_OPTIONS)
  {
  }

  lemma ImpedanceBalInjective()
    ensures Injective(IMPEDANCE_OPTIONS_BAL)
  {
  }

  lemma ImpedanceUnbalInjective()
    ensures Injective(IMPEDANCE_OPTIONS_UNBAL)
  {
  }

  lemma CommonInjective()
    ensures Injective(COMMON_OPTIONS)
  {
  }

  lemma BandwidthGeneratorInjective()
    ensures Injective(BANDWIDTH_GENERATOR_OPTIONS)
  {
  }

  lemma VoltRangeInjective()
    ensures Injective(VOLT_RANGE_OPTIONS)
  {
  }

  lemma LowDistInjective()
    ensures Injective(LOW_DIST_OPTIONS)
  {
  }

  lemma SweepCtrlInjective()
    ensures Injective(SWEEP_CTRL_OPTIONS)
  {
  }

  lemma NextStepInjective()
    ensures Injective(NEXT_STEP_OPTIONS)
  {
  }

  lemma XAxisInjective()
    ensures Injective(X_AXIS_OPTIONS)
  {
  }

  lemma ZAxisInjective()
    ensures Injective(Z_AXIS_OPTIONS)
  {
  }

  lemma SpacingInjective()
    ensures Injective(SPACING_OPTIONS)
  {
  }

  lemma HaltInjective()
    ensures Injective(HALT_OPTIONS)
  {
  }

  lemma InstrumentAnalyzerInjective()
    ensures Injective(INSTRUMENT_ANALYZER_OPTIONS)
  {
  }

  lemma ChannelAnalyzerInjective()
    ensures Injective(CHANNEL_ANALYZER_OPTIONS)
  {
  }

  lemma Ch1CouplingInjective()
    ensures Injective(CH1_COUPLING_OPTIONS)
  {
  }

  lemma BandwidthAnalyzerInjective()
    ensures Injective(BANDWIDTH_ANALYZER_OPTIONS)
  {
  }

  lemma Ch1InputInjective()
    ensures Injective(CH1_INPUT_OPTIONS)
  {
  }

  lemma Ch1ImpedanceInjective()
    ensures Injective(CH1_IMPEDANCE_OPTIONS)
  {
  }

  lemma Ch1CommonInjective()
    ensures Injective(CH1_COMMON_OPTIONS)
  {
  }

  lemma Ch1RangeInjective()
    ensures Injective(CH1_RANGE_OPTIONS)
  {
  }

  lemma StartCondInjective()
    ensures Injective(START_COND_OPTIONS)
  {
  }

  lemma MaxFftSizeInjective()
    ensures Injective(MAX_FFT_SIZE_OPTIONS)
  {
  }

  lemma MeasTimeInjective()
    ensures Injective(MEAS_TIME_OPTIONS)
  {
  }

  lemma NotchInjective()
    ensures Injective(NOTCH_OPTIONS)
  {
  }

  lemma FnctSettlingInjective()
    ensures Injective(FNCT_SETTLING_OPTIONS)
  {
  }

  lemma LevelMonitorInjective()
    ensures Injective(LEVEL_MONITOR_OPTIONS)
  {
  }

  lemma SecondMonitorInjective()
    ensures Injective(SECOND_MONITOR_OPTIONS)
  {
  }

  lemma InputMonitorInjective()
    ensures Injective(INPUT_MONITOR_OPTIONS)
  {
  }

  lemma FreqInjective()
    ensures Injective(FREQ_OPTIONS)
  {
  }

  lemma BandwidthAnalyzerConfigInjective()
    ensures Injective(BANDWIDTH_ANALYZER_CONFIG_OPTIONS)
  {
  }

  lemma FreqModeInjective()
    ensures Injective(FREQ_MODE_OPTIONS)
  {
  }

  /** No two codes and no two texts coincide in any Generator Config table, so each
      inversion is exact. */
  lemma GeneratorConfigTablesInjective()
    ensures Injective(INSTRUMENT_GENERATOR_OPTIONS)
    ensures Injective(CHANNEL_GENERATOR_OPTIONS)
    ensures Injective(OUTPUT_TYPE_OPTIONS)
    ensures Injective(IMPEDANCE_OPTIONS_BAL)
    ensures Injective(IMPEDANCE_OPTIONS_UNBAL)
    ensures Injective(COMMON_OPTIONS)
    ensures Injective(BANDWIDTH_GENERATOR_OPTIONS)
    ensures Injective(VOLT_RANGE_OPTIONS)
  {
    InstrumentGeneratorInjective();
    ChannelGeneratorInjective();
    OutputTypeInjective();
    ImpedanceBalInjective();
    ImpedanceUnbalInjective();
    CommonInjective();
    BandwidthGeneratorInjective();
    VoltRangeInjective();
  }

  /** No two codes and no two texts coincide in any Generator Function table, so each
      inversion is exact. */
  lemma GeneratorFunctionTablesInjective()
    ensures Injective(FUNCTION_GENERATOR_OPTIONS)
    ensures Injective(LOW_DIST_OPTIONS)
    ensures Injective(SWEEP_CTRL_OPTIONS)
    ensures Injective(NEXT_STEP_OPTIONS)
    ensures Injective(X_AXIS_OPTIONS)
    ensures Injective(Z_AXIS_OPTIONS)
    ensures Injective(SPACING_OPTIONS)
    ensures Injective(FILTER_OPTIONS)
    ensures Injective(HALT_OPTIONS)
  {
    FunctionGeneratorInjective();
    LowDistInjective();
    SweepCtrlInjective();
    NextStepInjective();
    XAxisInjective();
    ZAxisInjective();
    SpacingInjective();
    FilterInjective();
    HaltInjective();
  }

  /** No two codes and no two texts coincide in any Analyzer Config table, so each
      inversion is exact. */
  lemma AnalyzerConfigTablesInjective()
    ensures Injective(INSTRUMENT_ANALYZER_OPTIONS)
    ensures Injective(CHANNEL_ANALYZER_OPTIONS)
    ensures Injective(CH1_COUPLING_OPTIONS)
    ensures Injective(BANDWIDTH_ANALYZER_OPTIONS)
    ensures Injective(PRE_FILTER_OPTIONS)
    ensures Injective(CH1_INPUT_OPTIONS)
    ensures Injective(CH1_IMPEDANCE_OPTIONS)
    ensures Injective(CH1_COMMON_OPTIONS)
    ensures Injective(CH1_RANGE_OPTIONS)
    ensures Injective(START_COND_OPTIONS)
    ensures Injective(MAX_FFT_SIZE_OPTIONS)
  {
    InstrumentAnalyzerInjective();
    ChannelAnalyzerInjective();
    Ch1CouplingInjective();
    BandwidthAnalyzerInjective();
    PreFilterIsFilter();
    FilterInjective();
    Ch1InputInjective();
    Ch1ImpedanceInjective();
    Ch1CommonInjective();
    Ch1RangeInjective();
    StartCondInjective();
    MaxFftSizeInjective();
  }

  /** No two codes and no two texts coincide in any Analyzer Function table, so each
      inversion is exact. */
  lemma AnalyzerFunctionTablesInjective()
    ensures Injective(FUNCTION_ANALYZER_OPTIONS)
    ensures Injective(MEAS_TIME_OPTIONS)
    ensures Injective(NOTCH_OPTIONS)
    ensures Injective(FNCT_SETTLING_OPTIONS)
    ensures Injective(LEVEL_MONITOR_OPTIONS)
    ensures Injective(SECOND_MONITOR_OPTIONS)
    ensures Injective(INPUT_MONITOR_OPTIONS)
    ensures Injective(FREQ_OPTIONS)
    ensures Injective(BANDWIDTH_ANALYZER_CONFIG_OPTIONS)
    ensures Injective(FREQ_MODE_OPTIONS)
  {
    FunctionAnalyzerInjective();
    MeasTimeInjective();
    NotchInjective();
    FnctSettlingInjective();
    LevelMonitorInjective();
    SecondMonitorInjective();
    InputMonitorInjective();
    FreqInjective();
    BandwidthAnalyzerConfigInjective();
    FreqModeInjective();
  }

  /** Inverting an injective table undoes the forward lookup: the shown text
      of a code leads back to that code. */
  lemma InverseOfForward(t: Dict<string>, c: string)
    requires Injective(t) && c in t.keys
    ensures t.Get(c).Some? && InverseGet(t, t.Get(c).value) == Some(c)
  {
    var i := IndexOf(t.keys, c).value;
    var d := t.vals[i];
    FirstIsLast(t.vals, d);
    var j := LastIndexOf(t.vals, d).value;
  }

  /** ... and the forward lookup undoes the inversion: a code found for a text
      shows that text. */
  lemma ForwardOfInverse(t: Dict<string>, d: string)
    requires Injective(t) && InverseGet(t, d).Some?
    ensures t.Get(InverseGet(t, d).value) == Some(d)
  {
    var j := LastIndexOf(t.vals, d).value;
    var c := t.keys[j];
    var i := IndexOf(t.keys, c).value;
  }

  /** The three analyzer filters and the generator filter are one table. */
  lemma FilterAliases()
    ensures FILTER1_OPTIONS == FILTER_OPTIONS && FILTER2_OPTIONS == FILTER_OPTIONS && FILTER3_OPTIONS == FILTER_OPTIONS
  {
  }

  /** The analyzer pre-filter offers the same codes with the same texts, in the
      same order, as the generator filter. */
  lemma PreFilterIsFilter()
    ensures PRE_FILTER_OPTIONS == FILTER_OPTIONS
  {
  }

  /** The generator and the analyzer input offer the same float/ground pair. */
  lemma CommonIsCh1Common()
    ensures COMMON_OPTIONS == CH1_COMMON_OPTIONS
  {
  }

  /** An unbalanced output has the single impedance `R5`, a balanced one
      `R10`, `R200` or `R600`; no code is offered for both. */
  lemma ImpedanceCodes()
    ensures IMPEDANCE_OPTIONS_UNBAL.keys == ["R5"]
    ensures IMPEDANCE_OPTIONS_BAL.keys == ["R10", "R200", "R600"]
    ensures forall c :: c in IMPEDANCE_OPTIONS_UNBAL.keys ==> c !in IMPEDANCE_OPTIONS_BAL.keys
  {
  }

  /** The label overrides are display only: three labels share the text
      "Filter", so inverting the table would send all three to the last. */
  lemma OverridesNotInjective()
    ensures !Injective(DISPLAY_LABEL_OVERRIDES)
    ensures DISPLAY_LABEL_OVERRIDES.Get("Filter1") == DISPLAY_LABEL_OVERRIDES.Get("Filter2") == Some("Filter")
    ensures InverseGet(DISPLAY_LABEL_OVERRIDES, "Filter") == Some("Filter3")
  {
    assert DISPLAY_LABEL_OVERRIDES.vals[2] == DISPLAY_LABEL_OVERRIDES.vals[3];
  }
}
