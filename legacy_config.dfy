/** The top-level script `upv_auto_config.py`: a dispatcher that treats every
    key of `settings.json` as a section and resolves labels through one flat
    command map, the `MMEM:LOAD:STAT` setup load, and `main`, which ties the
    saved address, the scan, the setup load and the dispatcher together. */
module LegacyConfig {
  import opened Wrappers
  import opened Text
  import opened Dicts
  import opened Document
  import opened Link
  import opened Dispatch
  import Discovery

  /** `command_map`, in its four blocks: generator configuration, generator
      function, analyzer configuration, measurement function. */
  const GENERATOR_CONFIG_LABELS: seq<string> :=
    ["Instrument", "Channel", "Output Type (Unbal/Bal)", "Impedance", "Bandwidth", "Generator Voltage Range"]
  const GENERATOR_CONFIG_HEADERS: seq<string> :=
    ["SOUR:INP:SEL", "SOUR:CHAN", "OUTP:TYPE", "OUTP:IMP:UNB", "SOUR:BAND", "SOUR:VOLT:RANG"]
  const GENERATOR_FUNCTION_LABELS: seq<string> :=
    ["Waveform Function", "Frequency", "Sweep Mode", "Sweep Type"]
  const GENERATOR_FUNCTION_HEADERS: seq<string> :=
    ["SOUR:FUNC:SHAP", "SOUR:FREQ", "SOUR:SWE:STAT", "SOUR:SWE:TYPE"]
  const ANALYZER_CONFIG_LABELS: seq<string> :=
    ["Analyzer Instrument", "CH1 Coupling", "CH1 Bandwidth", "Pre Filter", "CH1 Input Type", "CH1 Impedance", "CH1 Ground/Common"]
  const ANALYZER_CONFIG_HEADERS: seq<string> :=
    ["CALC:INP:SEL", "INP1:COUP", "INP1:BAND", "INP1:FILT", "INP1:TYPE", "INP1:IMP", "INP1:COMM"]
  const MEASUREMENT_LABELS: seq<string> :=
    ["Measurement Function", "S/N Sequence", "Meas Time Mode", "Notch Filter", "Filter", "Avg Type", "Avg Count"]
  const MEASUREMENT_HEADERS: seq<string> :=
    ["CALC:FUNC:TYPE", "CALC:SEQ", "CALC:TIME:MODE", "CALC:NOTC:STAT", "CALC:FILT:STAT", "CALC:AVER:TYPE", "CALC:AVER:COUN"]

  /** `command_map`: label to SCPI header, one map for every section. */
  const COMMAND_MAP: Dict<string> := Dict(
    GENERATOR_CONFIG_LABELS + GENERATOR_FUNCTION_LABELS + ANALYZER_CONFIG_LABELS + MEASUREMENT_LABELS,
    GENERATOR_CONFIG_HEADERS + GENERATOR_FUNCTION_HEADERS + ANALYZER_CONFIG_HEADERS + MEASUREMENT_HEADERS)

  lemma BlocksDistinct()
    ensures Distinct(GENERATOR_CONFIG_LABELS) && Distinct(GENERATOR_FUNCTION_LABELS)
    ensures Distinct(ANALYZER_CONFIG_LABELS) && Distinct(MEASUREMENT_LABELS)
  {
  }

  lemma GeneratorApart()
    ensures Apart(GENERATOR_CONFIG_LABELS, GENERATOR_FUNCTION_LABELS)
  {
  }

  lemma AnalyzerApart()
    ensures Apart(GENERATOR_CONFIG_LABELS + GENERATOR_FUNCTION_LABELS, ANALYZER_CONFIG_LABELS)
  {
  }

  lemma MeasurementApart()
    ensures Apart(GENERATOR_CONFIG_LABELS + GENERATOR_FUNCTION_LABELS + ANALYZER_CONFIG_LABELS, MEASUREMENT_LABELS)
  {
  }

  /** The map is a Python dictionary and every header is non-empty, so a label
      resolves exactly when it is a key. */
  lemma CommandMapWellFormed()
    ensures COMMAND_MAP.Valid()
    ensures forall i :: 0 <= i < |COMMAND_MAP.vals| ==> COMMAND_MAP.vals[i] != ""
  {
    BlocksDistinct();
    GeneratorApart();
    DistinctJoin(GENERATOR_CONFIG_LABELS, GENERATOR_FUNCTION_LABELS);
    AnalyzerApart();
    DistinctJoin(GENERATOR_CONFIG_LABELS + GENERATOR_FUNCTION_LABELS, ANALYZER_CONFIG_LABELS);
    MeasurementApart();
    DistinctJoin(GENERATOR_CONFIG_LABELS + GENERATOR_FUNCTION_LABELS + ANALYZER_CONFIG_LABELS, MEASUREMENT_LABELS);
  }

  // ---------------------------------------------------------------------
  // The flat dispatcher

  /** Top-level key `j`: announced, then its labels written, or, when its
      value is not an object, `.items()` raises after the announcement. */
  function TopSection(commandMap: Dict<string>, data: Doc, j: nat): Outcome
    requires commandMap.Shaped() && WellFormed(data) && j < |data.keys|
  {
    match data.vals[j]
    case Leaf(_) => Outcome([Note(Applying(data.keys[j]))], false)
    case Group(fields) => Outcome([Note(Applying(data.keys[j]))] + FieldSteps(commandMap, fields, |fields.keys|), true)
  }

  /** The dispatcher over the first `n` top-level keys, stopping at the first
      one that raises. */
  function Legacy(commandMap: Dict<string>, data: Doc, n: nat): Outcome
    requires commandMap.Shaped() && WellFormed(data) && n <= |data.keys|
  {
    if n == 0 then Outcome([], true)
    else
      var o := Legacy(commandMap, data, n - 1);
      if !o.completed then o
      else
        var s := TopSection(commandMap, data, n - 1);
        Outcome(o.steps + s.steps, s.completed)
  }

  /** The `"<scpi> <value>"` writes of the first `m` labels of a section, one
      for each label the map knows. */
  function LabelCommands(commandMap: Dict<string>, fields: Dict<string>, m: nat): seq<string>
    requires commandMap.Shaped() && m <= |fields.keys| == |fields.vals|
  {
    if m == 0 then []
    else
      LabelCommands(commandMap, fields, m - 1) +
        match Resolve(commandMap, fields.keys[m - 1])
        case None => []
        case Some(scpi) => [scpi + " " + fields.vals[m - 1]]
  }

  /** The writes of the first `n` sections, section after section. */
  function SectionCommands(commandMap: Dict<string>, data: Doc, n: nat): seq<string>
    requires commandMap.Shaped() && WellFormed(data) && n <= |data.keys|
  {
    if n == 0 then []
    else
      SectionCommands(commandMap, data, n - 1) +
        match data.vals[n - 1]
        case Leaf(_) => []
        case Group(fields) => LabelCommands(commandMap, fields, |fields.keys|)
  }

  /** Within a section the dispatcher writes exactly the mapped labels, in
      order; an unknown label writes nothing. */
  lemma {:induction false} FieldCommands(commandMap: Dict<string>, fields: Dict<string>, m: nat)
    requires commandMap.Shaped() && m <= |fields.keys| == |fields.vals|
    ensures Commands(FieldSteps(commandMap, fields, m)) == LabelCommands(commandMap, fields, m)
  {
    if m > 0 {
      var x := FieldStep(commandMap, fields.keys[m - 1], fields.vals[m - 1]);
      FieldCommands(commandMap, fields, m - 1);
      CommandsSnoc(FieldSteps(commandMap, fields, m - 1), x);
      FieldStepWrites(commandMap, fields.keys[m - 1], fields.vals[m - 1]);
    }
  }

  /** The dispatcher runs to the end exactly when every top-level value is an
      object: there is no fixed list of sections to fall back on. */
  lemma {:induction false} LegacyCompletes(commandMap: Dict<string>, data: Doc, n: nat)
    requires commandMap.Shaped() && WellFormed(data) && n <= |data.keys|
    ensures Legacy(commandMap, data, n).completed <==> forall j :: 0 <= j < n ==> data.vals[j].Group?
  {
    if n > 0 {
      LegacyCompletes(commandMap, data, n - 1);
    }
  }

  /** When it runs to the end, the dispatcher writes every mapped label of
      every section, sections in data order and labels in section order. */
  lemma {:induction false} LegacyWrites(commandMap: Dict<string>, data: Doc, n: nat)
    requires commandMap.Shaped() && WellFormed(data) && n <= |data.keys|
    requires Legacy(commandMap, data, n).completed
    ensures Commands(Legacy(commandMap, data, n).steps) == SectionCommands(commandMap, data, n)
  {
    if n > 0 {
      var j := n - 1;
      assert Legacy(commandMap, data, j).completed;
      LegacyWrites(commandMap, data, j);
      LegacyNextStep(commandMap, data, j, n);
      CommandsAppend(Legacy(commandMap, data, j).steps, TopSection(commandMap, data, j).steps);
      TopSectionCommands(commandMap, data, j);
    }
  }

  /** The writes of one top-level object are those of its mapped labels. */
  lemma TopSectionCommands(commandMap: Dict<string>, data: Doc, j: nat)
    requires commandMap.Shaped() && WellFormed(data) && j < |data.keys| && data.vals[j].Group?
    ensures Commands(TopSection(commandMap, data, j).steps) ==
      LabelCommands(commandMap, data.vals[j].fields, |data.vals[j].fields.keys|)
  {
    var fields := data.vals[j].fields;
    var head := [Note(Applying(data.keys[j]))];
    var fs := FieldSteps(commandMap, fields, |fields.keys|);
    CommandsAppend(head, fs);
    FieldCommands(commandMap, fields, |fields.keys|);
  }

  /** Once the dispatcher has raised, later keys change nothing. */
  lemma {:induction false} LegacyStopped(commandMap: Dict<string>, data: Doc, k: nat, n: nat)
    requires commandMap.Shaped() && WellFormed(data) && k <= n <= |data.keys|
    requires !Legacy(commandMap, data, k).completed
    ensures Legacy(commandMap, data, n) == Legacy(commandMap, data, k)
    decreases n
  {
    if n > k {
      LegacyStopped(commandMap, data, k, n - 1);
    }
  }

  lemma LegacyNextStep(commandMap: Dict<string>, data: Doc, j: nat, k: nat)
    requires commandMap.Shaped() && WellFormed(data) && j < |data.keys| && k == j + 1
    requires Legacy(commandMap, data, j).completed
    ensures Legacy(commandMap, data, k) ==
      Outcome(Legacy(commandMap, data, j).steps + TopSection(commandMap, data, j).steps, TopSection(commandMap, data, j).completed)
  {
  }

  /** One top-level key. */
  method ApplyTopSection(upv: Instrument, commandMap: Dict<string>, data: Doc, j: nat) returns (log: seq<Event>, ok: bool)
    requires commandMap.Shaped() && WellFormed(data) && j < |data.keys|
    modifies upv
    ensures ok == TopSection(commandMap, data, j).completed
    ensures upv.written == old(upv.written) + Commands(TopSection(commandMap, data, j).steps)
    ensures log == Run(TopSection(commandMap, data, j).steps, |old(upv.written)|, upv.writeFails)
    ensures upv.queried == old(upv.queried)
  {
    var section := data.keys[j];
    match data.vals[j] {
      case Leaf(_) =>
        log, ok := [Applying(section)], false;
      case Group(fields) =>
        log := ApplyObject(upv, commandMap, section, fields);
        ok := true;
    }
  }

  /** One turn of the dispatcher loop, after keys that all completed. */
  method LegacyNext(upv: Instrument, commandMap: Dict<string>, data: Doc, j: nat,
                    ghost w0: seq<string>, ghost done: seq<Step>, log0: seq<Event>)
    returns (log: seq<Event>, ok: bool, ghost done': seq<Step>)
    requires commandMap.Shaped() && WellFormed(data) && j < |data.keys|
    requires Legacy(commandMap, data, j) == Outcome(done, true)
    requires upv.written == w0 + Commands(done)
    requires log0 == Run(done, |w0|, upv.writeFails)
    modifies upv
    ensures Legacy(commandMap, data, j + 1) == Outcome(done', ok)
    ensures upv.written == w0 + Commands(done')
    ensures log == Run(done', |w0|, upv.writeFails)
    ensures upv.queried == old(upv.queried)
  {
    ghost var s := TopSection(commandMap, data, j);
    LegacyNextStep(commandMap, data, j, j + 1);
    Extend(w0, done, s.steps, upv.writeFails);
    var sectionLog;
    sectionLog, ok := ApplyTopSection(upv, commandMap, data, j);
    log := log0 + sectionLog;
    done' := done + s.steps;
  }

  /** `apply_grouped_settings(upv)` of the top-level script over a command
      map: every top-level key in data order, stopping when one raises. */
  method ApplyFlat(upv: Instrument, commandMap: Dict<string>, data: Doc) returns (log: seq<Event>, completed: bool)
    requires commandMap.Shaped() && WellFormed(data)
    modifies upv
    ensures completed == Legacy(commandMap, data, |data.keys|).completed
    ensures upv.written == old(upv.written) + Commands(Legacy(commandMap, data, |data.keys|).steps)
    ensures log == Run(Legacy(commandMap, data, |data.keys|).steps, |old(upv.written)|, upv.writeFails)
    ensures upv.queried == old(upv.queried)
  {
    ghost var w0 := upv.written;
    ghost var done: seq<Step> := [];
    log := [];
    completed := true;
    var j := 0;
    while j < |data.keys| && completed
      invariant 0 <= j <= |data.keys|
      invariant Legacy(commandMap, data, j) == Outcome(done, completed)
      invariant upv.written == w0 + Commands(done)
      invariant log == Run(done, |w0|, upv.writeFails)
      invariant upv.queried == old(upv.queried)
    {
      log, completed, done := LegacyNext(upv, commandMap, data, j, w0, done, log);
      j := j + 1;
    }
    LegacyEnd(commandMap, data, j, Outcome(done, completed));
  }

  /** Where the loop stops, at the end or at a key that raised, its outcome
      is that of the whole walk. */
  lemma LegacyEnd(commandMap: Dict<string>, data: Doc, j: nat, o: Outcome)
    requires commandMap.Shaped() && WellFormed(data) && j <= |data.keys|
    requires Legacy(commandMap, data, j) == o
    requires j == |data.keys| || !o.completed
    ensures Legacy(commandMap, data, |data.keys|) == o
  {
    if j < |data.keys| {
      LegacyStopped(commandMap, data, j, |data.keys|);
    }
  }

  /** `apply_grouped_settings(upv)` of the top-level script. */
  method ApplyGroupedSettings(upv: Instrument, data: Doc) returns (log: seq<Event>, completed: bool)
    requires WellFormed(data)
    modifies upv
    ensures COMMAND_MAP.Shaped()
    ensures completed == Legacy(COMMAND_MAP, data, |data.keys|).completed
    ensures upv.written == old(upv.written) + Commands(Legacy(COMMAND_MAP, data, |data.keys|).steps)
    ensures log == Run(Legacy(COMMAND_MAP, data, |data.keys|).steps, |old(upv.written)|, upv.writeFails)
    ensures upv.queried == old(upv.queried)
  {
    log, completed := ApplyFlat(upv, COMMAND_MAP, data);
  }

  // ---------------------------------------------------------------------
  // The setup load

  /** `SET_FILE_PATH`; Python keeps the backslashes of escapes it does not
      know. */
  const SET_FILE_PATH: string := "C:\\Documents and Settings\\instrument\\Desktop\\COP_Sensitivity.set"

  const SETUP_LOAD_HEADER: string := "MMEM:LOAD:STAT '"

  /** `f"MMEM:LOAD:STAT '{path.replace('\\', '/')}'"`. */
  function SetupLoadCommand(path: string): (cmd: string)
    ensures |cmd| == |SETUP_LOAD_HEADER| + |path| + 1
    ensures cmd[..|SETUP_LOAD_HEADER|] == SETUP_LOAD_HEADER && cmd[|cmd| - 1] == '\''
    ensures forall i :: 0 <= i < |path| ==>
      cmd[|SETUP_LOAD_HEADER| + i] == if path[i] == '\\' then '/' else path[i]
    ensures '\\' !in cmd
  {
    var safe := ReplaceChar(path, '\\', "/");
    ReplaceCharAt(path, '\\', '/');
    SETUP_LOAD_HEADER + safe + "'"
  }

  // ---------------------------------------------------------------------
  // `main`

  datatype Session =
    | NoAddress                            // neither a saved nor a scanned address
    | CommError                            // raised after the address was chosen
    | Configured(log: seq<Event>)          // the settings were applied

  /** `if visa_address:`; an empty address counts as none. */
  predicate Usable(address: Option<string>) {
    address.Some? && address.value != ""
  }

  /** The address `main` connects to: the saved one when usable, else the
      one the scan finds. */
  function ChosenAddress(saved: Option<string>, resources: seq<string>, idn: (nat, string) -> Option<string>): (a: Option<string>)
    ensures Usable(saved) ==> a == saved
    ensures !Usable(saved) ==> a == Discovery.FoundAddress(resources, idn)
  {
    if Usable(saved) then saved else Discovery.FoundAddress(resources, idn)
  }

  /** The address-selection part of `main()`: the saved address when it is
      usable, otherwise a scan, which saves what it finds. */
  method SelectAddress(config: Discovery.ConfigFile, rm: Discovery.ResourceManager) returns (address: Option<string>)
    modifies config, rm
    ensures address == ChosenAddress(old(config.visaAddress), rm.resources, rm.idn)
    ensures Usable(old(config.visaAddress)) ==> rm.probed == old(rm.probed) && config.visaAddress == old(config.visaAddress)
  {
    address := config.Load();
    if !Usable(address) {
      address := Discovery.FindUpvIp(rm, config);
    }
  }

  /** The connection part of `main()`, inside its `try`, for a setup file
      `setFilePath` and a command map.  `opens` says whether
      `rm.open_resource` succeeds, `setFileExists` whether the setup file is
      present, and `data` is the decoded `settings.json`, `None` when it
      cannot be read.  Whatever raises ends the session with `CommError`. */
  method Configure(upv: Instrument, setFilePath: string, commandMap: Dict<string>, opens: bool, setFileExists: bool,
                   data: Option<Doc>) returns (session: Session)
    requires commandMap.Shaped()
    requires data.Some? ==> WellFormed(data.value)
    modifies upv
    ensures !session.NoAddress?
    ensures !opens ==> upv.written == old(upv.written) && upv.queried == old(upv.queried)
    ensures opens ==> upv.queried == old(upv.queried) + ["*IDN?"]
    ensures session.Configured? <==>
      opens && upv.answer(|old(upv.queried)|, "*IDN?").Some? &&
      (setFileExists ==> !upv.writeFails(|old(upv.written)|, SetupLoadCommand(setFilePath))) &&
      data.Some? && forall j :: 0 <= j < |data.value.keys| ==> data.value.vals[j].Group?
    ensures session.Configured? ==>
      var pre := if setFileExists then [SetupLoadCommand(setFilePath)] else [];
      upv.written == old(upv.written) + pre + SectionCommands(commandMap, data.value, |data.value.keys|) &&
      session.log == Run(Legacy(commandMap, data.value, |data.value.keys|).steps, |old(upv.written) + pre|, upv.writeFails)
  {
    ghost var w0 := upv.written;
    var ok := Handshake(upv, setFilePath, opens, setFileExists);
    if !ok || data.None? {
      session := CommError;
    } else {
      var d := data.value;
      ghost var pre := if setFileExists then [SetupLoadCommand(setFilePath)] else [];
      assert upv.written == w0 + pre;
      var log, completed := ApplyFlat(upv, commandMap, d);
      LegacyCompletes(commandMap, d, |d.keys|);
      if completed {
        LegacyWrites(commandMap, d, |d.keys|);
        session := Configured(log);
      } else {
        session := CommError;
      }
    }
  }

  /** The start of the `try` in `main()`: open the instrument, ask `*IDN?`,
      and load the setup file when it exists; `ok` is false when any of
      these raised. */
  method Handshake(upv: Instrument, setFilePath: string, opens: bool, setFileExists: bool) returns (ok: bool)
    modifies upv
    ensures !opens ==> upv.written == old(upv.written) && upv.queried == old(upv.queried)
    ensures opens ==> upv.queried == old(upv.queried) + ["*IDN?"]
    ensures ok <==>
      opens && upv.answer(|old(upv.queried)|, "*IDN?").Some? &&
      (setFileExists ==> !upv.writeFails(|old(upv.written)|, SetupLoadCommand(setFilePath)))
    ensures ok ==> upv.written == old(upv.written) + if setFileExists then [SetupLoadCommand(setFilePath)] else []
  {
    ok := opens;
    if ok {
      var idn := upv.Query("*IDN?");
      ok := idn.Some?;
    }
    if ok && setFileExists {
      ok := upv.Write(SetupLoadCommand(setFilePath));
    }
  }

  /** `main()`: choose the address, give up when there is none, otherwise
      connect and configure.  The script passes `SET_FILE_PATH` as
      `setFilePath`. */
  method RunMain(config: Discovery.ConfigFile, rm: Discovery.ResourceManager, upv: Instrument, opens: bool,
                 setFilePath: string, setFileExists: bool, data: Option<Doc>) returns (session: Session)
    requires data.Some? ==> WellFormed(data.value)
    modifies config, rm, upv
    ensures session.NoAddress? <==> !Usable(ChosenAddress(old(config.visaAddress), rm.resources, rm.idn))
    ensures Usable(old(config.visaAddress)) ==> rm.probed == old(rm.probed) && config.visaAddress == old(config.visaAddress)
    ensures session.NoAddress? ==> upv.written == old(upv.written) && upv.queried == old(upv.queried)
    ensures session.Configured? <==>
      Usable(ChosenAddress(old(config.visaAddress), rm.resources, rm.idn)) &&
      opens && upv.answer(|old(upv.queried)|, "*IDN?").Some? &&
      (setFileExists ==> !upv.writeFails(|old(upv.written)|, SetupLoadCommand(setFilePath))) &&
      data.Some? && forall j :: 0 <= j < |data.value.keys| ==> data.value.vals[j].Group?
    ensures session.Configured? ==>
      var pre := if setFileExists then [SetupLoadCommand(setFilePath)] else [];
      upv.written == old(upv.written) + pre + SectionCommands(COMMAND_MAP, data.value, |data.value.keys|)
  {
    CommandMapWellFormed();
    var address := SelectAddress(config, rm);
    if !Usable(address) {
      return NoAddress;
    }
    session := Configure(upv, setFilePath, COMMAND_MAP, opens, setFileExists, data);
  }

  /** A label of a settings section resolves exactly when `command_map` lists
      it, whatever section it sits in. */
  lemma FlatResolve(name: string)
    ensures Resolve(COMMAND_MAP, name).Some? <==> name in COMMAND_MAP.keys
  {
    CommandMapWellFormed();
    var r := IndexOf(COMMAND_MAP.keys, name);
  }
}
