# Mic_Sensitivity: settings-to-command translation, in Dafny

Mic_Sensitivity drives a Rohde & Schwarz UPV audio analyzer for microphone sensitivity
measurements. A JSON settings document, grouped into four sections (Generator Config,
Generator Function, Analyzer Config, Analyzer Function), is turned into SCPI commands and
written to the instrument. A Tk window shows the same document as widgets and writes it back.
This project models the layer that translates between these forms, and proves what that
layer promises:

- **The command dispatcher.** `apply_grouped_settings`, in both the GUI package and the
  top-level script. `Dispatch` models the GUI package's version over the table `command_groups`
  (`CommandGroups`). It has a grouped pass (section, then label, then one
  `"<prefix> <value>"` write per resolved label) and a raw pass (top-level SCPI keys sent
  through). `LegacyConfig` models the script's version over its flat `command_map`, together
  with the script's `main()`.
- **The instrument link.** The link is a black box, `Link.Instrument`. The class records
  every command written and every query made. Whether a write raises is an oracle
  `writeFails(n, cmd)`, and the answer to a query is an oracle `answer(n, q)`.
  So the contracts speak of exactly which commands were sent, in which order, whatever fails.
- **Discovery and the saved address** (`Discovery`). These are `find_upv_ip` (both variants),
  `save_config` and `load_config`, over a resource manager class whose `*IDN?` replies are an
  oracle.
- **The code/display tables** of `display_map.py` (`DisplayMap`). The model proves each table
  injective, so the GUI's dictionary inversion is exact, and states its aliases.
- **The field rules** of the settings window (`FieldRules`, `FieldLaws`). For every field,
  they give what `load_settings` shows for a stored value and what `apply_settings` stores for
  a widget. This covers the regular expressions that split a value from its unit, the
  composition `"<val> <unit>"`, the unit spellings (μV→uV, Ω→ohm, μs→us), the Filter and
  Impedance rules, and round-trip lemmas per field kind.
- **The settings window** (`SettingsForm`). `load_settings` fills `self.entries` panel by
  panel. `apply_settings` stores every entry back into the document and sends it. Both are
  modelled as a class with its entries, and as functions with lemmas about a load followed by
  an apply.
- **The export helpers** of `fetch_and_plot_trace` (`TraceExport`): array validation, the
  working title and curve name, `_xml_escape` with its inverse, `_sanitize_user_unit`, and the
  Y-unit priority.
- **The read-back** (`Readback`). `_derive_query` and `read_current_settings` build a snapshot
  of the instrument's settings, skipping the labels whose query raised.

Supporting modules:

- `Wrappers` holds `Option`.
- `Text` covers the Python string operations used: `strip`, `lstrip`, `lower`, `upper`,
  `replace` of one character, `split` and `join`.
- `Dicts` holds insertion-ordered dictionaries, with `get`, assignment and inversion.
- `Document` holds decoded JSON documents.

The raw pass of `apply_grouped_settings` (mic-sensitivity-gui/src/upv/upv_auto_config.py:178-199)
sends a top-level key as `"<key> <value>"` when four conditions hold: the key is no section
name, its value is no object, it is outside `RAW_EXCLUDE`, and it holds a colon. So
`INIT:CONT`, which decides the sweep mode elsewhere, is never sent by this pass.

## Model

| member | source | states |
|---|---|---|
| Link.Instrument.Write | mic-sensitivity-gui/src/upv/upv_auto_config.py:166 | `upv.write(cmd)` appends `cmd` to the written commands, whether or not it raises; `ok` is false exactly when the write raises; no query is made |
| Link.Instrument.Query | mic-sensitivity-gui/src/upv/upv_readback.py:101 | `upv.query(q)` appends `q` to the queries; the reply is the instrument's answer or `None` when the query raises; nothing is written |
| CommandGroups.TableWellFormed | mic-sensitivity-gui/src/upv/upv_auto_config.py:15-88 | `command_groups` is a dictionary of dictionaries: no label twice in a section, one prefix per label, and every prefix non-empty, so every label of the table resolves |
| CommandGroups.GeneratorConfigDistinct | mic-sensitivity-gui/src/upv/upv_auto_config.py:15-88 | the Generator Config map has distinct labels, one non-empty prefix each |
| CommandGroups.GeneratorFunctionDistinct | mic-sensitivity-gui/src/upv/upv_auto_config.py:15-88 | the same for Generator Function |
| CommandGroups.AnalyzerConfigDistinct | mic-sensitivity-gui/src/upv/upv_auto_config.py:15-88 | the same for Analyzer Config |
| CommandGroups.AnalyzerFunctionDistinct | mic-sensitivity-gui/src/upv/upv_auto_config.py:15-88 | the same for Analyzer Function |
| Dispatch.Resolve | mic-sensitivity-gui/src/upv/upv_auto_config.py:163-164 | `settings_map.get(label)` taken as a truth value: a label resolves exactly when the map has it with a non-empty prefix, and then to that prefix |
| Dispatch.FieldStep | mic-sensitivity-gui/src/upv/upv_auto_config.py:163-171 | defines one label of a section: a write of `"<prefix> <value>"`, logged as applied or failed, when the label resolves, else an "unknown label" note |
| Dispatch.Commands | mic-sensitivity-gui/src/upv/upv_auto_config.py:164-169 | defines the commands a plan writes, in step order, at most one per step; `CommandsAppend` and `CommandAt` pin which command lands where |
| Dispatch.Run | mic-sensitivity-gui/src/upv/upv_auto_config.py:164-171 | defines the log of a plan: exactly one line per step, the applied or failed line of a write chosen by whether that write raised, so a raising write does not end the loop (`RunEntry` pins each line) |
| Dispatch.FieldSteps | mic-sensitivity-gui/src/upv/upv_auto_config.py:162-171 | defines a section's label loop: one step per field, in the file's order |
| Dispatch.FieldStepAt | mic-sensitivity-gui/src/upv/upv_auto_config.py:162-171 | the step at position `i` is field `i`'s own write or note |
| Dispatch.FieldStepWrites | mic-sensitivity-gui/src/upv/upv_auto_config.py:163-171 | a field is written exactly when its label resolves, and the write is `"<prefix> <value>"`; an unresolved label only logs "unknown label" |
| Dispatch.FieldWriteCount | mic-sensitivity-gui/src/upv/upv_auto_config.py:162-171 | within a section, one write per resolved label and none for the others |
| Dispatch.FieldWriteAt | mic-sensitivity-gui/src/upv/upv_auto_config.py:162-166 | within a section, resolved label `i` is written as `"<prefix> <value>"` right after the writes of the resolved labels before it |
| Dispatch.RunEntry | mic-sensitivity-gui/src/upv/upv_auto_config.py:165-169 | every step logs exactly one line of its own; a write that raises logs its failure line, and the steps after it still run |
| Dispatch.RunAppend | mic-sensitivity-gui/src/upv/upv_auto_config.py:165-169 | running two plans in sequence logs the first plan's lines and then the second's; the second sees the first plan's writes |
| Dispatch.CommandsAppend | mic-sensitivity-gui/src/upv/upv_auto_config.py:158-199 | the writes of two plans run in sequence are those of the first, then those of the second |
| Dispatch.CommandAt | mic-sensitivity-gui/src/upv/upv_auto_config.py:166 | a write step of a plan is sent right after the writes of the steps before it |
| Dispatch.Sections | mic-sensitivity-gui/src/upv/upv_auto_config.py:158-161 | for every section name of the table, in table order, the walk sees `data.get(section)`; in a decoded document each object found holds one value per key |
| Dispatch.Grouped | mic-sensitivity-gui/src/upv/upv_auto_config.py:158-173 | defines the grouped pass over the first `n` sections of the table: each section's steps after those of the sections before, stopping at the first section that raises |
| Dispatch.SectionSteps | mic-sensitivity-gui/src/upv/upv_auto_config.py:158-173 | one section: it completes exactly when it is not a scalar; its first line is the "Applying" line, or the missing-section note when the data lacks it; a missing or scalar section logs nothing else |
| Dispatch.SectionCompletes | mic-sensitivity-gui/src/upv/upv_auto_config.py:159-162 | walking one section runs to its end unless the data holds a scalar under its name |
| Dispatch.GroupedCompletes | mic-sensitivity-gui/src/upv/upv_auto_config.py:158-173 | the grouped pass runs to its end exactly when no section name of the table holds a scalar in the data |
| Dispatch.GroupedStopsAtScalar | mic-sensitivity-gui/src/upv/upv_auto_config.py:160-162 | a section holding a scalar raises right after its "Applying" line; later sections and the raw pass are not reached |
| Dispatch.GroupedStopped | mic-sensitivity-gui/src/upv/upv_auto_config.py:158-173 | once the grouped pass has raised, further sections change neither its steps nor its outcome |
| Dispatch.GroupedPrefix | mic-sensitivity-gui/src/upv/upv_auto_config.py:158-173 | a completed pass over `n` sections begins with the passes over fewer sections |
| Dispatch.SectionCommands | mic-sensitivity-gui/src/upv/upv_auto_config.py:159-173 | the writes of one section are exactly those of its resolved labels; an absent section writes nothing and only logs "not found" |
| Dispatch.GroupedWriteCount | mic-sensitivity-gui/src/upv/upv_auto_config.py:158-173 | a completed grouped pass writes, in total, the resolved labels of every section present |
| Dispatch.SectionCommandsAfter | mic-sensitivity-gui/src/upv/upv_auto_config.py:158-171 | right after section `j`: the writes before it, then those of its resolved labels |
| Dispatch.SectionWriteAt | mic-sensitivity-gui/src/upv/upv_auto_config.py:158-166 | right after section `j`, the write of its resolved label `i` sits behind the writes of the earlier sections and of the resolved labels before `i` |
| Dispatch.GroupedWriteAt | mic-sensitivity-gui/src/upv/upv_auto_config.py:158-166 | for every section present and every label its map resolves, the pass writes `"<prefix> <value>"` at a position fixed by section order, then label order |
| Dispatch.SectionOrder | mic-sensitivity-gui/src/upv/upv_auto_config.py:158-166 | every write of a section comes before every write of a later section |
| Dispatch.RawWrites | mic-sensitivity-gui/src/upv/upv_auto_config.py:183-194 | the raw pass writes `"<key> <value>"` for a top-level key if and only if the key is no section name, its value is no object, it is not in `RAW_EXCLUDE` and it holds a colon; once each, in document order; so `INIT:CONT` is never sent |
| Dispatch.RawWriteCount | mic-sensitivity-gui/src/upv/upv_auto_config.py:185-194 | the raw pass makes one write per qualifying key |
| Dispatch.RawWriteAt | mic-sensitivity-gui/src/upv/upv_auto_config.py:185-194 | a qualifying key is written right after the writes of the qualifying keys before it |
| Dispatch.RawWriteSource | mic-sensitivity-gui/src/upv/upv_auto_config.py:185-194 | every raw write comes from a qualifying key |
| Dispatch.RawSteps | mic-sensitivity-gui/src/upv/upv_auto_config.py:185-197 | defines the raw pass over the first `m` top-level keys: one write of `"<key> <value>"` per qualifying key, in document order |
| Dispatch.Plan | mic-sensitivity-gui/src/upv/upv_auto_config.py:144-199 | defines the whole call to `apply_grouped_settings`: the grouped pass, then the raw pass when the grouped pass did not raise |
| Dispatch.PlanCommands | mic-sensitivity-gui/src/upv/upv_auto_config.py:158-199 | a completed call writes the grouped commands and then the raw ones |
| Dispatch.CommandTableShape | mic-sensitivity-gui/src/upv/upv_auto_config.py:15-88 | `command_groups` has one prefix map per section |
| Dispatch.Extend | mic-sensitivity-gui/src/upv/upv_auto_config.py:158-199 | appending a plan to an executed one: the writes and the log of the whole are those of the parts, the second starting where the first ended |
| Dispatch.Perform | mic-sensitivity-gui/src/upv/upv_auto_config.py:165-169 | one step: a write is sent and logged as succeeded or failed as the write returned or raised; a note is logged without touching the instrument |
| Dispatch.ApplyFields | mic-sensitivity-gui/src/upv/upv_auto_config.py:162-171 | the label loop of one section writes exactly the commands of its resolved labels, whatever fails, and logs one line per label |
| Dispatch.ApplyRaw | mic-sensitivity-gui/src/upv/upv_auto_config.py:184-199 | the raw loop writes exactly the commands of the qualifying keys and logs one line per attempted write |
| Dispatch.ApplyObject | mic-sensitivity-gui/src/upv/upv_auto_config.py:160-171 | a section holding an object is announced, then its labels applied |
| Dispatch.ApplySection | mic-sensitivity-gui/src/upv/upv_auto_config.py:159-173 | one section: a missing one is reported, a present one announced and, when it is an object, its labels applied; a scalar raises once announced |
| Dispatch.ApplyNext | mic-sensitivity-gui/src/upv/upv_auto_config.py:158-173 | one turn of the section loop extends the writes and the log by those of the next section |
| Dispatch.ApplySections | mic-sensitivity-gui/src/upv/upv_auto_config.py:158-173 | the section loop over the table, stopping at the first section that raises, writes and logs exactly what the grouped pass specifies |
| Dispatch.ApplyGrouped | mic-sensitivity-gui/src/upv/upv_auto_config.py:158-199 | over any command table: the grouped pass and, when no section raised, the raw pass; exactly the specified commands are written |
| Dispatch.ApplyGroupedSettings | mic-sensitivity-gui/src/upv/upv_auto_config.py:144-199 | `apply_grouped_settings(upv, data)` over `command_groups`: the writes, the log and whether it raised are those of the plan; no query is made |
| LegacyConfig.CommandMapWellFormed | upv_auto_config.py:42-70 | `command_map` is a dictionary with no label twice and no empty header, so a label resolves exactly when it is a key |
| LegacyConfig.BlocksDistinct | upv_auto_config.py:42-70 | each of the four blocks of `command_map` lists distinct labels |
| LegacyConfig.FlatResolve | upv_auto_config.py:75-76 | a label resolves exactly when `command_map` lists it, whatever section it sits in |
| LegacyConfig.TopSection | upv_auto_config.py:72-83 | defines one top-level key of the script: its "Applying" line, then one step per label through the flat `command_map`; a scalar value raises after the line |
| LegacyConfig.Legacy | upv_auto_config.py:72-83 | defines the script's loop over the first `n` top-level keys, every key a section, stopping at the first that raises |
| LegacyConfig.LabelCommands | upv_auto_config.py:74-83 | defines the writes of a section's first `m` labels: `"<scpi> <value>"` for each label the flat map knows |
| LegacyConfig.SectionCommands | upv_auto_config.py:72-83 | defines the writes of the first `n` top-level objects, object after object |
| LegacyConfig.FieldCommands | upv_auto_config.py:74-83 | within a section the script writes `"<scpi> <value>"` for exactly the mapped labels, in order; an unknown label writes nothing |
| LegacyConfig.LegacyCompletes | upv_auto_config.py:72-74 | the script's loop runs to the end exactly when every top-level value is an object; there is no fixed list of sections |
| LegacyConfig.LegacyWrites | upv_auto_config.py:72-83 | a loop that ran to its end has written every mapped label of every top-level key, keys in document order and labels in section order |
| LegacyConfig.TopSectionCommands | upv_auto_config.py:73-83 | the writes of one top-level object are those of its mapped labels |
| LegacyConfig.LegacyStopped | upv_auto_config.py:72-74 | once the loop has raised, later keys change nothing |
| LegacyConfig.ApplyTopSection | upv_auto_config.py:73-83 | one top-level key: announced, then its labels written; `ok` is false when its value is a scalar |
| LegacyConfig.LegacyNext | upv_auto_config.py:72-83 | one turn of the loop extends the writes and the log by those of the next key |
| LegacyConfig.ApplyFlat | upv_auto_config.py:72-83 | the loop over every top-level key, stopping when one raises, writes and logs exactly what the walk specifies, whatever writes fail |
| LegacyConfig.ApplyGroupedSettings | upv_auto_config.py:38-83 | `apply_grouped_settings(upv)` of the script, over `command_map` |
| LegacyConfig.SetupLoadCommand | upv_auto_config.py:105-107 | the setup-load command is `MMEM:LOAD:STAT '`, then the path with every backslash replaced by `/` and every other character kept, then `'`; no backslash remains |
| LegacyConfig.ChosenAddress | upv_auto_config.py:89-93 | `main` uses the saved address when it is non-empty, and the scan's result otherwise |
| LegacyConfig.SelectAddress | upv_auto_config.py:89-93 | the address used is the chosen one; a usable saved address is used without probing any resource and stays saved |
| LegacyConfig.Handshake | upv_auto_config.py:99-109 | open, query `*IDN?` once, then write the setup-load command only when the file exists; it succeeds exactly when none of these raised |
| LegacyConfig.Configure | upv_auto_config.py:98-115 | the `try` of `main`: the settings are applied exactly when the open, the IDN query, the setup load and the read of `settings.json` succeed and every top-level value is an object; the instrument has then been sent the setup load, if any, followed by every mapped label of every section |
| LegacyConfig.RunMain | upv_auto_config.py:85-115 | `main()`: it gives up before touching the instrument exactly when no usable address is chosen; otherwise it configures as above |
| Discovery.ResourceManager.Probe | upv_auto_config.py:16-17 | opening and querying resource `i` records the probe and returns its `*IDN?` reply, or `None` when it raised |
| Discovery.IsUpv | upv_auto_config.py:17-18 | defines a UPV reply: a probe that answered and whose stripped reply contains `UPV` |
| Discovery.FirstUpv | upv_auto_config.py:14-26 | defines the position of the first resource from `k` on that answers as a UPV; it lies in the list |
| Discovery.ConfigFile.Save | upv_auto_config.py:28-30 | `save_config(a)` makes the stored address `a` |
| Discovery.ConfigFile.Load | upv_auto_config.py:32-36 | `load_config()` returns the stored address, `None` when there is none |
| Discovery.FirstUpvFound | upv_auto_config.py:14-21 | what the scan finds answers `*IDN?` with a reply containing `UPV`, and no resource before it does |
| Discovery.FirstUpvNone | upv_auto_config.py:14-26 | the scan finds nothing exactly when no resource's stripped reply contains `UPV`; a probe that raised counts as no UPV |
| Discovery.FoundAddress | upv_auto_config.py:14-26 | the address found is a listed resource, and there is one exactly when some resource answers as a UPV |
| Discovery.FindUpvIp | upv_auto_config.py:9-26 | the script's `find_upv_ip`: resources are probed in list order up to and including the first UPV, which is returned and saved; with none, every resource is probed, `None` returned and the saved address kept |
| Discovery.ScanForUpv | mic-sensitivity-gui/src/upv/upv_auto_config.py:90-118 | the GUI's `find_upv_ip`: every resource is probed, and the first UPV found is returned and saved; with none, `None` and the saved address kept |
| Discovery.ScanStep | mic-sensitivity-gui/src/upv/upv_auto_config.py:100-113 | one probe appends a UPV to `found`, and `found[0]` stays the first UPV in list order |
| DisplayMap.GeneratorConfigTablesInjective | mic-sensitivity-gui/src/gui/display_map.py:19-63 | no two codes and no two texts coincide in any Generator Config table |
| DisplayMap.GeneratorFunctionTablesInjective | mic-sensitivity-gui/src/gui/display_map.py:66-163 | the same for every Generator Function table, the 35-entry filter table included |
| DisplayMap.AnalyzerConfigTablesInjective | mic-sensitivity-gui/src/gui/display_map.py:168-282 | the same for every Analyzer Config table |
| DisplayMap.AnalyzerFunctionTablesInjective | mic-sensitivity-gui/src/gui/display_map.py:284-373 | the same for every Analyzer Function table |
| DisplayMap.FilterInjective | mic-sensitivity-gui/src/gui/display_map.py:121-157 | the filter table is one-to-one |
| DisplayMap.FunctionGeneratorInjective | mic-sensitivity-gui/src/gui/display_map.py:66-84 | the generator function table is one-to-one |
| DisplayMap.FunctionAnalyzerInjective | mic-sensitivity-gui/src/gui/display_map.py:284-308 | the analyzer function table is one-to-one |
| DisplayMap.StartCondInjective | mic-sensitivity-gui/src/gui/display_map.py:260-269 | the start condition table is one-to-one |
| DisplayMap.MaxFftSizeInjective | mic-sensitivity-gui/src/gui/display_map.py:271-282 | the FFT size table is one-to-one |
| DisplayMap.BandwidthAnalyzerConfigInjective | mic-sensitivity-gui/src/gui/display_map.py:355-368 | the analyzer bandwidth configuration table is one-to-one |
| DisplayMap.InverseOfForward | mic-sensitivity-gui/src/gui/window.py:1316-1319 | inverting an injective table undoes the forward lookup: the text of a code leads back to that code |
| Dicts.InverseGet | mic-sensitivity-gui/src/gui/window.py:1316-1319 | `{v: k for k, v in t.items()}.get(d)`: present exactly when `d` is a text of the table, and then the code of the last entry showing `d`, since later keys overwrite earlier ones in the comprehension |
| DisplayMap.ForwardOfInverse | mic-sensitivity-gui/src/gui/window.py:1316-1319 | the forward lookup undoes the inversion: the code found for a text shows that text |
| DisplayMap.FilterAliases | mic-sensitivity-gui/src/gui/display_map.py:324-326 | `FILTER1_OPTIONS`, `FILTER2_OPTIONS` and `FILTER3_OPTIONS` are `FILTER_OPTIONS` |
| DisplayMap.PreFilterIsFilter | mic-sensitivity-gui/src/gui/display_map.py:121-157 | `PRE_FILTER_OPTIONS` (lines 199-235) holds the same code/text pairs as `FILTER_OPTIONS`, in the same order |
| DisplayMap.CommonIsCh1Common | mic-sensitivity-gui/src/gui/display_map.py:47-50 | `COMMON_OPTIONS` and `CH1_COMMON_OPTIONS` (lines 249-252) are the same float/ground pairs |
| DisplayMap.ImpedanceCodes | mic-sensitivity-gui/src/gui/display_map.py:38-45 | the unbalanced output offers only `R5`, the balanced one `R10`, `R200` and `R600`; no code is offered for both |
| DisplayMap.OverridesNotInjective | mic-sensitivity-gui/src/gui/display_map.py:10-16 | the label overrides are not one-to-one: `Filter1`, `Filter2` and `Filter3` all show `Filter`, and inverting would send `Filter` to `Filter3` |
| FieldRules.MatchCompact | mic-sensitivity-gui/src/gui/window.py:354-360 | `re.match(r"^([\-\d\.]+)\s*([a-zA-Z]+)?$")`: a match starts with a non-empty number run, and its unit, if any, is a non-empty run of the unit class |
| FieldRules.ParsesCompact | mic-sensitivity-gui/src/gui/window.py:354-360 | the compact pattern reads a number, whitespace and a unit back as that number and unit |
| FieldRules.ParsesBareNumber | mic-sensitivity-gui/src/gui/window.py:354-360 | the compact pattern reads a bare number as a number without unit |
| FieldRules.FirstIgnoreCase | mic-sensitivity-gui/src/gui/window.py:751 | the alternation of a case-insensitive pattern: the first alternative equal to the unit ignoring case, or none exists |
| FieldRules.MatchSpaced | mic-sensitivity-gui/src/gui/window.py:751-760 | the spaced case-insensitive patterns of Ref Imped, Delay, Tolerance and Timeout: a match has a non-empty number, and its unit equals an alternative ignoring case |
| FieldRules.ParsesSpaced | mic-sensitivity-gui/src/gui/window.py:751-760 | the spaced pattern reads a number, a space and an alternative back as that number and unit |
| FieldRules.MatchWord | mic-sensitivity-gui/src/gui/window.py:1001-1007 | the Resolution pattern: a non-empty number and, optionally, a run of ASCII letters |
| FieldRules.ParsesWord | mic-sensitivity-gui/src/gui/window.py:1001-1007 | the Resolution pattern reads a number, a space and a word back as that number and word |
| FieldRules.FieldOf | mic-sensitivity-gui/src/gui/window.py:154-1210 | the branch a (section, label) pair takes in `load_settings` and `apply_settings`, first match wins; only Generator Config's Impedance is built after its section |
| FieldRules.GeneratorConfigField | mic-sensitivity-gui/src/gui/window.py:154-386 | the Generator Config branches come first, and only the Impedance label is deferred |
| FieldRules.GeneratorFunctionField | mic-sensitivity-gui/src/gui/window.py:398-643 | the Generator Function branches; none is deferred |
| FieldRules.AnalyzerConfigField | mic-sensitivity-gui/src/gui/window.py:644-858 | the Analyzer Config branches; none is deferred |
| FieldRules.AnalyzerFunctionField | mic-sensitivity-gui/src/gui/window.py:859-1210 | the Analyzer Function branches; none is deferred |
| FieldRules.Load | mic-sensitivity-gui/src/gui/window.py:154-1210 | the widget built for a stored value has the shape its field is read back with |
| FieldRules.LoadChoice | mic-sensitivity-gui/src/gui/window.py:155-158 | a combobox shows `table.get(value, value)`, which is one of the table's texts when the value is a code |
| FieldRules.LoadFilter | mic-sensitivity-gui/src/gui/window.py:596-606 | the filter combobox shows a text of the table: the one at the code's position, or the first |
| FieldRules.VoltUnit | mic-sensitivity-gui/src/gui/window.py:219-235 | corrected: the unit shown is an offered one, or `μV` for a parsed `uV`; an offered unit is shown as parsed |
| FieldRules.VoltUnitAsWritten | mic-sensitivity-gui/src/gui/window.py:225-229 | as written: the unit shown is always an offered one, the parsed unit when it is offered, so `uV`, which is not, cannot be shown |
| FieldRules.LoadVoltAsWritten | mic-sensitivity-gui/src/gui/window.py:219-235 | the voltage fields as written: a number and always an offered unit |
| FieldRules.LoadFreq | mic-sensitivity-gui/src/gui/window.py:349-368 | Ref Frequency, Start and Stop always show a number and one of the offered units `Hz`, `kHz` |
| FieldRules.LoadOhm | mic-sensitivity-gui/src/gui/window.py:743-767 | Ref Imped shows exactly `Ω` or `kΩ` |
| FieldRules.TimeUnit | mic-sensitivity-gui/src/gui/window.py:808-821 | defines the unit shown for Delay and Timeout: the parsed unit lower-cased, `s` when absent, shown through the time display table (`us` as `μs`) |
| FieldRules.LoadTime | mic-sensitivity-gui/src/gui/window.py:800-821 | Delay and Timeout (lines 1094-1115) show a number and a unit; an unparsed value shows as itself with `s` |
| FieldRules.LoadTolerance | mic-sensitivity-gui/src/gui/window.py:943-962 | Tolerance shows a number and a unit; the unit defaults to `%`, and an unparsed value shows as itself with `%` |
| FieldRules.LoadResolution | mic-sensitivity-gui/src/gui/window.py:993-1012 | Resolution shows a number and a unit; the unit defaults to `V`, and an unparsed value shows as itself with `V` |
| FieldRules.LoadVolt | mic-sensitivity-gui/src/gui/window.py:219-237 | corrected: the voltage fields show a number and `VoltUnit` of the parsed unit, or the value itself with the first offered unit |
| FieldRules.Compose | mic-sensitivity-gui/src/gui/window.py:1347 | `f"{val} {unit}" if val else ""`: empty exactly when the stripped value is blank, and otherwise the value, one space and the unit |
| FieldRules.AsciiVolt | mic-sensitivity-gui/src/gui/window.py:1342-1346 | a unit other than `μV` passes unchanged, and no `μ` is written unless the unit shown was another spelling holding one |
| FieldRules.OhmWord | mic-sensitivity-gui/src/gui/window.py:1484-1489 | the written unit holds no `Ω` when the unit shown is `Ω` or `kΩ` |
| FieldRules.CanonicalLevelUnit | mic-sensitivity-gui/src/gui/window.py:1561-1568 | a Resolution unit outside `allowed_units` becomes the first allowed unit equal to it ignoring case, and stays as typed when there is none |
| FieldRules.ApplyFilter | mic-sensitivity-gui/src/gui/window.py:1414-1422 | the filter stores the code at the shown text's position, or `OFF`, always a filter code |
| FieldRules.Apply | mic-sensitivity-gui/src/gui/window.py:1315-1611 | a field's branch stores nothing exactly for Start Cond and Fnct Settling, which compute a code and drop it |
| FieldRules.ImpedanceWidget | mic-sensitivity-gui/src/gui/window.py:1213-1235 | `set_impedance_widget`: an unbalanced output shows the fixed `5 Ω`, a balanced one a combobox on one of the balanced impedances |
| FieldRules.LooseMatch | mic-sensitivity-gui/src/gui/window.py:1619-1623 | the search ignoring spaces and case returns a code of the table, or nothing |
| FieldRules.Squash | mic-sensitivity-gui/src/gui/window.py:1621 | the compared form of a text: no spaces are left and no upper-case ASCII letter |
| FieldRules.ImpedanceCode | mic-sensitivity-gui/src/gui/window.py:1613-1628 | the Impedance field stores a balanced code for a combobox and `R5` otherwise |
| FieldLaws.ChoiceRoundTrip | mic-sensitivity-gui/src/gui/window.py:155-158 | load, then apply with no edit, stores the loaded value back if and only if it is a code of the table or none of its texts; a value that is only a text comes back as the code showing it |
| FieldLaws.ChoiceTablesInjective | mic-sensitivity-gui/src/gui/window.py:154-1210 | every enumerated field of the window is over a one-to-one table |
| FieldLaws.RadioRoundTrip | mic-sensitivity-gui/src/gui/window.py:182-193 | a radio field stores back its value when it is a code, else its fallback |
| FieldLaws.CheckboxRoundTrip | mic-sensitivity-gui/src/gui/window.py:387-397 | both checkbox kinds store `ON` exactly when the value is `on` in any letter case, else `OFF`; `ON` and `OFF` themselves come back unchanged |
| FieldLaws.FilterCodes | mic-sensitivity-gui/src/gui/window.py:1414-1422 | showing the text at a code's position and reading the code at that text's position gives the code back; anything else gives `OFF` |
| FieldLaws.FilterRoundTrip | mic-sensitivity-gui/src/gui/window.py:596-606 | the generator filter stores a filter code back unchanged and anything else as `OFF` |
| FieldLaws.ComposeNumber | mic-sensitivity-gui/src/gui/window.py:1347 | a number and a unit are written as number, one space, unit |
| FieldLaws.VoltRoundTrip | mic-sensitivity-gui/src/gui/window.py:1338-1347 | corrected: for every offered unit, applying a number and the unit and loading the text gives the same number and unit, and the text holds no `μ` |
| FieldLaws.VoltMicroLostAsWritten | mic-sensitivity-gui/src/gui/window.py:225-229 | as written: `n μV` is written `"n uV"`, loaded back as `n V`, and applied again as `"n V"` |
| FieldLaws.MicroAsWritten | mic-sensitivity-gui/src/gui/window.py:225-229 | as written, any number followed by `uV` loads as volts |
| FieldLaws.FreqRoundTrip | mic-sensitivity-gui/src/gui/window.py:1357-1361 | a frequency with an offered unit survives apply and load |
| FieldLaws.OhmRoundTrip | mic-sensitivity-gui/src/gui/window.py:1479-1490 | Ref Imped is written with `ohm` and `kohm`, and those words load back as `Ω` and `kΩ` |
| FieldLaws.OhmSpellings | mic-sensitivity-gui/src/gui/window.py:751-762 | any spelling of `ohm`, `kohm`, `Ω` or `kΩ`, in any letter case, loads as exactly `Ω` or `kΩ`, the kilo forms being those starting with `k` |
| FieldLaws.TimeTables | mic-sensitivity-gui/src/gui/window.py:1312-1313 | the time display table is one-to-one over `s`, `ms`, `us`, `min`, and the Timeout reverse table (lines 1573-1575) is exactly its inverse |
| FieldLaws.TimeDisplays | mic-sensitivity-gui/src/gui/window.py:818-821 | every shown time unit leads back, through either reverse table, to the code it shows |
| FieldLaws.DelayRoundTrip | mic-sensitivity-gui/src/gui/window.py:1496-1501 | Delay writes the code of the unit it shows (`μs` as `us`), and the code loads back as that shown unit |
| FieldLaws.TimeoutRoundTrip | mic-sensitivity-gui/src/gui/window.py:1570-1576 | Timeout writes what Delay writes, and it loads back the same way |
| FieldLaws.TimeSpellings | mic-sensitivity-gui/src/gui/window.py:808-815 | a time unit typed in any letter case loads as the lower-case unit it names, `us` shown as `μs` |
| FieldLaws.ToleranceRoundTrip | mic-sensitivity-gui/src/gui/window.py:1552-1556 | a tolerance in `%` or `dB` survives apply and load |
| FieldLaws.ResolutionRoundTrip | mic-sensitivity-gui/src/gui/window.py:1557-1569 | a level with an offered unit survives apply and load |
| FieldLaws.ResolutionSpellings | mic-sensitivity-gui/src/gui/window.py:1557-1569 | a unit word outside the offered list is written in its offered spelling when one matches ignoring case, and as typed otherwise |
| FieldLaws.LevelUnitDBV | mic-sensitivity-gui/src/gui/window.py:1561-1568 | the spelling `DBV` becomes `dBV` |
| FieldLaws.ImpedanceRoundTrip | mic-sensitivity-gui/src/gui/window.py:1213-1235 | the Impedance combobox stores back the balanced code it was built on, and the unbalanced box always stores `R5` |
| FieldLaws.ImpedanceFallback | mic-sensitivity-gui/src/gui/window.py:1228-1231 | without a balanced code the combobox shows its first impedance and stores `R10` |
| FieldLaws.ImpedanceLoose | mic-sensitivity-gui/src/gui/window.py:1619-1623 | a text matching a balanced impedance only up to spaces and letter case still stores that impedance's code |
| FieldLaws.SquashedImpedances | mic-sensitivity-gui/src/gui/display_map.py:38-42 | the balanced impedances stay distinct with spaces removed and letters lower-cased, so the loose match is unambiguous |
| FieldLaws.LooseFinds | mic-sensitivity-gui/src/gui/window.py:1619-1623 | the loose search finds the first text that matches ignoring spaces and case |
| SettingsForm.Bind | mic-sensitivity-gui/src/gui/window.py:161 | `self.entries[(s, l)] = w`: the key then holds `w`, every other key keeps its entry, an existing key keeps its place and a new one goes last |
| SettingsForm.LoadField | mic-sensitivity-gui/src/gui/window.py:152-1210 | defines one field of a panel: the Output Type combobox is also kept as `self.output_type_combo`, Impedance only records its panel and stored value, every other field binds its widget |
| SettingsForm.LoadSection | mic-sensitivity-gui/src/gui/window.py:146-1239 | defines one panel: nothing for a missing section, a raise for a scalar one, else its fields, then the Impedance set-up when the refresh policy says so (as written, after every present section) |
| SettingsForm.LoadFields | mic-sensitivity-gui/src/gui/window.py:152-1235 | defines the field walk of one panel, in file order; the entries are never dropped, and each field adds at most one |
| SettingsForm.LoadSections | mic-sensitivity-gui/src/gui/window.py:142-1245 | defines the panel walk: the four panels in order, stopping at the first raise; the entries made so far are kept |
| SettingsForm.LoadForm | mic-sensitivity-gui/src/gui/window.py:94-1249 | defines `load_settings` from a form: old widgets destroyed and entries cleared, a raise for an unreadable file, else the four panels in order |
| SettingsForm.BindKeyed | mic-sensitivity-gui/src/gui/window.py:161 | a binding never puts a (section, name) key in twice |
| SettingsForm.BindIn | mic-sensitivity-gui/src/gui/window.py:161 | a binding adds no entry except its own |
| SettingsForm.FieldWidget | mic-sensitivity-gui/src/gui/window.py:154-1210 | the corrected builder: every field but Impedance gets the field rules' widget, whose voltage load is the corrected `VoltUnit`, and every widget fits its field; the window itself builds with `FieldWidgetAsWritten` |
| SettingsForm.FieldWidgetAsWritten | mic-sensitivity-gui/src/gui/window.py:219-237 | the window's own builder: every field gets the widget `FieldWidget` gives it, except a voltage field, whose unit is always one of the offered units, so a stored `uV` is not shown as `μV` |
| SettingsForm.SetImpedance | mic-sensitivity-gui/src/gui/window.py:1237-1239 | the Impedance set-up succeeds exactly when there is no Output Type combobox, or a live one together with the recorded Impedance panel |
| SettingsForm.SectionsDistinct | mic-sensitivity-gui/src/gui/window.py:104-109 | the four panels are distinct, Generator Config first |
| SettingsForm.LoadStopped | mic-sensitivity-gui/src/gui/window.py:146-1247 | once a panel has raised, the later panels are not reached |
| SettingsForm.LoadSectionsAbsent | mic-sensitivity-gui/src/gui/window.py:146-149 | panels missing from the file change nothing |
| SettingsForm.LoadFieldsOther | mic-sensitivity-gui/src/gui/window.py:152-1210 | a section's fields touch no entry of another section |
| SettingsForm.LoadFieldsFills | mic-sensitivity-gui/src/gui/window.py:152-1210 | after a section's fields, each of them but Impedance holds what it bound |
| SettingsForm.LoadFieldsPanel | mic-sensitivity-gui/src/gui/window.py:172-197 | after the Generator Config fields, Output Type has set the combobox and Impedance the panel and the stored value |
| SettingsForm.LoadFieldsKeep | mic-sensitivity-gui/src/gui/window.py:146-150 | outside Generator Config the walk keeps the combobox, the panel and the section's impedance value |
| SettingsForm.LoadSectionOther | mic-sensitivity-gui/src/gui/window.py:146-1247 | a panel touches only its own entries, and the Impedance entry when the Impedance set-up follows it |
| SettingsForm.LoadSectionFills | mic-sensitivity-gui/src/gui/window.py:146-1210 | an object section's fields, bar Impedance, hold their loaded widgets after its panel |
| SettingsForm.LoadSectionsOther | mic-sensitivity-gui/src/gui/window.py:145-1247 | later panels leave alone an entry that none of them owns |
| SettingsForm.LoadReached | mic-sensitivity-gui/src/gui/window.py:145-1247 | a load that reached its end reached every panel |
| SettingsForm.LoadedField | mic-sensitivity-gui/src/gui/window.py:145-1210 | after a load that reached its end, every field of the four panels but Impedance holds the widget built from its stored value |
| SettingsForm.LoadedWidget | mic-sensitivity-gui/src/gui/window.py:154-1210 | with the window's builder `FieldWidgetAsWritten`, under either policy, each field but Impedance holds the field rules' widget, except a voltage field, which holds the loader's own voltage widget (`LoadVoltAsWritten`) |
| SettingsForm.LoadScalarFails | mic-sensitivity-gui/src/gui/window.py:152-153 | a section that holds a scalar ends the load in the error message |
| SettingsForm.LoadSectionImpedance | mic-sensitivity-gui/src/gui/window.py:1237-1239 | the Generator Config panel ends with the Impedance widget built on the shown output type and the stored code |
| SettingsForm.LoadedImpedance | mic-sensitivity-gui/src/gui/window.py:1237-1239 | corrected: after a load, the Impedance widget is built on the shown output type and the code stored in the file |
| SettingsForm.LoadSectionResets | mic-sensitivity-gui/src/gui/window.py:146-150 | as written: an object section after Generator Config rebuilds the Impedance widget with no stored code |
| SettingsForm.ImpedanceResetAsWritten | mic-sensitivity-gui/src/gui/window.py:1237-1239 | as written: after Analyzer Config the Impedance widget shows `10 Ω` for a file storing `R600` |
| SettingsForm.BalancedFile | mic-sensitivity-gui/src/gui/window.py:146-150 | the example file: a balanced output at `R600`, then an empty Analyzer Config object |
| SettingsForm.BalancedFirstPanel | mic-sensitivity-gui/src/gui/window.py:172-197 | the Generator Config panel of the example leaves a live `Bal` combobox and the Impedance panel |
| SettingsForm.LoadFormKeyed | mic-sensitivity-gui/src/gui/window.py:98 | a load, finished or not, leaves no (section, label) key twice |
| SettingsForm.Store | mic-sensitivity-gui/src/gui/window.py:1315-1611 | `settings[s][l] = v` succeeds exactly when section `s` is an object; field `l` then holds `v`, every other field and every section keeps its value |
| SettingsForm.EntryCode | mic-sensitivity-gui/src/gui/window.py:1315-1611 | an entry that fits its field stores what the field rules' apply gives |
| SettingsForm.StoreEntries | mic-sensitivity-gui/src/gui/window.py:1315-1611 | storing entries in insertion order keeps the document decoded, with the same sections in the same order |
| SettingsForm.StoreEntriesObjects | mic-sensitivity-gui/src/gui/window.py:1315-1611 | after storing, a section holds an object exactly when it did before |
| SettingsForm.StoreEntriesStopped | mic-sensitivity-gui/src/gui/window.py:1315-1611 | once storing an entry has raised, the later entries leave the outcome a raise |
| SettingsForm.StoreEntriesSucceeds | mic-sensitivity-gui/src/gui/window.py:1315-1611 | storing succeeds exactly when every entry that stores finds its section as an object |
| SettingsForm.StoreEntriesValue | mic-sensitivity-gui/src/gui/window.py:1315-1611 | a stored entry's field holds its value at the end |
| SettingsForm.StoreEntriesKeeps | mic-sensitivity-gui/src/gui/window.py:1315-1611 | a field that no stored entry names keeps the value the file had |
| SettingsForm.Saved | mic-sensitivity-gui/src/gui/window.py:1305-1634 | the document `apply_settings` writes keeps the file's sections |
| SettingsForm.SavedSucceeds | mic-sensitivity-gui/src/gui/window.py:1305-1634 | saving succeeds exactly when the file is readable, every storing entry finds its section as an object, and there is an Impedance entry in an object Generator Config |
| SettingsForm.SavedFields | mic-sensitivity-gui/src/gui/window.py:1315-1628 | after saving, a stored entry's field holds its value, Impedance the code of its widget, and every other field its value in the file |
| SettingsForm.LoadSectionsSound | mic-sensitivity-gui/src/gui/window.py:146-1247 | a load from a sound form keeps it sound: every entry it binds, and a live Output Type combobox, lies in an object section of the file |
| SettingsForm.ReloadSaves | mic-sensitivity-gui/src/gui/window.py:1305-1634 | apply right after a load, finished or not, fails only when there is no Impedance entry |
| SettingsForm.ReloadField | mic-sensitivity-gui/src/gui/window.py:1315-1611 | load, no edit, apply, for any policy and any builder whose widgets fit their fields: a field other than Impedance stores what apply makes of the widget it was bound to (the Output Type combobox, else the builder's widget), and a field whose branch stores nothing keeps its value |
| SettingsForm.ReloadWindowField | mic-sensitivity-gui/src/gui/window.py:1315-1611 | the window's own load (after every section, `FieldWidgetAsWritten`), no edit, apply: a voltage field stores what apply makes of `LoadVoltAsWritten`'s widget, any other field but Impedance what it makes of the field rules' widget, and a field whose branch stores nothing keeps its value |
| SettingsForm.ReloadChoice | mic-sensitivity-gui/src/gui/window.py:1315-1611 | load with the window's builder under either policy, no edit, apply: an enumerated field stores back the code it was loaded from |
| SettingsForm.ReloadImpedance | mic-sensitivity-gui/src/gui/window.py:1613-1628 | corrected load, no edit, apply: the save succeeds and a balanced Impedance stores back its code |
| SettingsForm.ImpedanceLostAsWritten | mic-sensitivity-gui/src/gui/window.py:1613-1628 | as written, load then apply saves the example file's `R600` as `R10` |
| SettingsForm.ImpedanceKept | mic-sensitivity-gui/src/gui/window.py:1613-1628 | corrected, the same load and apply save `R600` back |
| SettingsForm.MainWindow.LoadSettings | mic-sensitivity-gui/src/gui/window.py:94-1249 | `load_settings` as it stands: the entries become the load of the settings file with the Impedance set-up after every section present (`AfterEverySection`), and voltage fields built by `FieldWidgetAsWritten`, so both findings about the loader show in the class too; `ok` is false when it ended in the error message |
| SettingsForm.MainWindow.LoadPanels | mic-sensitivity-gui/src/gui/window.py:145-1247 | the four panels in order, from a cleared form, stopping at the first exception, each followed by the Impedance set-up |
| SettingsForm.MainWindow.LoadPanel | mic-sensitivity-gui/src/gui/window.py:146-1247 | one panel of `load_settings`: its fields, then `set_impedance_widget` whatever the section, as at lines 1237-1239 |
| SettingsForm.MainWindow.LoadEntry | mic-sensitivity-gui/src/gui/window.py:152-1210 | one field of a panel |
| SettingsForm.MainWindow.SetImpedanceWidget | mic-sensitivity-gui/src/gui/window.py:1237-1239 | `set_impedance_widget(self.output_type_combo.get(), impedance_value)` when there is an Output Type combobox |
| SettingsForm.MainWindow.StoreAll | mic-sensitivity-gui/src/gui/window.py:1315-1611 | the loop over `self.entries` stores every entry in insertion order, `None` when one raised |
| SettingsForm.MainWindow.StoreNext | mic-sensitivity-gui/src/gui/window.py:1315-1611 | one turn of that loop; a raise there is the outcome of the whole loop |
| SettingsForm.MainWindow.SaveEntries | mic-sensitivity-gui/src/gui/window.py:1305-1634 | the `try` of `apply_settings`: the file becomes the saved document exactly when saving succeeds, and stays as it was otherwise |
| SettingsForm.MainWindow.ApplySettings | mic-sensitivity-gui/src/gui/window.py:1304-1643 | `apply_settings`: a save error changes nothing; otherwise the file is saved and, only when connected, the saved document is sent through `apply_grouped_settings`; the entries never change and nothing is queried |
| TraceExport.XmlEscapeIsEach | mic-sensitivity-gui/src/upv/upv_auto_config.py:239-244 | because `&` is replaced first, `_xml_escape` equals escaping one character at a time, so no entity is escaped twice |
| TraceExport.XmlEscape | mic-sensitivity-gui/src/upv/upv_auto_config.py:239-244 | `_xml_escape` as written, five replacements with `&` first; text with none of the five characters is unchanged (`XmlEscapeIsEach` gives its full meaning) |
| TraceExport.XmlEscapeChar | mic-sensitivity-gui/src/upv/upv_auto_config.py:239-244 | on one character the replacement chain writes that character's entity |
| TraceExport.XmlEscapeConcat | mic-sensitivity-gui/src/upv/upv_auto_config.py:239-244 | escaping works piece by piece |
| TraceExport.XmlEscapeSafe | mic-sensitivity-gui/src/upv/upv_auto_config.py:239-244 | an escaped value holds no raw `"`, `'`, `<` or `>`, and text without special characters comes out unchanged |
| TraceExport.UnescapeEscape | mic-sensitivity-gui/src/upv/upv_auto_config.py:239-244 | unescaping gives back exactly the escaped text |
| TraceExport.PathName | mic-sensitivity-gui/src/upv/upv_auto_config.py:250 | `Path(p).name` holds no `/` and is never `.`; with the laws below it is the last component of the path that is neither empty nor `.` |
| TraceExport.PathNameSlash | mic-sensitivity-gui/src/upv/upv_auto_config.py:250 | trailing slashes do not change `Path(p).name` |
| TraceExport.PathNameDot | mic-sensitivity-gui/src/upv/upv_auto_config.py:250 | a trailing `.` component does not change `Path(p).name` |
| TraceExport.PathNameLoneDot | mic-sensitivity-gui/src/upv/upv_auto_config.py:250 | `Path("").name` and `Path(".").name` are empty |
| TraceExport.PathNameLast | mic-sensitivity-gui/src/upv/upv_auto_config.py:250 | a last component other than `.` is the name, alone or after any path and a `/` |
| TraceExport.PathStem | mic-sensitivity-gui/src/upv/upv_auto_config.py:232 | `Path(p).stem` is the name cut at its last `.` when that dot is neither the first nor the last character, and the whole name otherwise |
| TraceExport.WorkingTitle | mic-sensitivity-gui/src/upv/upv_auto_config.py:228-236 | the working title is never empty, and is the stripped preset name, the file's stem or `Mic Sensitivity` |
| TraceExport.CurveDataName | mic-sensitivity-gui/src/upv/upv_auto_config.py:249-254 | the curve name is never empty, and is the file's name or `sweep_trace.hxml` |
| TraceExport.TitlePriority | mic-sensitivity-gui/src/upv/upv_auto_config.py:228-254 | the title is the stripped preset name when it is not blank, whatever the export path; otherwise the file's stem when it has one, else `Mic Sensitivity`; the curve name is the file's name with its extension when it has one, else `sweep_trace.hxml` |
| TraceExport.UnitMapGet | mic-sensitivity-gui/src/upv/upv_auto_config.py:314-327 | `unit_map.get(code)`: a found unit is non-empty, and the empty code is not in the table |
| TraceExport.SplToken | mic-sensitivity-gui/src/upv/upv_auto_config.py:283 | a token is upper-cased exactly when it is `spl` in some letter case |
| TraceExport.DbUnit | mic-sensitivity-gui/src/upv/upv_auto_config.py:280-286 | the `db…` branch gives `dB`, then the remaining words one space apart with `spl` written `SPL` |
| TraceExport.SanitizeUserUnit | mic-sensitivity-gui/src/upv/upv_auto_config.py:271-287 | the unit is stripped, unquoted and, when it starts with `db` in any case, rewritten as above; it is empty exactly when the unquoted text is |
| TraceExport.StandardUnit | mic-sensitivity-gui/src/upv/upv_auto_config.py:313-328 | a standard unit is looked up upper-cased and stripped, falling back to the stripped raw text; it is empty exactly when that text is blank |
| TraceExport.StandardRaw | mic-sensitivity-gui/src/upv/upv_auto_config.py:269 | `SENS:UNIT` when it is truthy, else `SENS1:UNIT` |
| TraceExport.UserUnit | mic-sensitivity-gui/src/upv/upv_auto_config.py:289-292 | a user unit counts exactly when it is a string that is not blank after unquoting, and then it is its non-empty sanitised form |
| TraceExport.UserUnitWins | mic-sensitivity-gui/src/upv/upv_auto_config.py:289-292 | a user unit that survives sanitising wins over any standard unit |
| TraceExport.StandardUnitNext | mic-sensitivity-gui/src/upv/upv_auto_config.py:312-328 | without a user unit, a non-blank standard unit is shown in its table spelling, `SENS:UNIT` before `SENS1:UNIT` |
| TraceExport.DefaultUnitLast | mic-sensitivity-gui/src/upv/upv_auto_config.py:264 | a file with neither unit gives `dBV` |
| TraceExport.UserUnitNotDefault | mic-sensitivity-gui/src/upv/upv_auto_config.py:271-287 | no user unit sanitises to `dBV` |
| TraceExport.BlankUnitAsWritten | mic-sensitivity-gui/src/upv/upv_auto_config.py:312-328 | as written, a standard unit of one space gives an empty unit, not `dBV` |
| TraceExport.BlankUnitExported | mic-sensitivity-gui/src/upv/upv_auto_config.py:269-333 | as written, the export of a file whose standard unit is one space has an empty `unit` attribute on its magnitude curve |
| TraceExport.YUnit | mic-sensitivity-gui/src/upv/upv_auto_config.py:263-331 | corrected: the Y unit is never empty |
| TraceExport.YUnitCorrects | mic-sensitivity-gui/src/upv/upv_auto_config.py:263-331 | the correction changes only the empty unit, which becomes `dBV` |
| TraceExport.HxmlUnit | mic-sensitivity-gui/src/upv/upv_auto_config.py:333 | the HXML unit attribute has no spaces, and a unit without spaces is kept |
| TraceExport.Export | mic-sensitivity-gui/src/upv/upv_auto_config.py:221-359 | the export fails exactly when the arrays differ in length or are empty; otherwise it holds both arrays, the escaped title and curve name, each exactly the per-character escape (`EscapeEach`) of its raw form, so an `&` becomes `&amp;`, unescaping to the raw form and holding no raw markup, the measurement date given, and the HXML unit of the Y unit as written (`YUnitAsWritten`), blank standard unit included |
| TraceExport.FetchTrace | mic-sensitivity-gui/src/upv/upv_auto_config.py:213-222 | `fetch_and_plot_trace` queries the two traces, writes nothing, and makes the as-written export exactly when both queries answered and the parsed arrays are valid |
| Readback.DeriveQuery | mic-sensitivity-gui/src/upv/upv_readback.py:65-79 | `None` exactly for a skipped label; otherwise the result ends with `?`, is the special query for the instrument labels, and else the command itself exactly when it already ends with `?`, the command with `?` appended otherwise |
| Readback.DeriveQueryIdempotent | mic-sensitivity-gui/src/upv/upv_readback.py:77-79 | for a label neither skipped nor special, the query form of the query form is the query form |
| Readback.SpecialQueryWins | mic-sensitivity-gui/src/upv/upv_readback.py:55-59 | an instrument label is read by `INST?`, whatever its command |
| Readback.Unquote | mic-sensitivity-gui/src/upv/upv_readback.py:101-104 | defines the stored form of an answer: stripped, then one enclosing pair of double quotes removed when the stripped text has at least two characters |
| Readback.UnquoteShape | mic-sensitivity-gui/src/upv/upv_readback.py:101-104 | the answer is stripped, and only one enclosing pair of double quotes comes off |
| Readback.UnquoteQuoted | mic-sensitivity-gui/src/upv/upv_readback.py:103-104 | quotes put around any text come off again, and only they do |
| Readback.UnquotePlain | mic-sensitivity-gui/src/upv/upv_readback.py:103-104 | a stripped answer without an enclosing pair is stored as it is |
| Readback.Store | mic-sensitivity-gui/src/upv/upv_readback.py:105 | `d[k] = answer` when there is one: `k` then holds it, and every other key keeps its value |
| Readback.SectionQueries | mic-sensitivity-gui/src/upv/upv_readback.py:97-101 | defines the queries of a section's first `k` labels: each label's derived query, in order, skipped labels sending none |
| Readback.Response | mic-sensitivity-gui/src/upv/upv_readback.py:97-108 | defines the answer stored for one label: none when it is skipped or its query raises, else the unquoted answer |
| Readback.SectionOut | mic-sensitivity-gui/src/upv/upv_readback.py:95-108 | defines `section_out` after the first `k` labels: every answered label set to its answer |
| Readback.TableQueries | mic-sensitivity-gui/src/upv/upv_readback.py:94-109 | defines the queries of the first `j` sections of the table, section after section |
| Readback.SectionOutGet | mic-sensitivity-gui/src/upv/upv_readback.py:96-108 | every label whose query was answered holds its answer, and a label that was skipped or whose query raised is missing |
| Readback.SectionOutKeys | mic-sensitivity-gui/src/upv/upv_readback.py:95-108 | a label outside the section's mapping is never in `section_out` |
| Readback.SectionOutRange | mic-sensitivity-gui/src/upv/upv_readback.py:96-108 | later labels leave every other label as it was |
| Readback.Snapshot | mic-sensitivity-gui/src/upv/upv_readback.py:93-110 | the snapshot holds exactly the sections of the table, in order |
| Readback.SnapshotGet | mic-sensitivity-gui/src/upv/upv_readback.py:94-109 | section `i` of the snapshot is its `section_out`, read after the queries of the sections before it |
| Readback.SectionOutsStable | mic-sensitivity-gui/src/upv/upv_readback.py:94-109 | later sections leave an earlier section's `section_out` as it was |
| Readback.ReadLabel | mic-sensitivity-gui/src/upv/upv_readback.py:97-108 | one label: its query, if any, is made, and its answer stored unless the query raised |
| Readback.ReadSection | mic-sensitivity-gui/src/upv/upv_readback.py:95-108 | the label loop queries the section's derived queries in order and builds `section_out`; nothing is written |
| Readback.ReadNextSection | mic-sensitivity-gui/src/upv/upv_readback.py:94-109 | one section of the table extends the queries and the snapshot |
| Readback.ReadTable | mic-sensitivity-gui/src/upv/upv_readback.py:93-110 | the section loop over any table makes exactly the table's queries and returns its snapshot |
| Readback.ReadCurrentSettings | mic-sensitivity-gui/src/upv/upv_readback.py:82-110 | `read_current_settings(upv)` over `command_groups`: nothing is written, the queries are those derived from the table in order, and the result is the snapshot of the answers |
| Text.Strip | mic-sensitivity-gui/src/upv/upv_readback.py:101 | `str.strip()` is the text between its longest leading and longest trailing whitespace runs, and leaves no whitespace at either end |
| Text.ReplaceChar | mic-sensitivity-gui/src/upv/upv_auto_config.py:240-244 | `s.replace(c, rep)` for one character: text without `c` is unchanged, no `c` survives when `rep` holds none, and nothing but `rep` is added |
| Text.Trim | mic-sensitivity-gui/src/upv/upv_readback.py:101 | `str.strip(chars)` is the text between the longest leading run of the set and the longest trailing run of the set in what remains |
| Text.TrimPadded | mic-sensitivity-gui/src/upv/upv_readback.py:101 | trimming removes exactly the padding: text whose ends lie outside the set comes back out of any padding made of the set |
| Text.StripIdempotent | mic-sensitivity-gui/src/upv/upv_readback.py:101 | `s.strip().strip() == s.strip()` |
| Text.ReplaceCharAt | upv_auto_config.py:105 | replacing one character by one character rewrites exactly its occurrences in place, keeping the length |
| Text.SplitJoin | mic-sensitivity-gui/src/upv/upv_auto_config.py:282-285 | `' '.join(words).split()` gives the words back |
| Text.Split | mic-sensitivity-gui/src/upv/upv_auto_config.py:282 | `str.split()` gives non-empty tokens without whitespace |

## Left out

- The Tk widgets themselves are not modelled: frames, scrolling, mouse-wheel bindings, dialogs and status labels. A widget is reduced to the value it holds.
- The reads and writes of `settings.json`, `config.json` and the export file are not modelled. A settings file is a decoded document, or `None` when it cannot be read.
- The JSON encoding round trip is not modelled. Non-string JSON scalars are treated as text.
- Floating-point work is not modelled: the unit conversion handlers of the window, `np.fromstring` (a `parse` parameter) and the `{x:.6f}` formatting of the export.
- matplotlib plotting is not modelled.
- The measurement date is not modelled. It is a `now` parameter, because `datetime.now()` is a clock.
- The pyvisa transport is an oracle. IDN replies, write failures and query answers are parameters, as are whether `open_resource` succeeds (`opens`) and whether the setup file exists. The timeout setting is not modelled.
- TraceExport.PathName: models POSIX paths only. Windows drive and backslash handling of `pathlib` is not modelled.
- Case mapping (`lower`, `upper`) covers the ASCII letters only.
- Text.IsDigit: accepts the ASCII digits only. Python's `\d` in the load patterns also accepts other Unicode decimal digits, such as `٣`; the model leaves such a value unparsed and shows it whole, with the default unit.
- Document.Value: a section field holds text only. A field holding a nested object or array is not modelled; the program would send its Python `repr` in `"<prefix> <value>"`.
- Log message texts are reduced to `Event` constructors carrying the same data.
- The GUI `apply_grouped_settings` does not model its `data is None` path, which reads the file. The window always passes the document.
- The outer `try` around the raw pass is not modelled. Nothing inside it can raise in the model.
- SettingsForm.EntryCode: its last case covers a widget that does not fit its field. That case is never taken on the window's entries.
- `apply_settings` tests the label "Volt Range". The loader binds "Volt Range (Auto/Fix)", so that branch never matches. The entry falls to the final `widget.get()` branch instead, which stores the same text; the model uses that branch.
- The GUI `main()` and the single-sweep and continuous-sweep routines of `upv_auto_config.py` (lines 390-457) are not modelled. They are I/O sequences outside the translation layer.
- `save_settings_snapshot`, `connect_upv` and the `main` of `upv_readback.py` are not modelled, for the same reason.
- `save_settings` of the window is not modelled; `apply_settings` covers storing entries.
- The connection, sweep and fetch handlers of the window are not modelled (`connect_to_upv`, `fetch_data` and the status polling).
- LegacyConfig.Configure: when the session ends in an error, the contract does not say which writes were made before the exception, only that the settings were not all applied.
- LegacyConfig.RunMain: takes the setup path as a parameter. It does not state its log; `Configure` does.
- Discovery.ScanForUpv: the log lines that tell LAN from USB are not modelled.
- `1.upv_auto_config.py` is not part of this model: its text is not valid Python.
- `upv_check.py`, `PC_to_UPV.py` and `mic-sensitivity-gui/src/main.py` are not part of this model. They are a resource scan, a print and the entry point.

## Findings

| source | as written | input that shows it | evidently intended | confidence | as-written member | corrected member |
|---|---|---|---|---|---|---|
| mic-sensitivity-gui/src/gui/window.py:146-150,1237-1239 | `impedance_value` is reset for every section, but the Impedance set-up runs after every section present. A later section therefore rebuilds the Impedance combobox with no stored code. | A file with Generator Config `{"Output Type (Unbal/Bal)": "BAL", "Impedance": "R600"}` followed by an `Analyzer Config` object: the form shows `10 Ω`, and Apply saves `R10`. | The Impedance widget shows and saves the stored code `R600`. | not executed | SettingsForm.ImpedanceResetAsWritten, SettingsForm.ImpedanceLostAsWritten | SettingsForm.LoadedImpedance, SettingsForm.ReloadImpedance, SettingsForm.ImpedanceKept |
| mic-sensitivity-gui/src/gui/window.py:225-229,1342-1347 | Apply writes μV as `uV` for Max Voltage, Ref Voltage and Voltage. The loader only offers `μV`, so it reads `uV` as an unknown unit and shows `V`. | Apply `5` with unit `μV`: the file holds `"5 uV"`. The next load shows `5 V`, and the next Apply writes `"5 V"`. | `"5 uV"` loads back as `5 μV`. | not executed | FieldLaws.VoltMicroLostAsWritten, FieldRules.VoltUnitAsWritten | FieldRules.VoltUnit, FieldLaws.VoltRoundTrip |
| mic-sensitivity-gui/src/upv/upv_auto_config.py:269,312-328 | A `SENS:UNIT` holding only spaces is truthy. So it is chosen, stripped to an empty unit and shown as `""`. | A settings file with `"SENS:UNIT": " "` and no `SENS:USER`: the Y unit and the HXML `unit` attribute are empty. | A blank unit falls back to `dBV`, as an absent one does. | not executed | TraceExport.BlankUnitAsWritten, TraceExport.BlankUnitExported | TraceExport.YUnit, TraceExport.YUnitCorrects |
