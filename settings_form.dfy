/** The settings form of the main window. `load_settings` builds one widget
    per field of the four panels from the settings file, `apply_settings`
    reads every widget back into the file and hands the result to the
    dispatcher. Widgets are modelled by the value they hold (`FieldRules.Widget`);
    what the user types between the two calls is whatever the entries hold. */
module SettingsForm {
  import opened Wrappers
  import opened Dicts
  import opened Document
  import opened DisplayMap
  import opened FieldRules
  import opened Link
  import Dispatch
  import CommandGroups
  import FieldLaws

  /** The four panels, in the order `load_settings` fills them. */
  const SECTIONS: seq<string> := [GENERATOR_CONFIG, ANALYZER_CONFIG, GENERATOR_FUNCTION, ANALYZER_FUNCTION]

  // ---------------------------------------------------------------------
  // The entries: `self.entries`, keyed by (section, name)

  datatype Entry = Entry(section: string, name: string, widget: Widget)

  /** `self.entries.get((s, l))`. */
  function Lookup(es: seq<Entry>, s: string, l: string): Option<Widget> {
    if es == [] then None
    else if es[0].section == s && es[0].name == l then Some(es[0].widget)
    else Lookup(es[1..], s, l)
  }

  /** No (section, name) key twice, as in any Python dictionary. */
  predicate Keyed(es: seq<Entry>) {
    es == [] || (Lookup(es[1..], es[0].section, es[0].name).None? && Keyed(es[1..]))
  }

  /** `self.entries[(s, l)] = w`: an existing key keeps its place, a new one
      goes last. */
  function Bind(es: seq<Entry>, s: string, l: string, w: Widget): (r: seq<Entry>)
    ensures Lookup(r, s, l) == Some(w)
    ensures forall s', l' :: s' != s || l' != l ==> Lookup(r, s', l') == Lookup(es, s', l')
    ensures Lookup(es, s, l).None? ==> r == es + [Entry(s, l, w)]
    ensures Lookup(es, s, l).Some? ==> |r| == |es|
  {
    if es == [] then [Entry(s, l, w)]
    else if es[0].section == s && es[0].name == l then [Entry(s, l, w)] + es[1..]
    else
      var r := [es[0]] + Bind(es[1..], s, l, w);
      assert r[1..] == Bind(es[1..], s, l, w);
      assert es == [es[0]] + es[1..];
      r
  }

  /** A binding adds no entry but its own. */
  lemma {:induction false} BindIn(es: seq<Entry>, s: string, l: string, w: Widget)
    ensures forall e :: e in Bind(es, s, l, w) ==> e in es || e == Entry(s, l, w)
  {
    if es != [] && !(es[0].section == s && es[0].name == l) {
      BindIn(es[1..], s, l, w);
      assert Bind(es, s, l, w) == [es[0]] + Bind(es[1..], s, l, w);
      assert es == [es[0]] + es[1..];
    }
  }

  /** A binding keeps the entries keyed. */
  lemma {:induction false} BindKeyed(es: seq<Entry>, s: string, l: string, w: Widget)
    requires Keyed(es)
    ensures Keyed(Bind(es, s, l, w))
  {
    if es != [] && !(es[0].section == s && es[0].name == l) {
      BindKeyed(es[1..], s, l, w);
      var r := Bind(es, s, l, w);
      assert r == [es[0]] + Bind(es[1..], s, l, w);
      assert r[1..] == Bind(es[1..], s, l, w);
    }
  }

  // ---------------------------------------------------------------------
  // Loading

  /** `self.output_type_combo`: never assigned, `None`, a combobox of the
      form being built (showing `shown`), or one destroyed with an earlier
      form. */
  datatype ComboSlot = Unset | NoCombo | Live(shown: string) | Dead

  /** `self.impedance_frame` / `self.impedance_row`: never assigned, the
      Generator Config panel of the form being built, or a destroyed one. */
  datatype FrameSlot = NoFrame | LiveFrame | DeadFrame

  datatype Form = Form(entries: seq<Entry>, combo: ComboSlot, frame: FrameSlot)

  /** The walk through one section: the form so far and the section's local
      `impedance_value`. */
  datatype Walk = Walk(form: Form, impedance: Option<string>)

  /** A form and whether loading reached its end; `false` is the exception
      that `load_settings` catches and reports, leaving the entries made so
      far in place. */
  datatype Loaded = Loaded(form: Form, ok: bool)

  /** Which sections are followed by the Impedance set-up: as the loader
      stands, every section present in the file; as intended, Generator
      Config only. */
  datatype Refresh = AfterEverySection | AfterGeneratorConfig

  predicate Refreshes(p: Refresh, section: string) {
    p.AfterEverySection? || section == GENERATOR_CONFIG
  }

  /** Clearing the grid destroys every widget of the previous form. */
  function KillCombo(c: ComboSlot): ComboSlot {
    if c.Live? then Dead else c
  }

  function KillFrame(f: FrameSlot): FrameSlot {
    if f.LiveFrame? then DeadFrame else f
  }

  lemma OutputTypeField()
    ensures FieldOf(GENERATOR_CONFIG, OUTPUT_TYPE) == Choice(OUTPUT_TYPE_OPTIONS)
  {
  }

  /** The widget a field is built with as intended: `FieldRules.Load`'s,
      whose voltage load is the corrected one; the Impedance field is built
      only after its section, so it gets a placeholder. */
  function FieldWidget(section: string, name: string, value: string): (w: Widget)
    ensures !(section == GENERATOR_CONFIG && name == IMPEDANCE) ==> w == Load(FieldOf(section, name), value)
    ensures Fits(FieldOf(section, name), w)
  {
    if section == GENERATOR_CONFIG && name == IMPEDANCE then Box(value)
    else Load(FieldOf(section, name), value)
  }

  /** The widget a field is built with by the loader as it stands: that of
      `FieldWidget`, except that a voltage field keeps only an offered unit,
      so a stored `uV` is shown as the first offered unit. */
  function FieldWidgetAsWritten(section: string, name: string, value: string): (w: Widget)
    ensures Fits(FieldOf(section, name), w)
    ensures !FieldOf(section, name).Volt? ==> w == FieldWidget(section, name, value)
    ensures FieldOf(section, name).Volt? ==> w.Pair? && w.unit in FieldOf(section, name).units
  {
    match FieldOf(section, name)
    case Volt(units) => LoadVoltAsWritten(value, units)
    case _ => FieldWidget(section, name, value)
  }

  /** How each field's widget is built from its section, name and stored
      value; the window's builder is `FieldWidgetAsWritten`, and the
      corrected one `FieldWidget`. */
  type Builder = (string, string, string) -> Widget

  /** The widgets of a section's fields, in file order. */
  function Built(build: Builder, section: string, fields: Dict<string>): (b: seq<Widget>)
    requires fields.Shaped()
    ensures |b| == |fields.keys|
    ensures forall i :: 0 <= i < |b| ==> b[i] == build(section, fields.keys[i], fields.vals[i])
  {
    seq(|fields.keys|, i requires 0 <= i < |fields.keys| => build(section, fields.keys[i], fields.vals[i]))
  }

  /** One field of a section, given the widget built for it: the Output
      Type combobox is also kept as `self.output_type_combo`, the Impedance
      field only records its panel and value, every other field gets its
      widget. */
  function LoadField(w: Walk, section: string, name: string, value: string, widget: Widget): Walk {
    if section == GENERATOR_CONFIG && name == OUTPUT_TYPE then
      var c := LoadChoice(OUTPUT_TYPE_OPTIONS, value);
      Walk(Form(Bind(w.form.entries, section, name, c), Live(c.shown), w.form.frame), w.impedance)
    else if section == GENERATOR_CONFIG && name == IMPEDANCE then
      Walk(w.form.(frame := LiveFrame), Some(value))
    else
      Walk(w.form.(entries := Bind(w.form.entries, section, name, widget)), w.impedance)
  }

  /** The first `n` fields of a section, in file order. */
  function LoadFields(w: Walk, section: string, fields: Dict<string>, built: seq<Widget>, n: nat): (r: Walk)
    requires n <= |fields.keys| == |built| && fields.Shaped()
    ensures |w.form.entries| <= |r.form.entries| <= |w.form.entries| + n
  {
    if n == 0 then w
    else LoadField(LoadFields(w, section, fields, built, n - 1), section, fields.keys[n - 1], fields.vals[n - 1], built[n - 1])
  }

  /** `set_impedance_widget` after a section, when there is an Output Type
      combobox: it needs the recorded panel, and reading a destroyed
      combobox or an attribute never assigned raises. */
  function SetImpedance(form: Form, impedance: Option<string>): (r: Loaded)
    ensures r.ok <==> form.combo.NoCombo? || (form.combo.Live? && form.frame.LiveFrame?)
    ensures |form.entries| <= |r.form.entries| <= |form.entries| + 1
  {
    match form.combo
    case NoCombo => Loaded(form, true)
    case Live(shown) =>
      if form.frame.LiveFrame? then
        Loaded(form.(entries := Bind(form.entries, GENERATOR_CONFIG, IMPEDANCE, ImpedanceWidget(shown, impedance))), true)
      else Loaded(form, false)
    case _ => Loaded(form, false)
  }

  /** One panel: nothing when the file lacks the section; a section that is
      not an object raises on `.items()`, after the Generator Config reset
      of `self.output_type_combo`. */
  function LoadSection(form: Form, settings: Doc, section: string, p: Refresh, build: Builder): (r: Loaded)
    requires WellFormed(settings)
    ensures |form.entries| <= |r.form.entries|
  {
    match settings.Get(section)
    case None => Loaded(form, true)
    case Some(v) =>
      var start := if section == GENERATOR_CONFIG then form.(combo := NoCombo) else form;
      if v.Leaf? then Loaded(start, false)
      else
        assert v.fields.Shaped() by { GroupShaped(settings, section); }
        var w := LoadFields(Walk(start, None), section, v.fields, Built(build, section, v.fields), |v.fields.keys|);
        if Refreshes(p, section) then SetImpedance(w.form, w.impedance) else Loaded(w.form, true)
  }

  /** The first `n` panels, stopping at the first exception. */
  function LoadSections(form: Form, settings: Doc, n: nat, p: Refresh, build: Builder): (r: Loaded)
    requires n <= |SECTIONS| && WellFormed(settings)
    ensures |form.entries| <= |r.form.entries|
  {
    if n == 0 then Loaded(form, true)
    else
      var o := LoadSections(form, settings, n - 1, p, build);
      if !o.ok then o else LoadSection(o.form, settings, SECTIONS[n - 1], p, build)
  }

  /** `load_settings` from a form `before`: the old widgets are destroyed and
      the entries cleared; a file that cannot be read or decoded (`None`)
      raises before any panel is filled. */
  function LoadForm(before: Form, file: Option<Doc>, p: Refresh, build: Builder): Loaded
    requires file.Some? ==> WellFormed(file.value)
  {
    var cleared := Form([], KillCombo(before.combo), KillFrame(before.frame));
    match file
    case None => Loaded(cleared, false)
    case Some(settings) => LoadSections(cleared, settings, |SECTIONS|, p, build)
  }

  lemma GroupShaped(settings: Doc, section: string)
    requires WellFormed(settings)
    requires settings.Get(section).Some? && settings.Get(section).value.Group?
    ensures settings.Get(section).value.fields.Shaped()
  {
    var i := IndexOf(settings.keys, section).value;
    assert settings.vals[i] == settings.Get(section).value;
  }

  /** Once a panel has raised, the later panels are not reached. */
  lemma {:induction false} LoadStopped(form: Form, settings: Doc, k: nat, n: nat, p: Refresh, build: Builder)
    requires k <= n <= |SECTIONS| && WellFormed(settings)
    requires !LoadSections(form, settings, k, p, build).ok
    ensures LoadSections(form, settings, n, p, build) == LoadSections(form, settings, k, p, build)
    decreases n
  {
    if n > k {
      LoadStopped(form, settings, k, n - 1, p, build);
    }
  }

  /** A settings file as `json.load` decodes it: no key twice in the
      document or in any of its objects. */
  ghost predicate Decoded(d: Doc) {
    d.Valid() && forall i :: 0 <= i < |d.vals| && d.vals[i].Group? ==> d.vals[i].fields.Valid()
  }

  lemma DecodedWellFormed(d: Doc)
    requires Decoded(d)
    ensures WellFormed(d)
  {
  }

  lemma GroupValid(settings: Doc, section: string)
    requires Decoded(settings)
    requires settings.Get(section).Some? && settings.Get(section).value.Group?
    ensures settings.Get(section).value.fields.Valid()
  {
    var i := IndexOf(settings.keys, section).value;
    assert settings.vals[i] == settings.Get(section).value;
  }

  /** The four panels are distinct, Generator Config first. */
  lemma SectionsDistinct()
    ensures Distinct(SECTIONS) && SECTIONS[0] == GENERATOR_CONFIG
  {
  }

  // Load properties

  /** A section's fields touch no entry of another section. */
  lemma {:induction false} LoadFieldsOther(w: Walk, section: string, fields: Dict<string>, built: seq<Widget>, n: nat, s: string, l: string)
    requires n <= |fields.keys| == |built| && fields.Shaped() && s != section
    ensures Lookup(LoadFields(w, section, fields, built, n).form.entries, s, l) == Lookup(w.form.entries, s, l)
  {
    if n > 0 {
      LoadFieldsOther(w, section, fields, built, n - 1, s, l);
    }
  }

  /** What a field other than Impedance binds: the Output Type combobox on
      its table, any other field its widget. */
  function Bound(section: string, name: string, value: string, widget: Widget): Widget {
    if section == GENERATOR_CONFIG && name == OUTPUT_TYPE then LoadChoice(OUTPUT_TYPE_OPTIONS, value) else widget
  }

  /** After the fields of a section, each of them but the Impedance field
      holds what it bound. */
  lemma {:induction false} LoadFieldsFills(w: Walk, section: string, fields: Dict<string>, built: seq<Widget>, n: nat, i: nat)
    requires n <= |fields.keys| == |built| && fields.Valid() && i < n
    requires !(section == GENERATOR_CONFIG && fields.keys[i] == IMPEDANCE)
    ensures Lookup(LoadFields(w, section, fields, built, n).form.entries, section, fields.keys[i])
         == Some(Bound(section, fields.keys[i], fields.vals[i], built[i]))
  {
    if n > i + 1 {
      LoadFieldsFills(w, section, fields, built, n - 1, i);
      assert fields.keys[n - 1] != fields.keys[i];
    }
  }

  /** After the Generator Config fields, the Output Type field has set the
      combobox and the Impedance field the panel and the value. */
  lemma {:induction false} LoadFieldsPanel(w: Walk, fields: Dict<string>, built: seq<Widget>, n: nat, i: nat)
    requires n <= |fields.keys| == |built| && fields.Valid() && i < n
    ensures var r := LoadFields(w, GENERATOR_CONFIG, fields, built, n);
      (fields.keys[i] == IMPEDANCE ==> r.impedance == Some(fields.vals[i]) && r.form.frame == LiveFrame) &&
      (fields.keys[i] == OUTPUT_TYPE ==> r.form.combo == Live(LoadChoice(OUTPUT_TYPE_OPTIONS, fields.vals[i]).shown))
  {
    if fields.keys[i] == IMPEDANCE {
      LoadFieldsImpedance(w, fields, built, n, i);
    }
    if fields.keys[i] == OUTPUT_TYPE {
      LoadFieldsCombo(w, fields, built, n, i);
    }
  }

  lemma {:induction false} LoadFieldsImpedance(w: Walk, fields: Dict<string>, built: seq<Widget>, n: nat, i: nat)
    requires n <= |fields.keys| == |built| && fields.Valid() && i < n && fields.keys[i] == IMPEDANCE
    ensures LoadFields(w, GENERATOR_CONFIG, fields, built, n).impedance == Some(fields.vals[i])
    ensures LoadFields(w, GENERATOR_CONFIG, fields, built, n).form.frame == LiveFrame
  {
    if n > i + 1 {
      LoadFieldsImpedance(w, fields, built, n - 1, i);
      var name := fields.keys[n - 1];
      assert name != IMPEDANCE;
      var prev := LoadFields(w, GENERATOR_CONFIG, fields, built, n - 1);
      assert LoadFields(w, GENERATOR_CONFIG, fields, built, n) == LoadField(prev, GENERATOR_CONFIG, name, fields.vals[n - 1], built[n - 1]);
    }
  }

  lemma {:induction false} LoadFieldsCombo(w: Walk, fields: Dict<string>, built: seq<Widget>, n: nat, i: nat)
    requires n <= |fields.keys| == |built| && fields.Valid() && i < n && fields.keys[i] == OUTPUT_TYPE
    ensures LoadFields(w, GENERATOR_CONFIG, fields, built, n).form.combo == Live(LoadChoice(OUTPUT_TYPE_OPTIONS, fields.vals[i]).shown)
  {
    if n > i + 1 {
      LoadFieldsCombo(w, fields, built, n - 1, i);
      var name := fields.keys[n - 1];
      assert name != OUTPUT_TYPE;
      var prev := LoadFields(w, GENERATOR_CONFIG, fields, built, n - 1);
      assert LoadFields(w, GENERATOR_CONFIG, fields, built, n) == LoadField(prev, GENERATOR_CONFIG, name, fields.vals[n - 1], built[n - 1]);
    }
  }

  /** A panel touches only its own entries, and the Impedance entry when
      the Impedance set-up follows it. */
  lemma LoadSectionOther(form: Form, settings: Doc, section: string, p: Refresh, build: Builder, s: string, l: string)
    requires WellFormed(settings) && s != section
    requires Refreshes(p, section) ==> !(s == GENERATOR_CONFIG && l == IMPEDANCE)
    ensures Lookup(LoadSection(form, settings, section, p, build).form.entries, s, l) == Lookup(form.entries, s, l)
  {
    match settings.Get(section)
    case None =>
    case Some(v) =>
      if v.Group? {
        GroupShaped(settings, section);
        var start := if section == GENERATOR_CONFIG then form.(combo := NoCombo) else form;
        LoadFieldsOther(Walk(start, None), section, v.fields, Built(build, section, v.fields), |v.fields.keys|, s, l);
      }
  }

  /** A Group section's fields, bar Impedance, hold their loaded widgets
      after its panel. */
  lemma LoadSectionFills(form: Form, settings: Doc, section: string, p: Refresh, build: Builder, fields: Dict<string>, i: nat)
    requires Decoded(settings) && settings.Get(section) == Some(Group(fields))
    requires i < |fields.keys| && !(section == GENERATOR_CONFIG && fields.keys[i] == IMPEDANCE)
    ensures WellFormed(settings)
    ensures Lookup(LoadSection(form, settings, section, p, build).form.entries, section, fields.keys[i])
         == Some(Bound(section, fields.keys[i], fields.vals[i], build(section, fields.keys[i], fields.vals[i])))
  {
    GroupValid(settings, section);
    var start := if section == GENERATOR_CONFIG then form.(combo := NoCombo) else form;
    var built := Built(build, section, fields);
    LoadFieldsFills(Walk(start, None), section, fields, built, |fields.keys|, i);
  }

  /** Panels `k` to `n` leave an entry alone that none of them owns. */
  lemma {:induction false} LoadSectionsOther(form: Form, settings: Doc, k: nat, n: nat, p: Refresh, build: Builder, s: string, l: string)
    requires k <= n <= |SECTIONS| && WellFormed(settings)
    requires forall j :: k <= j < n ==> s != SECTIONS[j] && (Refreshes(p, SECTIONS[j]) ==> !(s == GENERATOR_CONFIG && l == IMPEDANCE))
    ensures Lookup(LoadSections(form, settings, n, p, build).form.entries, s, l) == Lookup(LoadSections(form, settings, k, p, build).form.entries, s, l)
    decreases n
  {
    if n > k {
      LoadSectionsOther(form, settings, k, n - 1, p, build, s, l);
      var o := LoadSections(form, settings, n - 1, p, build);
      if o.ok {
        LoadSectionOther(o.form, settings, SECTIONS[n - 1], p, build, s, l);
      }
    }
  }

  /** A load that reached its end reached every panel. */
  lemma LoadReached(form: Form, settings: Doc, k: nat, p: Refresh, build: Builder)
    requires k <= |SECTIONS| && WellFormed(settings)
    requires LoadSections(form, settings, |SECTIONS|, p, build).ok
    ensures LoadSections(form, settings, k, p, build).ok
  {
    if !LoadSections(form, settings, k, p, build).ok {
      LoadStopped(form, settings, k, |SECTIONS|, p, build);
    }
  }

  /** After a load that reached its end, every field of the four panels
      but Impedance holds the widget loaded from its stored value. */
  lemma LoadedField(before: Form, settings: Doc, p: Refresh, build: Builder, k: nat, fields: Dict<string>, i: nat)
    requires Decoded(settings) && k < |SECTIONS|
    requires settings.Get(SECTIONS[k]) == Some(Group(fields)) && i < |fields.keys|
    requires !(SECTIONS[k] == GENERATOR_CONFIG && fields.keys[i] == IMPEDANCE)
    requires LoadForm(before, Some(settings), p, build).ok
    ensures Lookup(LoadForm(before, Some(settings), p, build).form.entries, SECTIONS[k], fields.keys[i])
         == Some(Bound(SECTIONS[k], fields.keys[i], fields.vals[i], build(SECTIONS[k], fields.keys[i], fields.vals[i])))
  {
    DecodedWellFormed(settings);
    var cleared := Form([], KillCombo(before.combo), KillFrame(before.frame));
    var section := SECTIONS[k];
    LoadReached(cleared, settings, k, p, build);
    var o := LoadSections(cleared, settings, k, p, build);
    LoadSectionFills(o.form, settings, section, p, build, fields, i);
    SectionsDistinct();
    LoadSectionsOther(cleared, settings, k + 1, |SECTIONS|, p, build, section, fields.keys[i]);
  }

  /** With the window's builder, every field but Impedance holds the
      widget `FieldRules.Load` builds from its stored value, except a
      voltage field, which holds the loader's own voltage widget. */
  lemma LoadedWidget(before: Form, settings: Doc, p: Refresh, k: nat, fields: Dict<string>, i: nat)
    requires Decoded(settings) && k < |SECTIONS|
    requires settings.Get(SECTIONS[k]) == Some(Group(fields)) && i < |fields.keys|
    requires !(SECTIONS[k] == GENERATOR_CONFIG && fields.keys[i] == IMPEDANCE)
    requires LoadForm(before, Some(settings), p, FieldWidgetAsWritten).ok
    ensures var f := FieldOf(SECTIONS[k], fields.keys[i]);
      Lookup(LoadForm(before, Some(settings), p, FieldWidgetAsWritten).form.entries, SECTIONS[k], fields.keys[i])
      == Some(if f.Volt? then LoadVoltAsWritten(fields.vals[i], f.units) else Load(f, fields.vals[i]))
  {
    LoadedField(before, settings, p, FieldWidgetAsWritten, k, fields, i);
    OutputTypeField();
  }

  /** A section that is a scalar ends the load in the error message. */
  lemma LoadScalarFails(before: Form, settings: Doc, p: Refresh, build: Builder, k: nat)
    requires WellFormed(settings) && k < |SECTIONS|
    requires settings.Get(SECTIONS[k]).Some? && settings.Get(SECTIONS[k]).value.Leaf?
    ensures !LoadForm(before, Some(settings), p, build).ok
  {
    var cleared := Form([], KillCombo(before.combo), KillFrame(before.frame));
    assert !LoadSections(cleared, settings, k + 1, p, build).ok;
    LoadStopped(cleared, settings, k + 1, |SECTIONS|, p, build);
  }

  /** The Generator Config panel, with both an Output Type and an
      Impedance field, ends with the Impedance widget built on the shown
      output type and the stored code. */
  lemma LoadSectionImpedance(form: Form, settings: Doc, p: Refresh, build: Builder, fields: Dict<string>, i: nat, j: nat)
    requires Decoded(settings) && settings.Get(GENERATOR_CONFIG) == Some(Group(fields))
    requires i < |fields.keys| && j < |fields.keys| && fields.keys[i] == OUTPUT_TYPE && fields.keys[j] == IMPEDANCE
    ensures WellFormed(settings)
    ensures LoadSection(form, settings, GENERATOR_CONFIG, p, build).ok
    ensures Lookup(LoadSection(form, settings, GENERATOR_CONFIG, p, build).form.entries, GENERATOR_CONFIG, IMPEDANCE)
         == Some(ImpedanceWidget(LoadChoice(OUTPUT_TYPE_OPTIONS, fields.vals[i]).shown, Some(fields.vals[j])))
  {
    GroupValid(settings, GENERATOR_CONFIG);
    var w := Walk(form.(combo := NoCombo), None);
    var built := Built(build, GENERATOR_CONFIG, fields);
    LoadFieldsPanel(w, fields, built, |fields.keys|, i);
    LoadFieldsPanel(w, fields, built, |fields.keys|, j);
  }

  /** As intended, the Impedance widget after a load is built on the shown
      output type and the code stored in the file. */
  lemma LoadedImpedance(before: Form, settings: Doc, build: Builder, fields: Dict<string>, i: nat, j: nat)
    requires Decoded(settings) && settings.Get(GENERATOR_CONFIG) == Some(Group(fields))
    requires i < |fields.keys| && j < |fields.keys| && fields.keys[i] == OUTPUT_TYPE && fields.keys[j] == IMPEDANCE
    ensures Lookup(LoadForm(before, Some(settings), AfterGeneratorConfig, build).form.entries, GENERATOR_CONFIG, IMPEDANCE)
         == Some(ImpedanceWidget(LoadChoice(OUTPUT_TYPE_OPTIONS, fields.vals[i]).shown, Some(fields.vals[j])))
  {
    var cleared := Form([], KillCombo(before.combo), KillFrame(before.frame));
    SectionsDistinct();
    LoadSectionImpedance(cleared, settings, AfterGeneratorConfig, build, fields, i, j);
    LoadSectionsOther(cleared, settings, 1, |SECTIONS|, AfterGeneratorConfig, build, GENERATOR_CONFIG, IMPEDANCE);
  }

  /** As the loader stands, an object section after Generator Config
      rebuilds the Impedance widget with no stored code. */
  lemma LoadSectionResets(form: Form, settings: Doc, section: string, build: Builder, shown: string)
    requires WellFormed(settings) && section != GENERATOR_CONFIG
    requires settings.Get(section).Some? && settings.Get(section).value.Group?
    requires form.combo == Live(shown) && form.frame == LiveFrame
    ensures LoadSection(form, settings, section, AfterEverySection, build).ok
    ensures Lookup(LoadSection(form, settings, section, AfterEverySection, build).form.entries, GENERATOR_CONFIG, IMPEDANCE)
         == Some(ImpedanceWidget(shown, None))
  {
    GroupShaped(settings, section);
    var fields := settings.Get(section).value.fields;
    var w := Walk(form, None);
    var built := Built(build, section, fields);
    LoadFieldsKeep(w, section, fields, built, |fields.keys|);
  }

  /** Outside Generator Config the walk keeps the combobox, the panel and
      the section's impedance value. */
  lemma {:induction false} LoadFieldsKeep(w: Walk, section: string, fields: Dict<string>, built: seq<Widget>, n: nat)
    requires n <= |fields.keys| == |built| && fields.Shaped() && section != GENERATOR_CONFIG
    ensures LoadFields(w, section, fields, built, n).form.combo == w.form.combo
    ensures LoadFields(w, section, fields, built, n).form.frame == w.form.frame
    ensures LoadFields(w, section, fields, built, n).impedance == w.impedance
  {
    if n > 0 {
      LoadFieldsKeep(w, section, fields, built, n - 1);
    }
  }

  /** The settings file of the finding on the Impedance field: a balanced
      output at 600 Ω, followed by an empty Analyzer Config object. */
  function BalancedFile(): (d: Doc)
    ensures Decoded(d) && d.Get(GENERATOR_CONFIG) == Some(Group(Dict([OUTPUT_TYPE, IMPEDANCE], ["BAL", "R600"])))
    ensures d.Get(ANALYZER_CONFIG) == Some(Group(Dict([], [])))
  {
    Dict([GENERATOR_CONFIG, ANALYZER_CONFIG], [Group(Dict([OUTPUT_TYPE, IMPEDANCE], ["BAL", "R600"])), Group(Dict([], []))])
  }

  /** Panels missing from the file change nothing. */
  lemma {:induction false} LoadSectionsAbsent(form: Form, settings: Doc, k: nat, n: nat, p: Refresh, build: Builder)
    requires k <= n <= |SECTIONS| && WellFormed(settings)
    requires forall j :: k <= j < n ==> settings.Get(SECTIONS[j]).None?
    ensures LoadSections(form, settings, n, p, build) == LoadSections(form, settings, k, p, build)
    decreases n
  {
    if n > k {
      LoadSectionsAbsent(form, settings, k, n - 1, p, build);
    }
  }

  /** The Generator Config panel of the balanced file leaves a live `Bal`
      combobox and the Impedance panel. */
  lemma BalancedFirstPanel(cleared: Form, p: Refresh, build: Builder)
    ensures LoadSections(cleared, BalancedFile(), 1, p, build).ok
    ensures LoadSections(cleared, BalancedFile(), 1, p, build).form.combo == Live("Bal")
    ensures LoadSections(cleared, BalancedFile(), 1, p, build).form.frame == LiveFrame
  {
    var fields := Dict([OUTPUT_TYPE, IMPEDANCE], ["BAL", "R600"]);
    var w := Walk(cleared.(combo := NoCombo), None);
    var built := Built(build, GENERATOR_CONFIG, fields);
    LoadFieldsPanel(w, fields, built, 2, 0);
    LoadFieldsPanel(w, fields, built, 2, 1);
  }

  /** The loader as it stands: after Analyzer Config the Impedance widget
      shows `10 Ω` for a file that stores `R600`. */
  lemma ImpedanceResetAsWritten(before: Form, build: Builder)
    ensures Lookup(LoadForm(before, Some(BalancedFile()), AfterEverySection, build).form.entries, GENERATOR_CONFIG, IMPEDANCE)
         == Some(Combo("10 Ω"))
  {
    var d := BalancedFile();
    var cleared := Form([], KillCombo(before.combo), KillFrame(before.frame));
    BalancedFirstPanel(cleared, AfterEverySection, build);
    var o1 := LoadSections(cleared, d, 1, AfterEverySection, build);
    LoadSectionResets(o1.form, d, ANALYZER_CONFIG, build, "Bal");
    LoadSectionsAbsent(cleared, d, 2, |SECTIONS|, AfterEverySection, build);
  }

  // Entries

  /** Bindings keep the entries keyed. */
  lemma {:induction false} LoadFieldsKeyed(w: Walk, section: string, fields: Dict<string>, built: seq<Widget>, n: nat)
    requires n <= |fields.keys| == |built| && fields.Shaped() && Keyed(w.form.entries)
    ensures Keyed(LoadFields(w, section, fields, built, n).form.entries)
  {
    if n > 0 {
      LoadFieldsKeyed(w, section, fields, built, n - 1);
      var prev := LoadFields(w, section, fields, built, n - 1);
      BindKeyed(prev.form.entries, section, fields.keys[n - 1], Bound(section, fields.keys[n - 1], fields.vals[n - 1], built[n - 1]));
    }
  }

  lemma LoadSectionKeyed(form: Form, settings: Doc, section: string, p: Refresh, build: Builder)
    requires WellFormed(settings) && Keyed(form.entries)
    ensures Keyed(LoadSection(form, settings, section, p, build).form.entries)
  {
    match settings.Get(section)
    case None =>
    case Some(v) =>
      if v.Group? {
        GroupShaped(settings, section);
        var start := if section == GENERATOR_CONFIG then form.(combo := NoCombo) else form;
        LoadFieldsKeyed(Walk(start, None), section, v.fields, Built(build, section, v.fields), |v.fields.keys|);
        var w := LoadFields(Walk(start, None), section, v.fields, Built(build, section, v.fields), |v.fields.keys|);
        SetImpedanceKeyed(w.form, w.impedance);
      }
  }

  lemma SetImpedanceKeyed(form: Form, impedance: Option<string>)
    requires Keyed(form.entries)
    ensures Keyed(SetImpedance(form, impedance).form.entries)
  {
    if form.combo.Live? {
      BindKeyed(form.entries, GENERATOR_CONFIG, IMPEDANCE, ImpedanceWidget(form.combo.shown, impedance));
    }
  }

  lemma {:induction false} LoadSectionsKeyed(form: Form, settings: Doc, n: nat, p: Refresh, build: Builder)
    requires n <= |SECTIONS| && WellFormed(settings) && Keyed(form.entries)
    ensures Keyed(LoadSections(form, settings, n, p, build).form.entries)
  {
    if n > 0 {
      LoadSectionsKeyed(form, settings, n - 1, p, build);
      var o := LoadSections(form, settings, n - 1, p, build);
      if o.ok {
        LoadSectionKeyed(o.form, settings, SECTIONS[n - 1], p, build);
      }
    }
  }

  /** A load, finished or not, leaves no (section, name) key twice. */
  lemma LoadFormKeyed(before: Form, file: Option<Doc>, p: Refresh, build: Builder)
    requires file.Some? ==> WellFormed(file.value)
    ensures Keyed(LoadForm(before, file, p, build).form.entries)
  {
    if file.Some? {
      LoadSectionsKeyed(Form([], KillCombo(before.combo), KillFrame(before.frame)), file.value, |SECTIONS|, p, build);
    }
  }

  /** The entry a lookup finds. */
  lemma {:induction false} LookupAt(es: seq<Entry>, s: string, l: string) returns (i: nat)
    requires Lookup(es, s, l).Some?
    ensures i < |es| && es[i] == Entry(s, l, Lookup(es, s, l).value)
  {
    if es[0].section == s && es[0].name == l {
      i := 0;
    } else {
      var k := LookupAt(es[1..], s, l);
      i := k + 1;
    }
  }

  /** A failed lookup means no entry has the key. */
  lemma {:induction false} LookupMissing(es: seq<Entry>, s: string, l: string, j: nat)
    requires Lookup(es, s, l).None? && j < |es|
    ensures es[j].section != s || es[j].name != l
  {
    if j > 0 {
      LookupMissing(es[1..], s, l, j - 1);
    }
  }

  /** In keyed entries two positions hold two keys. */
  lemma {:induction false} KeyedApart(es: seq<Entry>, i: nat, j: nat)
    requires Keyed(es) && i < j < |es|
    ensures es[i].section != es[j].section || es[i].name != es[j].name
  {
    if i == 0 {
      LookupMissing(es[1..], es[0].section, es[0].name, j - 1);
    } else {
      KeyedApart(es[1..], i - 1, j - 1);
    }
  }

  // ---------------------------------------------------------------------
  // Saving: `apply_settings` up to `json.dump`

  /** `settings[s]` exists and is an object. */
  predicate HasObject(d: Doc, s: string)
    requires d.Shaped()
  {
    d.Get(s).Some? && d.Get(s).value.Group?
  }

  /** `settings[s][l]`, when there is one. */
  function FieldValue(d: Doc, s: string, l: string): Option<string>
    requires WellFormed(d)
  {
    match d.Get(s)
    case Some(Group(fields)) => assert fields.Shaped() by { GroupShaped(d, s); } fields.Get(l)
    case _ => None
  }

  /** `settings[s][l] = v`. `None` is the exception: `KeyError` when the
      file has no section `s`, `TypeError` when it holds a scalar there. */
  function Store(d: Doc, s: string, l: string, v: string): (r: Option<Doc>)
    requires Decoded(d)
    ensures r.Some? <==> HasObject(d, s)
    ensures r.Some? ==> Decoded(r.value) && r.value.keys == d.keys
    ensures r.Some? ==> forall s' :: HasObject(r.value, s') == HasObject(d, s')
    ensures r.Some? ==> FieldValue(r.value, s, l) == Some(v)
    ensures r.Some? ==> forall s', l' :: s' != s || l' != l ==> FieldValue(r.value, s', l') == FieldValue(d, s', l')
  {
    match d.Get(s)
    case Some(Group(fields)) =>
      GroupValid(d, s);
      var r := d.Put(s, Group(fields.Put(l, v)));
      assert Decoded(r) by {
        var i := IndexOf(d.keys, s).value;
        assert r.vals == d.vals[i := Group(fields.Put(l, v))];
      }
      Some(r)
    case _ => None
  }

  /** What `apply_settings` stores for an entry, `None` when its branch
      stores nothing; the window's coder is `EntryCode`. */
  type Coder = Entry -> Option<string>

  /** The branch of `apply_settings` an entry takes. A widget built by
      `FieldWidgetAsWritten` or `FieldWidget` fits its field, so on the
      window's entries the last case is never taken. */
  function EntryCode(e: Entry): (r: Option<string>)
    ensures Fits(FieldOf(e.section, e.name), e.widget) ==> r == Apply(FieldOf(e.section, e.name), e.widget)
  {
    var f := FieldOf(e.section, e.name);
    if Fits(f, e.widget) then Apply(f, e.widget) else None
  }

  /** The first `n` entries stored into `d`, in insertion order, stopping at
      the first exception. */
  function StoreEntries(d: Doc, es: seq<Entry>, n: nat, code: Coder): (r: Option<Doc>)
    requires Decoded(d) && n <= |es|
    ensures r.Some? ==> Decoded(r.value) && r.value.keys == d.keys
  {
    if n == 0 then Some(d)
    else
      match StoreEntries(d, es, n - 1, code)
      case None => None
      case Some(prev) =>
        match code(es[n - 1])
        case None => Some(prev)
        case Some(v) => Store(prev, es[n - 1].section, es[n - 1].name, v)
  }

  /** Storing leaves every section an object exactly when it was one. */
  lemma {:induction false} StoreEntriesObjects(d: Doc, es: seq<Entry>, n: nat, code: Coder, s: string)
    requires Decoded(d) && n <= |es| && StoreEntries(d, es, n, code).Some?
    ensures HasObject(StoreEntries(d, es, n, code).value, s) == HasObject(d, s)
  {
    if n > 0 {
      StoreEntriesObjects(d, es, n - 1, code, s);
    }
  }

  /** Storing succeeds exactly when every entry that stores finds its
      section as an object. */
  lemma {:induction false} StoreEntriesSucceeds(d: Doc, es: seq<Entry>, n: nat, code: Coder)
    requires Decoded(d) && n <= |es|
    ensures StoreEntries(d, es, n, code).Some? <==>
      forall j :: 0 <= j < n && code(es[j]).Some? ==> HasObject(d, es[j].section)
  {
    if n > 0 {
      StoreEntriesSucceeds(d, es, n - 1, code);
      var e := es[n - 1];
      var prev := StoreEntries(d, es, n - 1, code);
      var r := StoreEntries(d, es, n, code);
      StoresNext(d, es, n, code);
      if prev.None? {
        assert r.None?;
      } else if code(e).None? {
        assert r == prev;
      } else {
        assert r == Store(prev.value, e.section, e.name, code(e).value);
        StoreEntriesObjects(d, es, n - 1, code, e.section);
      }
    }
  }

  /** Once storing has raised, later entries change nothing. */
  lemma {:induction false} StoreEntriesStopped(d: Doc, es: seq<Entry>, k: nat, n: nat, code: Coder)
    requires Decoded(d) && k <= n <= |es| && StoreEntries(d, es, k, code).None?
    ensures StoreEntries(d, es, n, code).None?
    decreases n
  {
    if n > k {
      StoreEntriesStopped(d, es, k, n - 1, code);
      StoreEntriesNone(d, es, n, code);
    }
  }

  lemma StoreEntriesNone(d: Doc, es: seq<Entry>, n: nat, code: Coder)
    requires Decoded(d) && 0 < n <= |es| && StoreEntries(d, es, n - 1, code).None?
    ensures StoreEntries(d, es, n, code).None?
  {
  }

  lemma StoresNext(d: Doc, es: seq<Entry>, n: nat, code: Coder)
    requires Decoded(d) && 0 < n <= |es|
    ensures (forall j :: 0 <= j < n && code(es[j]).Some? ==> HasObject(d, es[j].section)) <==>
      (forall j :: 0 <= j < n - 1 && code(es[j]).Some? ==> HasObject(d, es[j].section)) &&
      (code(es[n - 1]).Some? ==> HasObject(d, es[n - 1].section))
  {
  }

  /** A stored entry's field holds its value at the end. */
  lemma {:induction false} StoreEntriesValue(d: Doc, es: seq<Entry>, n: nat, code: Coder, i: nat)
    requires Decoded(d) && i < n <= |es| && Keyed(es)
    requires StoreEntries(d, es, n, code).Some? && code(es[i]).Some?
    ensures FieldValue(StoreEntries(d, es, n, code).value, es[i].section, es[i].name) == code(es[i])
  {
    if n > i + 1 {
      StoreEntriesValue(d, es, n - 1, code, i);
      KeyedApart(es, i, n - 1);
    }
  }

  /** A field no stored entry names keeps the value the file had. */
  lemma {:induction false} StoreEntriesKeeps(d: Doc, es: seq<Entry>, n: nat, code: Coder, s: string, l: string)
    requires Decoded(d) && n <= |es| && StoreEntries(d, es, n, code).Some?
    requires forall j :: 0 <= j < n && es[j].section == s && es[j].name == l ==> code(es[j]).None?
    ensures FieldValue(StoreEntries(d, es, n, code).value, s, l) == FieldValue(d, s, l)
  {
    if n > 0 {
      StoreEntriesKeeps(d, es, n - 1, code, s, l);
    }
  }

  /** The document `apply_settings` writes back to the file, or `None` for
      its "Save Error": an unreadable file, an exception while storing the
      entries, or no Impedance entry (`self.entries[...]` raises). The
      Impedance field is stored last, from its widget. */
  function Saved(file: Option<Doc>, es: seq<Entry>, code: Coder): (r: Option<Doc>)
    requires file.Some? ==> Decoded(file.value)
    ensures r.Some? ==> file.Some? && Decoded(r.value) && r.value.keys == file.value.keys
  {
    match file
    case None => None
    case Some(d) =>
      match StoreEntries(d, es, |es|, code)
      case None => None
      case Some(stored) =>
        match Lookup(es, GENERATOR_CONFIG, IMPEDANCE)
        case None => None
        case Some(w) => Store(stored, GENERATOR_CONFIG, IMPEDANCE, ImpedanceCode(w))
  }

  /** Saving succeeds exactly when the file is readable, every entry that
      stores finds its section as an object, and there is an Impedance
      entry in an object Generator Config section. */
  lemma SavedSucceeds(d: Doc, es: seq<Entry>, code: Coder)
    requires Decoded(d)
    ensures Saved(Some(d), es, code).Some? <==>
      (forall j :: 0 <= j < |es| && code(es[j]).Some? ==> HasObject(d, es[j].section)) &&
      Lookup(es, GENERATOR_CONFIG, IMPEDANCE).Some? && HasObject(d, GENERATOR_CONFIG)
  {
    StoreEntriesSucceeds(d, es, |es|, code);
    if StoreEntries(d, es, |es|, code).Some? {
      StoreEntriesObjects(d, es, |es|, code, GENERATOR_CONFIG);
    }
  }

  /** After saving, a stored entry's field holds the entry's value, the
      Impedance field the code of its widget, and every other field its
      value in the file. */
  lemma SavedFields(d: Doc, es: seq<Entry>, code: Coder, s: string, l: string)
    requires Decoded(d) && Keyed(es) && Saved(Some(d), es, code).Some?
    ensures s == GENERATOR_CONFIG && l == IMPEDANCE ==>
      FieldValue(Saved(Some(d), es, code).value, s, l) == Some(ImpedanceCode(Lookup(es, s, l).value))
    ensures !(s == GENERATOR_CONFIG && l == IMPEDANCE) && Lookup(es, s, l).Some? && code(Entry(s, l, Lookup(es, s, l).value)).Some? ==>
      FieldValue(Saved(Some(d), es, code).value, s, l) == code(Entry(s, l, Lookup(es, s, l).value))
    ensures !(s == GENERATOR_CONFIG && l == IMPEDANCE) && (Lookup(es, s, l).None? || code(Entry(s, l, Lookup(es, s, l).value)).None?) ==>
      FieldValue(Saved(Some(d), es, code).value, s, l) == FieldValue(d, s, l)
  {
    if !(s == GENERATOR_CONFIG && l == IMPEDANCE) {
      match Lookup(es, s, l)
      case Some(w) =>
        var i := LookupAt(es, s, l);
        if code(es[i]).Some? {
          StoreEntriesValue(d, es, |es|, code, i);
        } else {
          forall j | 0 <= j < |es| && j != i
            ensures es[j].section != s || es[j].name != l
          {
            if i < j { KeyedApart(es, i, j); } else { KeyedApart(es, j, i); }
          }
          StoreEntriesKeeps(d, es, |es|, code, s, l);
        }
      case None =>
        forall j | 0 <= j < |es|
          ensures es[j].section != s || es[j].name != l
        {
          LookupMissing(es, s, l, j);
        }
        StoreEntriesKeeps(d, es, |es|, code, s, l);
    }
  }

  // Load, then save

  /** Every entry lies in an object section of `d`, and so does a live
      Output Type combobox. */
  predicate Sound(form: Form, d: Doc)
    requires d.Shaped()
  {
    (forall e :: e in form.entries ==> HasObject(d, e.section)) &&
    (form.combo.Live? ==> HasObject(d, GENERATOR_CONFIG))
  }

  lemma LoadFieldsSound(w: Walk, d: Doc, section: string, fields: Dict<string>, built: seq<Widget>, n: nat)
    requires n <= |fields.keys| == |built| && fields.Shaped() && d.Shaped()
    requires Sound(w.form, d) && HasObject(d, section)
    ensures Sound(LoadFields(w, section, fields, built, n).form, d)
  {
    LoadFieldsWithin(w, section, fields, built, n);
  }

  /** What a section's fields add to a form: entries of that section, and
      the Output Type combobox only in Generator Config. */
  ghost predicate Within(form: Form, before: Form, section: string) {
    (forall e :: e in form.entries ==> e in before.entries || e.section == section) &&
    (form.combo.Live? ==> before.combo.Live? || section == GENERATOR_CONFIG)
  }

  lemma {:induction false} LoadFieldsWithin(w: Walk, section: string, fields: Dict<string>, built: seq<Widget>, n: nat)
    requires n <= |fields.keys| == |built| && fields.Shaped()
    ensures Within(LoadFields(w, section, fields, built, n).form, w.form, section)
  {
    if n > 0 {
      LoadFieldsWithin(w, section, fields, built, n - 1);
      var prev := LoadFields(w, section, fields, built, n - 1);
      var next := LoadFields(w, section, fields, built, n);
      LoadFieldWithin(prev, section, fields.keys[n - 1], fields.vals[n - 1], built[n - 1], next);
      WithinTrans(next.form, prev.form, w.form, section);
    }
  }

  lemma LoadFieldWithin(w: Walk, section: string, name: string, value: string, widget: Widget, r: Walk)
    requires r == LoadField(w, section, name, value, widget)
    ensures Within(r.form, w.form, section)
  {
    BindIn(w.form.entries, section, name, Bound(section, name, value, widget));
  }

  lemma WithinTrans(a: Form, b: Form, c: Form, section: string)
    requires Within(a, b, section) && Within(b, c, section)
    ensures Within(a, c, section)
  {
  }

  lemma LoadSectionSound(form: Form, settings: Doc, section: string, p: Refresh, build: Builder)
    requires WellFormed(settings) && Sound(form, settings)
    ensures Sound(LoadSection(form, settings, section, p, build).form, settings)
  {
    match settings.Get(section)
    case None =>
    case Some(v) =>
      if v.Group? {
        GroupShaped(settings, section);
        var start := if section == GENERATOR_CONFIG then form.(combo := NoCombo) else form;
        LoadFieldsSound(Walk(start, None), settings, section, v.fields, Built(build, section, v.fields), |v.fields.keys|);
        var w := LoadFields(Walk(start, None), section, v.fields, Built(build, section, v.fields), |v.fields.keys|);
        SetImpedanceSound(w.form, w.impedance, settings);
      }
  }

  lemma SetImpedanceSound(form: Form, impedance: Option<string>, d: Doc)
    requires d.Shaped() && Sound(form, d)
    ensures Sound(SetImpedance(form, impedance).form, d)
  {
    if form.combo.Live? {
      BindIn(form.entries, GENERATOR_CONFIG, IMPEDANCE, ImpedanceWidget(form.combo.shown, impedance));
    }
  }

  lemma {:induction false} LoadSectionsSound(form: Form, settings: Doc, n: nat, p: Refresh, build: Builder)
    requires n <= |SECTIONS| && WellFormed(settings) && Sound(form, settings)
    ensures Sound(LoadSections(form, settings, n, p, build).form, settings)
  {
    if n > 0 {
      LoadSectionsSound(form, settings, n - 1, p, build);
      var o := LoadSections(form, settings, n - 1, p, build);
      if o.ok {
        LoadSectionSound(o.form, settings, SECTIONS[n - 1], p, build);
      }
    }
  }

  /** Applying right after a load, finished or not, raises only when the
      form has no Impedance entry. */
  lemma ReloadSaves(before: Form, d: Doc, p: Refresh, build: Builder, code: Coder)
    requires Decoded(d)
    ensures Saved(Some(d), LoadForm(before, Some(d), p, build).form.entries, code).Some? <==>
      Lookup(LoadForm(before, Some(d), p, build).form.entries, GENERATOR_CONFIG, IMPEDANCE).Some?
  {
    var cleared := Form([], KillCombo(before.combo), KillFrame(before.frame));
    LoadSectionsSound(cleared, d, |SECTIONS|, p, build);
    var es := LoadForm(before, Some(d), p, build).form.entries;
    SavedSucceeds(d, es, code);
    if Lookup(es, GENERATOR_CONFIG, IMPEDANCE).Some? {
      var i := LookupAt(es, GENERATOR_CONFIG, IMPEDANCE);
      assert es[i] in es;
    }
  }

  /** A field's value in the file. */
  lemma FileValue(d: Doc, s: string, fields: Dict<string>, i: nat)
    requires Decoded(d) && d.Get(s) == Some(Group(fields)) && i < |fields.keys|
    ensures fields.Valid() && FieldValue(d, s, fields.keys[i]) == Some(fields.vals[i])
  {
    GroupValid(d, s);
  }

  /** Load, no edit, apply, for any policy and any builder whose widgets
      fit their fields: a field other than Impedance stores back what
      `FieldRules.Apply` makes of the widget it was bound to, and a field
      whose branch stores nothing keeps its value. */
  lemma ReloadField(before: Form, settings: Doc, p: Refresh, build: Builder, k: nat, fields: Dict<string>, i: nat)
    requires Decoded(settings) && k < |SECTIONS|
    requires settings.Get(SECTIONS[k]) == Some(Group(fields)) && i < |fields.keys|
    requires !(SECTIONS[k] == GENERATOR_CONFIG && fields.keys[i] == IMPEDANCE)
    requires Fits(FieldOf(SECTIONS[k], fields.keys[i]), build(SECTIONS[k], fields.keys[i], fields.vals[i]))
    requires LoadForm(before, Some(settings), p, build).ok
    requires Saved(Some(settings), LoadForm(before, Some(settings), p, build).form.entries, EntryCode).Some?
    ensures var f := FieldOf(SECTIONS[k], fields.keys[i]);
      FieldValue(Saved(Some(settings), LoadForm(before, Some(settings), p, build).form.entries, EntryCode).value,
                 SECTIONS[k], fields.keys[i])
      == if f.Unstored? then Some(fields.vals[i])
         else Apply(f, Bound(SECTIONS[k], fields.keys[i], fields.vals[i], build(SECTIONS[k], fields.keys[i], fields.vals[i])))
  {
    var es := LoadForm(before, Some(settings), p, build).form.entries;
    LoadedField(before, settings, p, build, k, fields, i);
    OutputTypeField();
    LoadFormKeyed(before, Some(settings), p, build);
    SavedFields(settings, es, EntryCode, SECTIONS[k], fields.keys[i]);
    FileValue(settings, SECTIONS[k], fields, i);
  }

  /** The window's load, no edit, apply: a voltage field stores back what
      apply makes of the loader's own voltage widget, any other field but
      Impedance what it makes of `FieldRules.Load`'s widget, and a field
      whose branch stores nothing keeps its value. */
  lemma ReloadWindowField(before: Form, settings: Doc, k: nat, fields: Dict<string>, i: nat)
    requires Decoded(settings) && k < |SECTIONS|
    requires settings.Get(SECTIONS[k]) == Some(Group(fields)) && i < |fields.keys|
    requires !(SECTIONS[k] == GENERATOR_CONFIG && fields.keys[i] == IMPEDANCE)
    requires LoadForm(before, Some(settings), AfterEverySection, FieldWidgetAsWritten).ok
    requires Saved(Some(settings), LoadForm(before, Some(settings), AfterEverySection, FieldWidgetAsWritten).form.entries, EntryCode).Some?
    ensures var f := FieldOf(SECTIONS[k], fields.keys[i]);
      FieldValue(Saved(Some(settings), LoadForm(before, Some(settings), AfterEverySection, FieldWidgetAsWritten).form.entries, EntryCode).value,
                 SECTIONS[k], fields.keys[i])
      == if f.Unstored? then Some(fields.vals[i])
         else if f.Volt? then Apply(f, LoadVoltAsWritten(fields.vals[i], f.units))
         else Apply(f, Load(f, fields.vals[i]))
  {
    ReloadField(before, settings, AfterEverySection, FieldWidgetAsWritten, k, fields, i);
    OutputTypeField();
  }

  /** Load, no edit, apply, with the window's builder under either policy:
      an enumerated field stores back the code it was loaded from. */
  lemma ReloadChoice(before: Form, settings: Doc, p: Refresh, k: nat, fields: Dict<string>, i: nat)
    requires Decoded(settings) && k < |SECTIONS|
    requires settings.Get(SECTIONS[k]) == Some(Group(fields)) && i < |fields.keys|
    requires FieldOf(SECTIONS[k], fields.keys[i]).Choice? && fields.vals[i] in FieldOf(SECTIONS[k], fields.keys[i]).table.keys
    requires LoadForm(before, Some(settings), p, FieldWidgetAsWritten).ok
    requires Saved(Some(settings), LoadForm(before, Some(settings), p, FieldWidgetAsWritten).form.entries, EntryCode).Some?
    ensures FieldValue(Saved(Some(settings), LoadForm(before, Some(settings), p, FieldWidgetAsWritten).form.entries, EntryCode).value,
                       SECTIONS[k], fields.keys[i]) == Some(fields.vals[i])
  {
    var f := FieldOf(SECTIONS[k], fields.keys[i]);
    ReloadField(before, settings, p, FieldWidgetAsWritten, k, fields, i);
    OutputTypeField();
    FieldLaws.ChoiceTablesInjective(SECTIONS[k], fields.keys[i]);
    FieldLaws.ChoiceRoundTrip(f.table, fields.vals[i]);
  }

  /** Load, no edit, apply, as intended: the save succeeds and a balanced
      Impedance field stores back the code it was loaded from. */
  lemma ReloadImpedance(before: Form, settings: Doc, fields: Dict<string>, i: nat, j: nat)
    requires Decoded(settings) && settings.Get(GENERATOR_CONFIG) == Some(Group(fields))
    requires i < |fields.keys| && j < |fields.keys| && fields.keys[i] == OUTPUT_TYPE && fields.keys[j] == IMPEDANCE
    requires LoadChoice(OUTPUT_TYPE_OPTIONS, fields.vals[i]).shown != "Unbal" && fields.vals[j] in IMPEDANCE_OPTIONS_BAL.keys
    ensures Saved(Some(settings), LoadForm(before, Some(settings), AfterGeneratorConfig, FieldWidget).form.entries, EntryCode).Some?
    ensures FieldValue(Saved(Some(settings), LoadForm(before, Some(settings), AfterGeneratorConfig, FieldWidget).form.entries, EntryCode).value,
                       GENERATOR_CONFIG, IMPEDANCE) == Some(fields.vals[j])
  {
    var es := LoadForm(before, Some(settings), AfterGeneratorConfig, FieldWidget).form.entries;
    var shown := LoadChoice(OUTPUT_TYPE_OPTIONS, fields.vals[i]).shown;
    LoadedImpedance(before, settings, FieldWidget, fields, i, j);
    ReloadSaves(before, settings, AfterGeneratorConfig, FieldWidget, EntryCode);
    LoadFormKeyed(before, Some(settings), AfterGeneratorConfig, FieldWidget);
    SavedFields(settings, es, EntryCode, GENERATOR_CONFIG, IMPEDANCE);
    FieldLaws.ImpedanceRoundTrip(shown, fields.vals[j], None);
  }

  /** The loader as it stands, followed by apply: the balanced file's
      `R600` is saved as `R10`. */
  lemma ImpedanceLostAsWritten(before: Form)
    ensures Saved(Some(BalancedFile()), LoadForm(before, Some(BalancedFile()), AfterEverySection, FieldWidgetAsWritten).form.entries, EntryCode).Some?
    ensures FieldValue(BalancedFile(), GENERATOR_CONFIG, IMPEDANCE) == Some("R600")
    ensures FieldValue(Saved(Some(BalancedFile()), LoadForm(before, Some(BalancedFile()), AfterEverySection, FieldWidgetAsWritten).form.entries, EntryCode).value,
                       GENERATOR_CONFIG, IMPEDANCE) == Some("R10")
  {
    var d := BalancedFile();
    var es := LoadForm(before, Some(d), AfterEverySection, FieldWidgetAsWritten).form.entries;
    ImpedanceResetAsWritten(before, FieldWidgetAsWritten);
    ReloadSaves(before, d, AfterEverySection, FieldWidgetAsWritten, EntryCode);
    LoadFormKeyed(before, Some(d), AfterEverySection, FieldWidgetAsWritten);
    SavedFields(d, es, EntryCode, GENERATOR_CONFIG, IMPEDANCE);
    assert ImpedanceWidget("Bal", None) == Combo("10 Ω");
    FieldLaws.ImpedanceFallback("Bal", None);
    FileValue(d, GENERATOR_CONFIG, Dict([OUTPUT_TYPE, IMPEDANCE], ["BAL", "R600"]), 1);
  }

  /** As intended, the same load and apply save `R600` back. */
  lemma ImpedanceKept(before: Form)
    ensures Saved(Some(BalancedFile()), LoadForm(before, Some(BalancedFile()), AfterGeneratorConfig, FieldWidget).form.entries, EntryCode).Some?
    ensures FieldValue(Saved(Some(BalancedFile()), LoadForm(before, Some(BalancedFile()), AfterGeneratorConfig, FieldWidget).form.entries, EntryCode).value,
                       GENERATOR_CONFIG, IMPEDANCE) == Some("R600")
  {
    var fields := Dict([OUTPUT_TYPE, IMPEDANCE], ["BAL", "R600"]);
    assert LoadChoice(OUTPUT_TYPE_OPTIONS, "BAL").shown == "Bal";
    ReloadImpedance(before, BalancedFile(), fields, 0, 1);
  }

  // ---------------------------------------------------------------------
  // The window

  /** How `apply_settings` ends: the "Save Error" message, the "Not
      connected" warning, or the settings sent through
      `apply_grouped_settings`, with its log and whether it ran to the end
      (`false` is an exception it lets through). */
  datatype Report = SaveError | NotConnected | Applied(log: seq<Dispatch.Event>, completed: bool)

  /** `report` and what the instrument was sent are those of
      `apply_grouped_settings(upv, data)`, after `w0` had been written. */
  ghost predicate Sent(upv: Instrument, data: Doc, report: Report, w0: seq<string>)
    requires Decoded(data)
    reads upv
  {
    DecodedWellFormed(data);
    report.Applied? && Dispatch.TableShape(CommandGroups.COMMAND_GROUPS) &&
    var plan := Dispatch.Plan(CommandGroups.COMMAND_GROUPS, data);
    report.completed == plan.completed &&
    upv.written == w0 + Dispatch.Commands(plan.steps) &&
    report.log == Dispatch.Run(plan.steps, |w0|, upv.writeFails)
  }

  class MainWindow {
    /** The settings file, read afresh by every load and apply; `None` when
        it cannot be read or decoded. */
    var settingsFile: Option<Doc>
    /** `self.entries`, in insertion order. */
    var entries: seq<Entry>
    /** `self.output_type_combo`. */
    var outputCombo: ComboSlot
    /** `self.impedance_frame` and `self.impedance_row`. */
    var impedanceFrame: FrameSlot
    /** `self.upv`: the connection, or `None` when not connected. */
    var upv: Instrument?
    /** The widget each field is built with: the branches of
        `load_settings`, fixed when the window is made. */
    const build: Builder
    /** The value each entry stores: the branches of `apply_settings`. */
    const code: Coder

    function State(): Form
      reads this
    {
      Form(entries, outputCombo, impedanceFrame)
    }

    ghost predicate Valid()
      reads this
    {
      (settingsFile.Some? ==> Decoded(settingsFile.value)) && Keyed(entries)
    }

    /** `MainWindow.__init__`: empty entries, a first load, no connection. */
    constructor(file: Option<Doc>)
      requires file.Some? ==> Decoded(file.value)
      ensures build == FieldWidgetAsWritten && code == EntryCode
      ensures Valid() && settingsFile == file && upv == null
      ensures State() == LoadForm(Form([], Unset, NoFrame), file, AfterEverySection, build).form
    {
      build := FieldWidgetAsWritten;
      code := EntryCode;
      settingsFile := file;
      entries := [];
      outputCombo := Unset;
      impedanceFrame := NoFrame;
      upv := null;
      new;
      var _ := LoadSettings();
    }

    /** `load_settings`, with the Impedance set-up after every section the
        file holds, as the loader stands; `ok` is false when it ended in the
        error message. */
    method LoadSettings() returns (ok: bool)
      requires Valid()
      modifies this
      ensures Valid() && settingsFile == old(settingsFile) && upv == old(upv)
      ensures State() == LoadForm(old(State()), settingsFile, AfterEverySection, build).form
      ensures ok == LoadForm(old(State()), settingsFile, AfterEverySection, build).ok
    {
      entries := [];
      outputCombo := KillCombo(outputCombo);
      impedanceFrame := KillFrame(impedanceFrame);
      if settingsFile.None? {
        return false;
      }
      DecodedWellFormed(settingsFile.value);
      ok := LoadPanels(settingsFile.value);
    }

    /** The four panels in order, from a cleared form, stopping at the first
        exception. */
    method LoadPanels(settings: Doc) returns (ok: bool)
      requires Valid() && WellFormed(settings)
      modifies this
      ensures Valid() && settingsFile == old(settingsFile) && upv == old(upv)
      ensures State() == LoadSections(old(State()), settings, |SECTIONS|, AfterEverySection, build).form
      ensures ok == LoadSections(old(State()), settings, |SECTIONS|, AfterEverySection, build).ok
    {
      ghost var cleared := State();
      var k := 0;
      while k < |SECTIONS|
        invariant 0 <= k <= |SECTIONS|
        invariant LoadSections(cleared, settings, k, AfterEverySection, build) == Loaded(State(), true)
        invariant Valid() && settingsFile == old(settingsFile) && upv == old(upv)
      {
        ok := LoadPanel(settings, SECTIONS[k]);
        if !ok {
          LoadStopped(cleared, settings, k + 1, |SECTIONS|, AfterEverySection, build);
          return;
        }
        k := k + 1;
      }
      ok := true;
    }

    /** One panel of `load_settings`: its fields, then the Impedance set-up,
        whatever the section. */
    method LoadPanel(settings: Doc, section: string) returns (ok: bool)
      requires Valid() && WellFormed(settings)
      modifies this
      ensures Valid() && settingsFile == old(settingsFile) && upv == old(upv)
      ensures Loaded(State(), ok) == LoadSection(old(State()), settings, section, AfterEverySection, build)
    {
      match settings.Get(section) {
        case None =>
          ok := true;
        case Some(v) =>
          if section == GENERATOR_CONFIG {
            outputCombo := NoCombo;
          }
          if v.Leaf? {
            return false;
          }
          GroupShaped(settings, section);
          var fields := v.fields;
          ghost var start := State();
          ghost var built := Built(build, section, fields);
          var impedance: Option<string> := None;
          var i := 0;
          while i < |fields.keys|
            invariant 0 <= i <= |fields.keys|
            invariant LoadFields(Walk(start, None), section, fields, built, i) == Walk(State(), impedance)
            invariant Valid() && settingsFile == old(settingsFile) && upv == old(upv)
          {
            impedance := LoadEntry(section, fields.keys[i], fields.vals[i], impedance);
            i := i + 1;
          }
          ok := SetImpedanceWidget(impedance);
      }
    }

    /** One field of a panel. */
    method LoadEntry(section: string, name: string, value: string, impedance: Option<string>) returns (impedance': Option<string>)
      requires Valid()
      modifies this
      ensures Valid() && settingsFile == old(settingsFile) && upv == old(upv)
      ensures Walk(State(), impedance') == LoadField(Walk(old(State()), impedance), section, name, value, build(section, name, value))
    {
      impedance' := impedance;
      if section == GENERATOR_CONFIG && name == OUTPUT_TYPE {
        var c := LoadChoice(OUTPUT_TYPE_OPTIONS, value);
        BindKeyed(entries, section, name, c);
        entries := Bind(entries, section, name, c);
        outputCombo := Live(c.shown);
      } else if section == GENERATOR_CONFIG && name == IMPEDANCE {
        impedanceFrame := LiveFrame;
        impedance' := Some(value);
      } else {
        var w := build(section, name, value);
        BindKeyed(entries, section, name, w);
        entries := Bind(entries, section, name, w);
      }
    }

    /** `set_impedance_widget(self.output_type_combo.get(), impedance_value)`,
        guarded by `if self.output_type_combo`. */
    method SetImpedanceWidget(impedance: Option<string>) returns (ok: bool)
      requires Valid()
      modifies this
      ensures Valid() && settingsFile == old(settingsFile) && upv == old(upv)
      ensures Loaded(State(), ok) == SetImpedance(old(State()), impedance)
    {
      match outputCombo {
        case NoCombo =>
          ok := true;
        case Live(shown) =>
          if impedanceFrame.LiveFrame? {
            BindKeyed(entries, GENERATOR_CONFIG, IMPEDANCE, ImpedanceWidget(shown, impedance));
            entries := Bind(entries, GENERATOR_CONFIG, IMPEDANCE, ImpedanceWidget(shown, impedance));
            ok := true;
          } else {
            ok := false;
          }
        case _ =>
          ok := false;
      }
    }

    /** `apply_settings`: save the entries into the file, then send the file
        to the instrument when connected. */
    method ApplySettings() returns (report: Report)
      requires Valid()
      modifies this, upv
      ensures Valid() && State() == old(State()) && upv == old(upv)
      ensures report.SaveError? <==> Saved(old(settingsFile), entries, code).None?
      ensures settingsFile == (if report.SaveError? then old(settingsFile) else Saved(old(settingsFile), entries, code))
      ensures report.NotConnected? <==> !report.SaveError? && upv == null
      ensures !report.Applied? && upv != null ==> upv.written == old(upv.written)
      ensures report.Applied? ==> upv != null && settingsFile.Some? && Sent(upv, settingsFile.value, report, old(upv.written))
      ensures upv != null ==> upv.queried == old(upv.queried)
    {
      var saved := SaveEntries();
      if !saved {
        return SaveError;
      }
      if upv == null {
        return NotConnected;
      }
      DecodedWellFormed(settingsFile.value);
      var log, completed := Dispatch.ApplyGroupedSettings(upv, settingsFile.value);
      report := Applied(log, completed);
    }

    /** The loop of `apply_settings` over `self.entries`: each entry's
        value stored into `d` in insertion order; `None` is an exception
        raised on the way. */
    method StoreAll(d: Doc) returns (r: Option<Doc>)
      requires Decoded(d)
      ensures r == StoreEntries(d, entries, |entries|, code)
    {
      var settings := d;
      var i := 0;
      while i < |entries|
        invariant 0 <= i <= |entries|
        invariant StoreEntries(d, entries, i, code) == Some(settings)
      {
        var next := StoreNext(d, settings, i);
        if next.None? {
          return None;
        }
        settings := next.value;
        i := i + 1;
      }
      return Some(settings);
    }

    /** One turn of that loop: entry `i` stored into the document so far. */
    method StoreNext(ghost d: Doc, settings: Doc, i: nat) returns (next: Option<Doc>)
      requires Decoded(d) && i < |entries| && StoreEntries(d, entries, i, code) == Some(settings)
      ensures next == StoreEntries(d, entries, i + 1, code)
      ensures next.None? ==> StoreEntries(d, entries, |entries|, code).None?
    {
      var e := entries[i];
      match code(e) {
        case None =>
          next := Some(settings);
        case Some(v) =>
          next := Store(settings, e.section, e.name, v);
      }
      if next.None? {
        StoreEntriesStopped(d, entries, i + 1, |entries|, code);
      }
    }

    /** The part of `apply_settings` inside its `try`: every entry stored in
        insertion order, then the Impedance field, then the file written.
        `false` is the "Save Error", which leaves the file as it was. */
    method SaveEntries() returns (ok: bool)
      requires Valid()
      modifies this
      ensures Valid() && State() == old(State()) && upv == old(upv)
      ensures ok <==> Saved(old(settingsFile), entries, code).Some?
      ensures settingsFile == (if ok then Saved(old(settingsFile), entries, code) else old(settingsFile))
    {
      if settingsFile.None? {
        return false;
      }
      var stored := StoreAll(settingsFile.value);
      if stored.None? {
        return false;
      }
      var settings := stored.value;
      match Lookup(entries, GENERATOR_CONFIG, IMPEDANCE) {
        case None =>
          return false;
        case Some(w) =>
          var r := Store(settings, GENERATOR_CONFIG, IMPEDANCE, ImpedanceCode(w));
          if r.None? {
            return false;
          }
          settingsFile := r;
          ok := true;
      }
    }
  }
}
