/** `apply_grouped_settings` of the GUI: the settings document is walked
    section by section in the order of `command_groups`, each label is
    resolved to its command prefix and written as `"<prefix> <value>"`, and a
    second pass sends qualifying top-level keys as raw commands.

    The walk is specified by a plan, a sequence of steps that depends only on
    the command table and the document; running the plan against an
    instrument gives the log, and which writes raise changes only the log. */
module Dispatch {
  import opened Wrappers
  import opened Text
  import opened Dicts
  import opened Document
  import opened Link
  import CommandGroups

  /** One logged status line. */
  datatype Event =
    | Applying(section: string)
    | Applied(field: string, value: string)
    | ApplyFailed(field: string)
    | UnknownLabel(field: string)
    | SectionMissing(section: string)
    | RawApplied(key: string, value: string)
    | RawFailed(key: string)

  /** A write with the line logged when it succeeds and when it raises, or a
      line logged without touching the instrument. */
  datatype Step = Write(cmd: string, onSuccess: Event, onFailure: Event) | Note(event: Event)

  /** A plan, and whether the walk reaches its end or stops on an exception. */
  datatype Outcome = Outcome(steps: seq<Step>, completed: bool)

  /** The commands a plan writes, in order. */
  function Commands(steps: seq<Step>): (cmds: seq<string>)
    ensures |cmds| <= |steps|
  {
    if steps == [] then []
    else
      var last := steps[|steps| - 1];
      Commands(steps[..|steps| - 1]) + (if last.Write? then [last.cmd] else [])
  }

  /** The line a step logs when `n` writes were made before it. */
  function StepEvent(s: Step, n: nat, fails: (nat, string) -> bool): Event {
    match s
    case Write(cmd, ok, bad) => if fails(n, cmd) then bad else ok
    case Note(e) => e
  }

  /** The log of running `steps` on an instrument that had taken `n` writes. */
  function Run(steps: seq<Step>, n: nat, fails: (nat, string) -> bool): (log: seq<Event>)
    ensures |log| == |steps|
  {
    if steps == [] then []
    else
      var init := steps[..|steps| - 1];
      Run(init, n, fails) + [StepEvent(steps[|steps| - 1], n + |Commands(init)|, fails)]
  }

  lemma Assoc<T>(a: seq<T>, b: seq<T>, c: seq<T>)
    ensures (a + b) + c == a + (b + c)
  {
  }

  lemma IndexBefore<T>(a: seq<T>, b: seq<T>, k: nat)
    requires k < |a|
    ensures (a + b)[k] == a[k]
  {
  }

  lemma IndexAfter<T>(a: seq<T>, b: seq<T>, k: nat)
    requires k < |b|
    ensures |a| + k < |a + b| && (a + b)[|a| + k] == b[k]
  {
  }

  lemma CommandsSnoc(s: seq<Step>, x: Step)
    ensures Commands(s + [x]) == Commands(s) + (if x.Write? then [x.cmd] else [])
  {
    assert (s + [x])[..|s|] == s;
  }

  lemma RunSnoc(s: seq<Step>, x: Step, n: nat, fails: (nat, string) -> bool, k: nat)
    requires k == n + |Commands(s)|
    ensures Run(s + [x], n, fails) == Run(s, n, fails) + [StepEvent(x, k, fails)]
  {
    assert (s + [x])[..|s|] == s;
  }

  lemma Snoc(s: seq<Step>, x: Step, n: nat, fails: (nat, string) -> bool)
    ensures Commands(s + [x]) == Commands(s) + (if x.Write? then [x.cmd] else [])
    ensures Run(s + [x], n, fails) == Run(s, n, fails) + [StepEvent(x, n + |Commands(s)|, fails)]
  {
    CommandsSnoc(s, x);
    RunSnoc(s, x, n, fails, n + |Commands(s)|);
  }

  lemma {:induction false} CommandsAppend(a: seq<Step>, b: seq<Step>)
    ensures Commands(a + b) == Commands(a) + Commands(b)
    decreases |b|
  {
    if b == [] {
      assert a + b == a;
      assert Commands(a) + Commands(b) == Commands(a);
    } else {
      var b', x := b[..|b| - 1], b[|b| - 1];
      var tail := if x.Write? then [x.cmd] else [];
      assert b == b' + [x];
      Assoc(a, b', [x]);
      CommandsAppend(a, b');
      CommandsSnoc(a + b', x);
      CommandsSnoc(b', x);
      var ca, cb' := Commands(a), Commands(b');
      assert Commands(a + b) == (ca + cb') + tail;
      Assoc(ca, cb', tail);
    }
  }

  /** Running two plans one after the other logs the first plan's lines, then
      the second's, with the second seeing the first plan's writes. */
  lemma {:induction false} RunAppend(a: seq<Step>, b: seq<Step>, n: nat, m: nat, fails: (nat, string) -> bool)
    requires m == n + |Commands(a)|
    ensures Run(a + b, n, fails) == Run(a, n, fails) + Run(b, m, fails)
    decreases |b|
  {
    var ra := Run(a, n, fails);
    if b == [] {
      assert a + b == a;
      assert ra + Run(b, m, fails) == ra;
    } else {
      var b', x := b[..|b| - 1], b[|b| - 1];
      assert b == b' + [x];
      Assoc(a, b', [x]);
      RunAppend(a, b', n, m, fails);
      CommandsAppend(a, b');
      var ab', k := a + b', m + |Commands(b')|;
      assert a + b == ab' + [x];
      assert n + |Commands(ab')| == k;
      RunSnoc(ab', x, n, fails, k);
      RunSnoc(b', x, m, fails, k);
      var rb' := Run(b', m, fails);
      var e := StepEvent(x, k, fails);
      assert Run(a + b, n, fails) == Run(ab', n, fails) + [e];
      assert Run(ab', n, fails) == ra + rb';
      assert Run(b, m, fails) == rb' + [e];
      Assoc(ra, rb', [e]);
    }
  }

  /** Every step logs exactly one line, its own: a write that raises logs its
      failure line and the steps after it still run. */
  lemma {:induction false} RunEntry(steps: seq<Step>, n: nat, fails: (nat, string) -> bool, i: nat)
    requires i < |steps|
    ensures Run(steps, n, fails)[i] == StepEvent(steps[i], n + |Commands(steps[..i])|, fails)
  {
    var init := steps[..|steps| - 1];
    var last := steps[|steps| - 1];
    assert steps == init + [last];
    RunSnoc(init, last, n, fails, n + |Commands(init)|);
    if i < |init| {
      RunEntry(init, n, fails, i);
      assert init[..i] == steps[..i];
    } else {
      assert steps[..i] == init;
    }
  }

  /** The writes of a prefix of a plan are a prefix of its writes. */
  lemma CommandsPrefix(a: seq<Step>, b: seq<Step>)
    requires a <= b
    ensures Commands(a) <= Commands(b)
  {
    assert b == a + b[|a|..];
    CommandsAppend(a, b[|a|..]);
  }

  /** A write step of a plan is written right after the writes of the steps
      before it. */
  lemma CommandAt(steps: seq<Step>, i: nat)
    requires i < |steps| && steps[i].Write?
    ensures |Commands(steps[..i])| < |Commands(steps)|
    ensures Commands(steps)[|Commands(steps[..i])|] == steps[i].cmd
  {
    var p, x := steps[..i], steps[i];
    assert steps[..i + 1] == p + [x];
    CommandsSnoc(p, x);
    CommandsPrefix(steps[..i + 1], steps);
    var cp := Commands(p);
    assert Commands(steps[..i + 1]) == cp + [x.cmd];
    assert (cp + [x.cmd])[|cp|] == x.cmd;
  }

  // ---------------------------------------------------------------------
  // The grouped pass

  /** `settings_map.get(label)` taken as a truth value: a missing label and an empty
      prefix both leave the label unresolved. */
  function Resolve(prefixes: Dict<string>, name: string): (r: Option<string>)
    requires |prefixes.keys| == |prefixes.vals|
    ensures r.Some? <==> prefixes.Get(name).Some? && prefixes.Get(name).value != ""
    ensures r.Some? ==> r == prefixes.Get(name)
  {
    match prefixes.Get(name)
    case None => None
    case Some(p) => if p == "" then None else Some(p)
  }

  function FieldStep(prefixes: Dict<string>, name: string, value: string): Step
    requires |prefixes.keys| == |prefixes.vals|
  {
    match Resolve(prefixes, name)
    case Some(p) => Write(p + " " + value, Applied(name, value), ApplyFailed(name))
    case None => Note(UnknownLabel(name))
  }

  /** The steps for the first `m` fields of one section. */
  function FieldSteps(prefixes: Dict<string>, fields: Dict<string>, m: nat): (steps: seq<Step>)
    requires |prefixes.keys| == |prefixes.vals|
    requires m <= |fields.keys| == |fields.vals|
    ensures |steps| == m
  {
    if m == 0 then []
    else FieldSteps(prefixes, fields, m - 1) + [FieldStep(prefixes, fields.keys[m - 1], fields.vals[m - 1])]
  }

  /** The step of field `i` is that field's own step, at position `i`. */
  lemma {:induction false} FieldStepAt(prefixes: Dict<string>, fields: Dict<string>, m: nat, i: nat)
    requires |prefixes.keys| == |prefixes.vals|
    requires i < m <= |fields.keys| == |fields.vals|
    ensures FieldSteps(prefixes, fields, m)[i] == FieldStep(prefixes, fields.keys[i], fields.vals[i])
    decreases m
  {
    if i < m - 1 {
      FieldStepAt(prefixes, fields, m - 1, i);
    }
  }

  /** How many of the first `m` fields resolve to a prefix. */
  function ResolvedCount(prefixes: Dict<string>, fields: Dict<string>, m: nat): (c: nat)
    requires |prefixes.keys| == |prefixes.vals|
    requires m <= |fields.keys|
    ensures c <= m
  {
    if m == 0 then 0
    else ResolvedCount(prefixes, fields, m - 1) + (if Resolve(prefixes, fields.keys[m - 1]).Some? then 1 else 0)
  }

  /** A field writes exactly when its label resolves, and then writes
      `"<prefix> <value>"`. */
  lemma FieldStepWrites(prefixes: Dict<string>, name: string, value: string)
    requires |prefixes.keys| == |prefixes.vals|
    ensures FieldStep(prefixes, name, value).Write? <==> Resolve(prefixes, name).Some?
    ensures Resolve(prefixes, name).Some? ==>
      FieldStep(prefixes, name, value).cmd == Resolve(prefixes, name).value + " " + value
  {
  }

  /** Within one section: one write per resolved field. */
  lemma {:induction false} FieldWriteCount(prefixes: Dict<string>, fields: Dict<string>, m: nat)
    requires |prefixes.keys| == |prefixes.vals|
    requires m <= |fields.keys| == |fields.vals|
    ensures |Commands(FieldSteps(prefixes, fields, m))| == ResolvedCount(prefixes, fields, m)
  {
    if m > 0 {
      var x := FieldStep(prefixes, fields.keys[m - 1], fields.vals[m - 1]);
      var init := FieldSteps(prefixes, fields, m - 1);
      assert FieldSteps(prefixes, fields, m) == init + [x];
      FieldWriteCount(prefixes, fields, m - 1);
      CommandsSnoc(init, x);
      FieldStepWrites(prefixes, fields.keys[m - 1], fields.vals[m - 1]);
    }
  }

  /** The steps of the first `i` fields begin the steps of the first `m`. */
  lemma {:induction false} FieldStepsPrefix(prefixes: Dict<string>, fields: Dict<string>, i: nat, m: nat)
    requires |prefixes.keys| == |prefixes.vals|
    requires i <= m <= |fields.keys| == |fields.vals|
    ensures FieldSteps(prefixes, fields, i) <= FieldSteps(prefixes, fields, m)
    decreases m
  {
    if i < m {
      FieldStepsPrefix(prefixes, fields, i, m - 1);
      var p, q := FieldSteps(prefixes, fields, i), FieldSteps(prefixes, fields, m - 1);
      var x := FieldStep(prefixes, fields.keys[m - 1], fields.vals[m - 1]);
      assert FieldSteps(prefixes, fields, m) == q + [x];
      assert p <= q;
      assert q <= q + [x];
    }
  }

  /** Within one section: a resolved field `i` is written as
      `"<prefix> <value>"` after the writes of the resolved fields before it. */
  lemma FieldWriteAt(prefixes: Dict<string>, fields: Dict<string>, m: nat, i: nat)
    requires |prefixes.keys| == |prefixes.vals|
    requires m <= |fields.keys| == |fields.vals|
    requires i < m && Resolve(prefixes, fields.keys[i]).Some?
    ensures ResolvedCount(prefixes, fields, i) < ResolvedCount(prefixes, fields, m)
    ensures ResolvedCount(prefixes, fields, i) < |Commands(FieldSteps(prefixes, fields, m))|
    ensures Commands(FieldSteps(prefixes, fields, m))[ResolvedCount(prefixes, fields, i)]
      == Resolve(prefixes, fields.keys[i]).value + " " + fields.vals[i]
  {
    var s, p := FieldSteps(prefixes, fields, m), FieldSteps(prefixes, fields, i);
    var x := FieldStep(prefixes, fields.keys[i], fields.vals[i]);
    FieldStepsPrefix(prefixes, fields, i + 1, m);
    assert FieldSteps(prefixes, fields, i + 1) == p + [x];
    assert s[..i] == p;
    assert s[i] == x;
    FieldStepWrites(prefixes, fields.keys[i], fields.vals[i]);
    CommandAt(s, i);
    FieldWriteCount(prefixes, fields, i);
    FieldWriteCount(prefixes, fields, m);
  }

  /** What the data holds under each section name of the table, in table
      order: the `data.get(section)` of the walk. */
  function Sections(table: Dict<Dict<string>>, data: Doc): (secs: seq<Option<Value>>)
    requires |data.keys| == |data.vals|
    ensures |secs| == |table.keys|
    ensures forall j :: 0 <= j < |secs| ==> secs[j] == data.Get(table.keys[j])
    ensures WellFormed(data) ==> SectionsShaped(secs)
  {
    var secs := seq(|table.keys|, j requires 0 <= j < |table.keys| => data.Get(table.keys[j]));
    assert WellFormed(data) ==> SectionsShaped(secs) by {
      if WellFormed(data) {
        forall j | 0 <= j < |secs| && secs[j].Some? && secs[j].value.Group?
          ensures secs[j].value.fields.Shaped()
        {
          var i := IndexOf(data.keys, table.keys[j]).value;
          assert data.vals[i] == secs[j].value;
        }
      }
    }
    secs
  }

  /** Every section object found holds one value per key. */
  ghost predicate SectionsShaped(secs: seq<Option<Value>>) {
    forall j :: 0 <= j < |secs| && secs[j].Some? && secs[j].value.Group? ==> secs[j].value.fields.Shaped()
  }

  ghost predicate TableShape(table: Dict<Dict<string>>) {
    |table.keys| == |table.vals| && forall j :: 0 <= j < |table.vals| ==> table.vals[j].Shaped()
  }

  /** A command table whose every section map holds one prefix per label,
      and what the data holds under each of its section names. */
  ghost predicate Walkable(table: Dict<Dict<string>>, secs: seq<Option<Value>>) {
    TableShape(table) && |secs| == |table.keys| && SectionsShaped(secs)
  }

  /** A section that the walk announces and then fails on: a scalar. */
  predicate IsScalar(v: Option<Value>) {
    v.Some? && v.value.Leaf?
  }

  /** The fields walked for section `j`: none when the section is absent. */
  function SectionFields(secs: seq<Option<Value>>, j: nat): (f: Dict<string>)
    requires j < |secs| && SectionsShaped(secs)
    ensures f.Shaped()
    ensures secs[j].Some? && secs[j].value.Group? ==> f == secs[j].value.fields
    ensures !(secs[j].Some? && secs[j].value.Group?) ==> f.keys == []
  {
    if secs[j].Some? && secs[j].value.Group? then secs[j].value.fields else Dict([], [])
  }

  /** The steps of section `j`, and false when walking it raises: a section
      whose value is not an object has no `.items()`. */
  function SectionSteps(table: Dict<Dict<string>>, secs: seq<Option<Value>>, j: nat): (r: Outcome)
    requires Walkable(table, secs) && j < |secs|
    ensures r.completed <==> !IsScalar(secs[j])
    ensures |r.steps| >= 1 && r.steps[0] == Note(if secs[j].None? then SectionMissing(table.keys[j]) else Applying(table.keys[j]))
    ensures secs[j].None? || IsScalar(secs[j]) ==> |r.steps| == 1
  {
    var section := table.keys[j];
    if secs[j].None? then Outcome([Note(SectionMissing(section))], true)
    else if secs[j].value.Leaf? then Outcome([Note(Applying(section))], false)
    else
      var f := SectionFields(secs, j);
      Outcome([Note(Applying(section))] + FieldSteps(table.vals[j], f, |f.keys|), true)
  }

  /** The grouped pass over the first `n` sections of the table. */
  function Grouped(table: Dict<Dict<string>>, secs: seq<Option<Value>>, n: nat): Outcome
    requires Walkable(table, secs) && n <= |secs|
  {
    if n == 0 then Outcome([], true)
    else
      var o := Grouped(table, secs, n - 1);
      if !o.completed then o
      else
        var s := SectionSteps(table, secs, n - 1);
        Outcome(o.steps + s.steps, s.completed)
  }

  /** How many writes section `j` makes. */
  function SectionWrites(table: Dict<Dict<string>>, secs: seq<Option<Value>>, j: nat): nat
    requires Walkable(table, secs) && j < |secs|
  {
    var f := SectionFields(secs, j);
    ResolvedCount(table.vals[j], f, |f.keys|)
  }

  /** The writes of each of the first `n` sections, in table order. */
  function SectionCounts(table: Dict<Dict<string>>, secs: seq<Option<Value>>, n: nat): (c: seq<nat>)
    requires Walkable(table, secs) && n <= |secs|
    ensures |c| == n
  {
    if n == 0 then [] else SectionCounts(table, secs, n - 1) + [SectionWrites(table, secs, n - 1)]
  }

  /** The sum of the first `j` counts. */
  function SumTo(c: seq<nat>, j: nat): nat
    requires j <= |c|
  {
    if j == 0 then 0 else SumTo(c, j - 1) + c[j - 1]
  }

  lemma {:induction false} SumMonotone(c: seq<nat>, a: nat, b: nat)
    requires a <= b <= |c|
    ensures SumTo(c, a) <= SumTo(c, b)
    decreases b - a
  {
    if a < b {
      SumMonotone(c, a, b - 1);
    }
  }

  /** How many writes the sections before `j` make. */
  function WritesBefore(table: Dict<Dict<string>>, secs: seq<Option<Value>>, j: nat): nat
    requires Walkable(table, secs) && j <= |secs|
  {
    SumTo(SectionCounts(table, secs, |secs|), j)
  }

  lemma {:induction false} SectionCountAt(table: Dict<Dict<string>>, secs: seq<Option<Value>>, n: nat, j: nat)
    requires Walkable(table, secs) && j < n <= |secs|
    ensures SectionCounts(table, secs, n)[j] == SectionWrites(table, secs, j)
    decreases n
  {
    var c := SectionCounts(table, secs, n - 1);
    assert SectionCounts(table, secs, n) == c + [SectionWrites(table, secs, n - 1)];
    if j < n - 1 {
      SectionCountAt(table, secs, n - 1, j);
    }
  }

  lemma WritesBeforeStep(table: Dict<Dict<string>>, secs: seq<Option<Value>>, j: nat, k: nat)
    requires Walkable(table, secs) && j < |secs| && k == j + 1
    ensures WritesBefore(table, secs, k) == WritesBefore(table, secs, j) + SectionWrites(table, secs, j)
  {
    var c := SectionCounts(table, secs, |secs|);
    SectionCountAt(table, secs, |secs|, j);
    assert SumTo(c, j + 1) == SumTo(c, j) + c[j];
  }

  lemma WritesBeforeMonotone(table: Dict<Dict<string>>, secs: seq<Option<Value>>, a: nat, b: nat)
    requires Walkable(table, secs) && a <= b <= |secs|
    ensures WritesBefore(table, secs, a) <= WritesBefore(table, secs, b)
  {
    SumMonotone(SectionCounts(table, secs, |secs|), a, b);
  }

  /** Walking section `j` runs to its end unless the data holds a scalar
      under its name. */
  lemma SectionCompletes(table: Dict<Dict<string>>, secs: seq<Option<Value>>, j: nat)
    requires Walkable(table, secs) && j < |secs|
    ensures SectionSteps(table, secs, j).completed <==> !IsScalar(secs[j])
  {
  }

  /** The grouped pass runs to its end exactly when no section name of the
      table holds a scalar in the data. */
  lemma {:induction false} GroupedCompletes(table: Dict<Dict<string>>, secs: seq<Option<Value>>, n: nat)
    requires Walkable(table, secs) && n <= |secs|
    ensures Grouped(table, secs, n).completed <==> forall j :: 0 <= j < n ==> !IsScalar(secs[j])
  {
    if n > 0 {
      GroupedCompletes(table, secs, n - 1);
      var o := Grouped(table, secs, n - 1);
      if o.completed {
        var s := SectionSteps(table, secs, n - 1);
        SectionCompletes(table, secs, n - 1);
        assert Grouped(table, secs, n).completed == s.completed;
      } else {
        assert Grouped(table, secs, n) == o;
        var j :| 0 <= j < n - 1 && IsScalar(secs[j]);
      }
    }
  }

  /** A section holding a scalar stops the whole walk right after its
      "Applying" line: later sections and the raw pass are not reached. */
  lemma {:induction false} GroupedStopsAtScalar(table: Dict<Dict<string>>, secs: seq<Option<Value>>, k: nat, n: nat)
    requires Walkable(table, secs) && k < n <= |secs|
    requires Grouped(table, secs, k).completed
    requires IsScalar(secs[k])
    ensures Grouped(table, secs, n) ==
      Outcome(Grouped(table, secs, k).steps + [Note(Applying(table.keys[k]))], false)
  {
    if n > k + 1 {
      GroupedStopsAtScalar(table, secs, k, n - 1);
    }
  }

  /** A completed grouped pass over `n` sections continues the passes over
      fewer sections. */
  lemma {:induction false} GroupedPrefix(table: Dict<Dict<string>>, secs: seq<Option<Value>>, j: nat, n: nat)
    requires Walkable(table, secs) && j <= n <= |secs|
    requires Grouped(table, secs, n).completed
    ensures Grouped(table, secs, j).completed
    ensures Grouped(table, secs, j).steps <= Grouped(table, secs, n).steps
    decreases n
  {
    if j < n {
      var o := Grouped(table, secs, n - 1);
      var s := SectionSteps(table, secs, n - 1);
      GroupedStep(table, secs, n - 1, n);
      GroupedPrefix(table, secs, j, n - 1);
      var p := Grouped(table, secs, j).steps;
      assert p <= o.steps;
      assert o.steps <= o.steps + s.steps;
    }
  }

  /** The writes of section `j` are those of its resolved fields. */
  lemma SectionCommands(table: Dict<Dict<string>>, secs: seq<Option<Value>>, j: nat)
    requires Walkable(table, secs) && j < |secs|
    requires SectionSteps(table, secs, j).completed
    ensures Commands(SectionSteps(table, secs, j).steps)
      == Commands(FieldSteps(table.vals[j], SectionFields(secs, j), |SectionFields(secs, j).keys|))
    ensures |Commands(SectionSteps(table, secs, j).steps)| == SectionWrites(table, secs, j)
  {
    var f := SectionFields(secs, j);
    var s := SectionSteps(table, secs, j);
    var fs := FieldSteps(table.vals[j], f, |f.keys|);
    FieldWriteCount(table.vals[j], f, |f.keys|);
    var head := Note(if secs[j].None? then SectionMissing(table.keys[j]) else Applying(table.keys[j]));
    CommandsSnoc([], head);
    assert [] + [head] == [head];
    if secs[j].None? {
      assert s.steps == [head];
      assert fs == [];
    } else {
      assert s.steps == [head] + fs;
      CommandsAppend([head], fs);
    }
  }

  lemma {:induction false} GroupedWriteCount(table: Dict<Dict<string>>, secs: seq<Option<Value>>, n: nat)
    requires Walkable(table, secs) && n <= |secs|
    requires Grouped(table, secs, n).completed
    ensures |Commands(Grouped(table, secs, n).steps)| == WritesBefore(table, secs, n)
  {
    if n > 0 {
      GroupedStep(table, secs, n - 1, n);
      GroupedWriteCount(table, secs, n - 1);
      WriteCountStep(table, secs, n - 1, n);
    }
  }

  /** One more completed section adds its writes to the count. */
  lemma WriteCountStep(table: Dict<Dict<string>>, secs: seq<Option<Value>>, j: nat, k: nat)
    requires Walkable(table, secs) && j < |secs| && k == j + 1
    requires Grouped(table, secs, k).completed
    requires |Commands(Grouped(table, secs, j).steps)| == WritesBefore(table, secs, j)
    ensures |Commands(Grouped(table, secs, k).steps)| == WritesBefore(table, secs, k)
  {
    var o := Grouped(table, secs, j);
    var s := SectionSteps(table, secs, j);
    GroupedStep(table, secs, j, k);
    CommandsAppend(o.steps, s.steps);
    SectionCommands(table, secs, j);
    WritesBeforeStep(table, secs, j, k);
    var co, cs := Commands(o.steps), Commands(s.steps);
    assert |co + cs| == |co| + |cs|;
  }

  /** The pass over one more section, when the pass so far completed. */
  lemma GroupedNext(table: Dict<Dict<string>>, secs: seq<Option<Value>>, j: nat, k: nat)
    requires Walkable(table, secs) && j < |secs| && k == j + 1
    requires Grouped(table, secs, j).completed
    ensures Grouped(table, secs, k)
      == Outcome(Grouped(table, secs, j).steps + SectionSteps(table, secs, j).steps, SectionSteps(table, secs, j).completed)
  {
  }

  /** Passing section `j`: the steps so far, then the section's. */
  lemma GroupedStep(table: Dict<Dict<string>>, secs: seq<Option<Value>>, j: nat, k: nat)
    requires Walkable(table, secs) && j < |secs| && k == j + 1
    requires Grouped(table, secs, k).completed
    ensures Grouped(table, secs, j).completed && SectionSteps(table, secs, j).completed
    ensures Grouped(table, secs, k).steps == Grouped(table, secs, j).steps + SectionSteps(table, secs, j).steps
  {
  }

  /** Right after section `j`: the writes before it, then those of its
      resolved fields. */
  lemma SectionCommandsAfter(table: Dict<Dict<string>>, secs: seq<Option<Value>>, j: nat, k: nat)
    requires Walkable(table, secs) && j < |secs| && k == j + 1
    requires Grouped(table, secs, k).completed
    ensures |Commands(Grouped(table, secs, j).steps)| == WritesBefore(table, secs, j)
    ensures Commands(Grouped(table, secs, k).steps) == Commands(Grouped(table, secs, j).steps)
      + Commands(FieldSteps(table.vals[j], SectionFields(secs, j), |SectionFields(secs, j).keys|))
  {
    var g, s := Grouped(table, secs, j).steps, SectionSteps(table, secs, j).steps;
    GroupedStep(table, secs, j, k);
    CommandsAppend(g, s);
    GroupedWriteCount(table, secs, j);
    SectionCommands(table, secs, j);
  }

  /** Right after section `j`, its write for a resolved label `i` sits behind
      the writes of the sections before it and of the resolved labels before
      `i`. */
  lemma SectionWriteAt(table: Dict<Dict<string>>, secs: seq<Option<Value>>, j: nat, k: nat, i: nat)
    requires Walkable(table, secs) && j < |secs| && k == j + 1
    requires Grouped(table, secs, k).completed
    requires i < |SectionFields(secs, j).keys|
    requires Resolve(table.vals[j], SectionFields(secs, j).keys[i]).Some?
    ensures WritesBefore(table, secs, j) + ResolvedCount(table.vals[j], SectionFields(secs, j), i)
      < |Commands(Grouped(table, secs, k).steps)|
    ensures Commands(Grouped(table, secs, k).steps)[WritesBefore(table, secs, j) + ResolvedCount(table.vals[j], SectionFields(secs, j), i)]
      == Resolve(table.vals[j], SectionFields(secs, j).keys[i]).value + " " + SectionFields(secs, j).vals[i]
  {
    SectionCommandsAfter(table, secs, j, k);
    var f, p := SectionFields(secs, j), table.vals[j];
    FieldWriteAt(p, f, |f.keys|, i);
    var cg, cf := Commands(Grouped(table, secs, j).steps), Commands(FieldSteps(p, f, |f.keys|));
    IndexJoin(cg, cf, Commands(Grouped(table, secs, k).steps), WritesBefore(table, secs, j), ResolvedCount(p, f, i));
  }

  lemma IndexJoin<T>(a: seq<T>, b: seq<T>, c: seq<T>, w: nat, r: nat)
    requires c == a + b && |a| == w && r < |b|
    ensures w + r < |c| && c[w + r] == b[r]
  {
  }

  lemma IndexPrefix<T>(a: seq<T>, b: seq<T>, k: nat)
    requires a <= b && k < |a|
    ensures k < |b| && b[k] == a[k]
  {
  }

  /** For every section present in the data and every label of it that the
      section's map resolves, the write `"<prefix> <value>"` sits at a position
      fixed by the section order and then the label order. */
  lemma GroupedWriteAt(table: Dict<Dict<string>>, secs: seq<Option<Value>>, n: nat, j: nat, i: nat)
    requires Walkable(table, secs) && n <= |secs|
    requires Grouped(table, secs, n).completed
    requires j < n && i < |SectionFields(secs, j).keys|
    requires Resolve(table.vals[j], SectionFields(secs, j).keys[i]).Some?
    ensures WritesBefore(table, secs, j) + ResolvedCount(table.vals[j], SectionFields(secs, j), i)
      < |Commands(Grouped(table, secs, n).steps)|
    ensures Commands(Grouped(table, secs, n).steps)[WritesBefore(table, secs, j) + ResolvedCount(table.vals[j], SectionFields(secs, j), i)]
      == Resolve(table.vals[j], SectionFields(secs, j).keys[i]).value + " " + SectionFields(secs, j).vals[i]
  {
    GroupedPrefix(table, secs, j + 1, n);
    SectionWriteAt(table, secs, j, j + 1, i);
    var p, q := Grouped(table, secs, j + 1).steps, Grouped(table, secs, n).steps;
    CommandsPrefix(p, q);
    var pos := WritesBefore(table, secs, j) + ResolvedCount(table.vals[j], SectionFields(secs, j), i);
    IndexPrefix(Commands(p), Commands(q), pos);
  }

  lemma ResolvedBefore(prefixes: Dict<string>, fields: Dict<string>, i: nat, i': nat)
    requires |prefixes.keys| == |prefixes.vals|
    requires i < i' <= |fields.keys|
    requires Resolve(prefixes, fields.keys[i]).Some?
    ensures ResolvedCount(prefixes, fields, i) < ResolvedCount(prefixes, fields, i')
  {
    assert ResolvedCount(prefixes, fields, i + 1) == ResolvedCount(prefixes, fields, i) + 1;
    ResolvedCountMonotone(prefixes, fields, i + 1, i');
  }

  lemma {:induction false} ResolvedCountMonotone(prefixes: Dict<string>, fields: Dict<string>, a: nat, b: nat)
    requires |prefixes.keys| == |prefixes.vals|
    requires a <= b <= |fields.keys|
    ensures ResolvedCount(prefixes, fields, a) <= ResolvedCount(prefixes, fields, b)
    decreases b - a
  {
    if a < b {
      ResolvedCountMonotone(prefixes, fields, a, b - 1);
      var x, y := ResolvedCount(prefixes, fields, a), ResolvedCount(prefixes, fields, b - 1);
      assert x <= y <= ResolvedCount(prefixes, fields, b);
    }
  }

  lemma WithinSection(table: Dict<Dict<string>>, secs: seq<Option<Value>>, j: nat, i: nat)
    requires Walkable(table, secs) && j < |secs|
    requires i < |SectionFields(secs, j).keys|
    requires Resolve(table.vals[j], SectionFields(secs, j).keys[i]).Some?
    ensures WritesBefore(table, secs, j) + ResolvedCount(table.vals[j], SectionFields(secs, j), i)
      < WritesBefore(table, secs, j + 1)
  {
    var f := SectionFields(secs, j);
    ResolvedBefore(table.vals[j], f, i, |f.keys|);
    WritesBeforeStep(table, secs, j, j + 1);
  }

  /** The writes of the grouped pass follow section order: every write of a
      section comes before every write of a later section. */
  lemma SectionOrder(table: Dict<Dict<string>>, secs: seq<Option<Value>>, j: nat, i: nat, j': nat, i': nat)
    requires Walkable(table, secs)
    requires j < j' < |secs|
    requires i < |SectionFields(secs, j).keys|
    requires Resolve(table.vals[j], SectionFields(secs, j).keys[i]).Some?
    ensures WritesBefore(table, secs, j) + ResolvedCount(table.vals[j], SectionFields(secs, j), i)
      < WritesBefore(table, secs, j') + i'
  {
    WithinSection(table, secs, j, i);
    WritesBeforeMonotone(table, secs, j + 1, j');
    var x := WritesBefore(table, secs, j) + ResolvedCount(table.vals[j], SectionFields(secs, j), i);
    var y, z := WritesBefore(table, secs, j + 1), WritesBefore(table, secs, j');
    assert x < y <= z;
  }

  // ---------------------------------------------------------------------
  // The raw pass

  const RAW_EXCLUDE: set<string> := {"INIT:CONT", "SweepMode", "ContinuousSweep"}

  /** A top-level key sent as a raw command: not a section name, not an
      object, not excluded, and containing a colon. */
  predicate IsRawCommand(table: Dict<Dict<string>>, data: Doc, i: nat)
    requires i < |data.keys| == |data.vals|
  {
    data.keys[i] !in table.keys && data.vals[i].Leaf? && data.keys[i] !in RAW_EXCLUDE && ':' in data.keys[i]
  }

  function RawSteps(table: Dict<Dict<string>>, data: Doc, m: nat): (steps: seq<Step>)
    requires m <= |data.keys| == |data.vals|
  {
    if m == 0 then []
    else if IsRawCommand(table, data, m - 1) then
      var key := data.keys[m - 1];
      var text := data.vals[m - 1].text;
      RawSteps(table, data, m - 1) + [Write(key + " " + text, RawApplied(key, text), RawFailed(key))]
    else RawSteps(table, data, m - 1)
  }

  /** How many of the first `m` top-level keys are raw commands. */
  function RawCount(table: Dict<Dict<string>>, data: Doc, m: nat): (c: nat)
    requires m <= |data.keys| == |data.vals|
    ensures c <= m
  {
    if m == 0 then 0 else RawCount(table, data, m - 1) + (if IsRawCommand(table, data, m - 1) then 1 else 0)
  }

  lemma {:induction false} RawWriteCount(table: Dict<Dict<string>>, data: Doc, m: nat)
    requires m <= |data.keys| == |data.vals|
    ensures |Commands(RawSteps(table, data, m))| == RawCount(table, data, m)
  {
    if m > 0 {
      RawWriteCount(table, data, m - 1);
      if IsRawCommand(table, data, m - 1) {
        var key := data.keys[m - 1];
        var text := data.vals[m - 1].text;
        Snoc(RawSteps(table, data, m - 1), Write(key + " " + text, RawApplied(key, text), RawFailed(key)), 0, (n, c) => false);
      }
    }
  }

  lemma {:induction false} RawWriteAt(table: Dict<Dict<string>>, data: Doc, m: nat, i: nat)
    requires m <= |data.keys| == |data.vals|
    requires i < m && IsRawCommand(table, data, i)
    ensures RawCount(table, data, i) < RawCount(table, data, m)
    ensures RawCount(table, data, i) < |Commands(RawSteps(table, data, m))|
    ensures Commands(RawSteps(table, data, m))[RawCount(table, data, i)] == data.keys[i] + " " + data.vals[i].text
  {
    var tail := RawCommandsStep(table, data, m);
    var cp := Commands(RawSteps(table, data, m - 1));
    var before, last := RawCount(table, data, i), RawCount(table, data, m - 1);
    var target := data.keys[i] + " " + data.vals[i].text;
    if i < m - 1 {
      RawWriteAt(table, data, m - 1, i);
      assert before < last && cp[before] == target;
      IndexBefore(cp, tail, before);
    } else {
      assert before == last && tail == [target];
      IndexAfter(cp, tail, 0);
    }
  }

  /** The raw pass's commands grow by the `m - 1`-th key's write when it
      is one, and by nothing otherwise. */
  lemma RawCommandsStep(table: Dict<Dict<string>>, data: Doc, m: nat) returns (tail: seq<string>)
    requires 0 < m <= |data.keys| == |data.vals|
    ensures |Commands(RawSteps(table, data, m - 1))| == RawCount(table, data, m - 1)
    ensures Commands(RawSteps(table, data, m)) == Commands(RawSteps(table, data, m - 1)) + tail
    ensures RawCount(table, data, m) == RawCount(table, data, m - 1) + |tail|
    ensures tail == if IsRawCommand(table, data, m - 1) then [data.keys[m - 1] + " " + data.vals[m - 1].text] else []
  {
    RawWriteCount(table, data, m - 1);
    var prev := RawSteps(table, data, m - 1);
    if IsRawCommand(table, data, m - 1) {
      var key := data.keys[m - 1];
      var text := data.vals[m - 1].text;
      var x := Write(key + " " + text, RawApplied(key, text), RawFailed(key));
      assert RawSteps(table, data, m) == prev + [x];
      CommandsSnoc(prev, x);
      tail := [x.cmd];
    } else {
      assert RawSteps(table, data, m) == prev;
      assert Commands(prev) + [] == Commands(prev);
      tail := [];
    }
  }

  /** Which top-level key the `k`-th raw write comes from. */
  function RawWriteSource(table: Dict<Dict<string>>, data: Doc, m: nat, k: nat): (i: nat)
    requires m <= |data.keys| == |data.vals|
    requires k < RawCount(table, data, m)
    ensures i < m && IsRawCommand(table, data, i) && RawCount(table, data, i) == k
  {
    if IsRawCommand(table, data, m - 1) && k == RawCount(table, data, m - 1) then m - 1
    else RawWriteSource(table, data, m - 1, k)
  }

  /** The raw pass writes `"<key> <value>"` for a top-level key if and only if
      the key qualifies, once each, in document order; so `INIT:CONT`,
      `SweepMode` and `ContinuousSweep` are never sent by it. */
  lemma RawWrites(table: Dict<Dict<string>>, data: Doc)
    requires |data.keys| == |data.vals|
    ensures |Commands(RawSteps(table, data, |data.keys|))| == RawCount(table, data, |data.keys|)
    ensures forall i :: 0 <= i < |data.keys| && IsRawCommand(table, data, i) ==>
      RawCount(table, data, i) < |Commands(RawSteps(table, data, |data.keys|))|
      && Commands(RawSteps(table, data, |data.keys|))[RawCount(table, data, i)] == data.keys[i] + " " + data.vals[i].text
    ensures forall i, i' :: 0 <= i < i' < |data.keys| && IsRawCommand(table, data, i) && IsRawCommand(table, data, i') ==>
      RawCount(table, data, i) < RawCount(table, data, i')
    ensures forall k :: 0 <= k < |Commands(RawSteps(table, data, |data.keys|))| ==>
      var i := RawWriteSource(table, data, |data.keys|, k);
      IsRawCommand(table, data, i)
      && Commands(RawSteps(table, data, |data.keys|))[k] == data.keys[i] + " " + data.vals[i].text
  {
    var m := |data.keys|;
    RawWriteCount(table, data, m);
    forall i | 0 <= i < m && IsRawCommand(table, data, i)
      ensures RawCount(table, data, i) < |Commands(RawSteps(table, data, m))|
      ensures Commands(RawSteps(table, data, m))[RawCount(table, data, i)] == data.keys[i] + " " + data.vals[i].text
    {
      RawWriteAt(table, data, m, i);
    }
    forall i, i' | 0 <= i < i' < m && IsRawCommand(table, data, i) && IsRawCommand(table, data, i')
      ensures RawCount(table, data, i) < RawCount(table, data, i')
    {
      RawWriteAt(table, data, i', i);
    }
  }

  /** The whole call: the grouped pass and, when it was not stopped by an
      exception, the raw pass. */
  function Plan(table: Dict<Dict<string>>, data: Doc): Outcome
    requires TableShape(table) && WellFormed(data)
  {
    var secs := Sections(table, data);
    var g := Grouped(table, secs, |secs|);
    if g.completed then Outcome(g.steps + RawSteps(table, data, |data.keys|), true) else g
  }

  /** All writes of a completed call: the grouped writes, then the raw ones. */
  lemma PlanCommands(table: Dict<Dict<string>>, data: Doc)
    requires TableShape(table) && WellFormed(data)
    requires Plan(table, data).completed
    ensures Commands(Plan(table, data).steps)
      == Commands(Grouped(table, Sections(table, data), |Sections(table, data)|).steps) + Commands(RawSteps(table, data, |data.keys|))
  {
    CommandsAppend(Grouped(table, Sections(table, data), |Sections(table, data)|).steps, RawSteps(table, data, |data.keys|));
  }

  lemma CommandTableShape()
    ensures TableShape(CommandGroups.COMMAND_GROUPS)
  {
    CommandGroups.TableWellFormed();
  }

  /** Appending a plan to one already carried out: the commands and the log of the
      whole are those of the parts, the second starting where the first ended. */
  lemma Extend(w: seq<string>, done: seq<Step>, more: seq<Step>, fails: (nat, string) -> bool)
    ensures (w + Commands(done)) + Commands(more) == w + Commands(done + more)
    ensures Run(done, |w|, fails) + Run(more, |w + Commands(done)|, fails) == Run(done + more, |w|, fails)
  {
    CommandsAppend(done, more);
    Assoc(w, Commands(done), Commands(more));
    LengthAppend(w, Commands(done));
    RunAppend(done, more, |w|, |w + Commands(done)|, fails);
  }

  lemma LengthAppend(a: seq<string>, b: seq<string>)
    ensures |a + b| == |a| + |b|
  {
  }

  /** Carries out one step: a write is sent, and the line logged is the
      success or the failure line of the step as the write returned or
      raised; a note is logged without touching the instrument. */
  method Perform(upv: Instrument, step: Step) returns (e: Event)
    modifies upv
    ensures upv.written == old(upv.written) + (if step.Write? then [step.cmd] else [])
    ensures e == StepEvent(step, |old(upv.written)|, upv.writeFails)
    ensures upv.queried == old(upv.queried)
  {
    match step {
      case Write(cmd, good, bad) =>
        var ok := upv.Write(cmd);
        e := if ok then good else bad;
      case Note(n) =>
        e := n;
    }
  }

  /** The inner loop over one section's fields: each label is resolved and
      either written with its value or logged as unknown. */
  method ApplyFields(upv: Instrument, prefixes: Dict<string>, fields: Dict<string>) returns (log: seq<Event>)
    requires |prefixes.keys| == |prefixes.vals| && |fields.keys| == |fields.vals|
    modifies upv
    ensures upv.written == old(upv.written) + Commands(FieldSteps(prefixes, fields, |fields.keys|))
    ensures log == Run(FieldSteps(prefixes, fields, |fields.keys|), |old(upv.written)|, upv.writeFails)
    ensures upv.queried == old(upv.queried)
  {
    ghost var w0 := upv.written;
    ghost var done: seq<Step> := [];
    log := [];
    var i := 0;
    while i < |fields.keys|
      invariant 0 <= i <= |fields.keys|
      invariant done == FieldSteps(prefixes, fields, i)
      invariant upv.written == w0 + Commands(done)
      invariant log == Run(done, |w0|, upv.writeFails)
      invariant upv.queried == old(upv.queried)
    {
      var name := fields.keys[i];
      var value := fields.vals[i];
      var step := FieldStep(prefixes, name, value);
      ghost var n := |upv.written|;
      ghost var tail := if step.Write? then [step.cmd] else [];
      CommandsSnoc(done, step);
      RunSnoc(done, step, |w0|, upv.writeFails, n);
      Assoc(w0, Commands(done), tail);
      var e := Perform(upv, step);
      log := log + [e];
      done := done + [step];
      assert done == FieldSteps(prefixes, fields, i + 1);
      i := i + 1;
    }
  }

  /** The raw pass over the top-level keys. */
  method ApplyRaw(upv: Instrument, table: Dict<Dict<string>>, data: Doc) returns (log: seq<Event>)
    requires |data.keys| == |data.vals|
    modifies upv
    ensures upv.written == old(upv.written) + Commands(RawSteps(table, data, |data.keys|))
    ensures log == Run(RawSteps(table, data, |data.keys|), |old(upv.written)|, upv.writeFails)
    ensures upv.queried == old(upv.queried)
  {
    ghost var w0 := upv.written;
    log := [];
    var m := 0;
    while m < |data.keys|
      invariant 0 <= m <= |data.keys|
      invariant upv.written == w0 + Commands(RawSteps(table, data, m))
      invariant log == Run(RawSteps(table, data, m), |w0|, upv.writeFails)
      invariant upv.queried == old(upv.queried)
    {
      var key := data.keys[m];
      var value := data.vals[m];
      if key in table.keys {
      } else if value.Group? {
      } else if key in RAW_EXCLUDE {
      } else if ':' in key {
        ghost var step := Write(key + " " + value.text, RawApplied(key, value.text), RawFailed(key));
        Snoc(RawSteps(table, data, m), step, |w0|, upv.writeFails);
        var ok := upv.Write(key + " " + value.text);
        if ok {
          log := log + [RawApplied(key, value.text)];
        } else {
          log := log + [RawFailed(key)];
        }
      }
      m := m + 1;
    }
  }

  /** One section of the grouped pass: a missing section is reported, a
      present one announced and, when it is an object, its fields applied;
      a scalar raises once it has been announced. */
  method ApplySection(upv: Instrument, table: Dict<Dict<string>>, data: Doc, ghost secs: seq<Option<Value>>, j: nat)
    returns (log: seq<Event>, completed: bool)
    requires Walkable(table, secs) && j < |secs| && |data.keys| == |data.vals|
    requires secs[j] == data.Get(table.keys[j])
    modifies upv
    ensures completed == SectionSteps(table, secs, j).completed
    ensures upv.written == old(upv.written) + Commands(SectionSteps(table, secs, j).steps)
    ensures log == Run(SectionSteps(table, secs, j).steps, |old(upv.written)|, upv.writeFails)
    ensures upv.queried == old(upv.queried)
  {
    var section := table.keys[j];
    match data.Get(section) {
      case None =>
        log, completed := [SectionMissing(section)], true;
      case Some(Leaf(_)) =>
        log, completed := [Applying(section)], false;
      case Some(Group(fields)) =>
        assert SectionFields(secs, j) == fields;
        assert SectionSteps(table, secs, j).steps == [Note(Applying(section))] + FieldSteps(table.vals[j], fields, |fields.keys|);
        log := ApplyObject(upv, table.vals[j], section, fields);
        completed := true;
    }
  }

  /** A section holding an object: announced, then its fields applied. */
  method ApplyObject(upv: Instrument, prefixes: Dict<string>, section: string, fields: Dict<string>) returns (log: seq<Event>)
    requires prefixes.Shaped() && fields.Shaped()
    modifies upv
    ensures upv.written == old(upv.written) + Commands([Note(Applying(section))] + FieldSteps(prefixes, fields, |fields.keys|))
    ensures log == Run([Note(Applying(section))] + FieldSteps(prefixes, fields, |fields.keys|), |old(upv.written)|, upv.writeFails)
    ensures upv.queried == old(upv.queried)
  {
    ghost var head := [Note(Applying(section))];
    ghost var fs := FieldSteps(prefixes, fields, |fields.keys|);
    ghost var n := |upv.written|;
    NoteAlone(Applying(section), n, upv.writeFails);
    RunAppend(head, fs, n, n, upv.writeFails);
    CommandsAppend(head, fs);
    var fieldLog := ApplyFields(upv, prefixes, fields);
    log := [Applying(section)] + fieldLog;
  }

  /** A plan of one note writes nothing and logs the note. */
  lemma NoteAlone(e: Event, n: nat, fails: (nat, string) -> bool)
    ensures Commands([Note(e)]) == [] && Run([Note(e)], n, fails) == [e]
  {
    var s := [Note(e)];
    assert s[..0] == [];
  }

  /** Once the grouped pass has stopped, later sections change nothing. */
  lemma {:induction false} GroupedStopped(table: Dict<Dict<string>>, secs: seq<Option<Value>>, k: nat, n: nat)
    requires Walkable(table, secs) && k <= n <= |secs|
    requires !Grouped(table, secs, k).completed
    ensures !Grouped(table, secs, n).completed && Grouped(table, secs, n).steps == Grouped(table, secs, k).steps
    decreases n
  {
    if n > k {
      GroupedStopped(table, secs, k, n - 1);
    }
  }

  /** One turn of the grouped pass: section `j` applied after the sections
      before it, which all completed. */
  method ApplyNext(upv: Instrument, table: Dict<Dict<string>>, data: Doc, ghost secs: seq<Option<Value>>, j: nat,
                   ghost w0: seq<string>, ghost done: seq<Step>, log0: seq<Event>)
    returns (log: seq<Event>, ok: bool, ghost done': seq<Step>)
    requires Walkable(table, secs) && j < |secs| && |data.keys| == |data.vals|
    requires secs[j] == data.Get(table.keys[j])
    requires Grouped(table, secs, j) == Outcome(done, true)
    requires upv.written == w0 + Commands(done)
    requires log0 == Run(done, |w0|, upv.writeFails)
    modifies upv
    ensures Grouped(table, secs, j + 1) == Outcome(done', ok)
    ensures upv.written == w0 + Commands(done')
    ensures log == Run(done', |w0|, upv.writeFails)
    ensures upv.queried == old(upv.queried)
  {
    ghost var s := SectionSteps(table, secs, j);
    GroupedNext(table, secs, j, j + 1);
    Extend(w0, done, s.steps, upv.writeFails);
    var sectionLog;
    sectionLog, ok := ApplySection(upv, table, data, secs, j);
    log := log0 + sectionLog;
    done' := done + s.steps;
  }

  /** The grouped pass of `apply_grouped_settings`: the table's sections in
      order, stopping at the first one that raises. */
  method ApplySections(upv: Instrument, table: Dict<Dict<string>>, data: Doc, ghost secs: seq<Option<Value>>)
    returns (log: seq<Event>, completed: bool)
    requires Walkable(table, secs) && |data.keys| == |data.vals|
    requires forall j :: 0 <= j < |secs| ==> secs[j] == data.Get(table.keys[j])
    modifies upv
    ensures completed == Grouped(table, secs, |secs|).completed
    ensures upv.written == old(upv.written) + Commands(Grouped(table, secs, |secs|).steps)
    ensures log == Run(Grouped(table, secs, |secs|).steps, |old(upv.written)|, upv.writeFails)
    ensures upv.queried == old(upv.queried)
  {
    ghost var w0 := upv.written;
    ghost var done: seq<Step> := [];
    log := [];
    completed := true;
    var j := 0;
    while j < |table.keys| && completed
      invariant 0 <= j <= |secs|
      invariant Grouped(table, secs, j) == Outcome(done, completed)
      invariant upv.written == w0 + Commands(done)
      invariant log == Run(done, |w0|, upv.writeFails)
      invariant upv.queried == old(upv.queried)
    {
      log, completed, done := ApplyNext(upv, table, data, secs, j, w0, done, log);
      j := j + 1;
    }
    GroupedEnd(table, secs, j, Outcome(done, completed));
  }

  /** Where the section loop stops, at the end or at a section that raised,
      its outcome is that of the whole grouped pass. */
  lemma GroupedEnd(table: Dict<Dict<string>>, secs: seq<Option<Value>>, j: nat, o: Outcome)
    requires Walkable(table, secs) && j <= |secs|
    requires Grouped(table, secs, j) == o
    requires j == |secs| || !o.completed
    ensures Grouped(table, secs, |secs|) == o
  {
    if j < |secs| {
      GroupedStopped(table, secs, j, |secs|);
    }
  }

  /** The walk of `apply_grouped_settings` over a command table: the grouped
      pass and, when no section raised, the raw pass.  `completed` is false
      when the call ended with an exception, which happens when a section
      holds a scalar. */
  method ApplyGrouped(upv: Instrument, table: Dict<Dict<string>>, data: Doc) returns (log: seq<Event>, completed: bool)
    requires TableShape(table) && WellFormed(data)
    modifies upv
    ensures completed == Plan(table, data).completed
    ensures upv.written == old(upv.written) + Commands(Plan(table, data).steps)
    ensures log == Run(Plan(table, data).steps, |old(upv.written)|, upv.writeFails)
    ensures upv.queried == old(upv.queried)
  {
    ghost var w0 := upv.written;
    ghost var secs := Sections(table, data);
    ghost var grouped := Grouped(table, secs, |secs|).steps;
    log, completed := ApplySections(upv, table, data, secs);
    if completed {
      ghost var raw := RawSteps(table, data, |data.keys|);
      Extend(w0, grouped, raw, upv.writeFails);
      var rawLog := ApplyRaw(upv, table, data);
      log := log + rawLog;
    }
  }

  /** `apply_grouped_settings(upv, data)`: the walk over `command_groups`. */
  method ApplyGroupedSettings(upv: Instrument, data: Doc) returns (log: seq<Event>, completed: bool)
    requires WellFormed(data)
    modifies upv
    ensures TableShape(CommandGroups.COMMAND_GROUPS)
    ensures completed == Plan(CommandGroups.COMMAND_GROUPS, data).completed
    ensures upv.written == old(upv.written) + Commands(Plan(CommandGroups.COMMAND_GROUPS, data).steps)
    ensures log == Run(Plan(CommandGroups.COMMAND_GROUPS, data).steps, |old(upv.written)|, upv.writeFails)
    ensures upv.queried == old(upv.queried)
  {
    CommandTableShape();
    log, completed := ApplyGrouped(upv, CommandGroups.COMMAND_GROUPS, data);
  }
}
