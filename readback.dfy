/** The settings read-back of `upv_readback.py`: every command of the
    command table is turned into its query form and sent, and the answers
    make up a snapshot with the table's sections and labels. */
module Readback {
  import opened Wrappers
  import opened Text
  import opened Dicts
  import opened Link
  import CommandGroups

  // ---------------------------------------------------------------------
  // `_derive_query`

  /** `SPECIAL_QUERY_COMMANDS`: labels whose value is read by another query. */
  const SPECIAL_QUERY_COMMANDS: Dict<string> :=
    Dict(["Instrument Generator", "Instrument Analyzer"], ["INST?", "INST?"])

  /** `SKIP_LABELS`: labels that are never read; there are none. */
  const SKIP_LABELS: set<string> := {}

  /** `_derive_query(scpi, name)`: `None` for a skipped name, the special
      query for a special name, the command itself if it is already a
      query, else the command with `?` appended. */
  function DeriveQuery(scpi: string, name: string, skip: set<string>): (q: Option<string>)
    ensures q.None? <==> name in skip
    ensures q.Some? ==> EndsWith(q.value, "?")
    ensures q.Some? && name in SPECIAL_QUERY_COMMANDS.keys ==> q == SPECIAL_QUERY_COMMANDS.Get(name)
    ensures q.Some? && name !in SPECIAL_QUERY_COMMANDS.keys && EndsWith(scpi, "?") ==> q.value == scpi
    ensures q.Some? && name !in SPECIAL_QUERY_COMMANDS.keys && !EndsWith(scpi, "?") ==> q.value == scpi + "?"
  {
    if name in skip then None
    else if name in SPECIAL_QUERY_COMMANDS.keys then SPECIAL_QUERY_COMMANDS.Get(name)
    else if EndsWith(scpi, "?") then Some(scpi)
    else Some(scpi + "?")
  }

  /** A query form is its own query form. */
  lemma DeriveQueryIdempotent(scpi: string, name: string, skip: set<string>)
    requires name !in skip && name !in SPECIAL_QUERY_COMMANDS.keys
    ensures DeriveQuery(scpi, name, skip).Some?
    ensures DeriveQuery(DeriveQuery(scpi, name, skip).value, name, skip) == DeriveQuery(scpi, name, skip)
  {
  }

  /** A special name is read by its own query whatever its command is. */
  lemma SpecialQueryWins(scpi: string, other: string, name: string, skip: set<string>)
    requires name !in skip && name in SPECIAL_QUERY_COMMANDS.keys
    ensures DeriveQuery(scpi, name, skip) == DeriveQuery(other, name, skip) == Some("INST?")
  {
  }

  // ---------------------------------------------------------------------
  // The answers

  predicate Quoted(s: string) {
    |s| >= 2 && s[0] == '"' && s[|s| - 1] == '"'
  }

  /** An answer stripped of whitespace, then of one enclosing pair of double
      quotes when there is one. */
  function Unquote(resp: string): string {
    var s := Strip(resp);
    if Quoted(s) then s[1..|s| - 1] else s
  }

  /** Only one enclosing pair comes off, and nothing else changes. */
  lemma UnquoteShape(resp: string)
    ensures Quoted(Strip(resp)) ==> Strip(resp) == "\"" + Unquote(resp) + "\""
    ensures !Quoted(Strip(resp)) ==> Unquote(resp) == Strip(resp)
  {
    var s := Strip(resp);
    if Quoted(s) {
      assert s == [s[0]] + s[1..|s| - 1] + [s[|s| - 1]];
    }
  }

  /** The quotes put around any text, even text that is itself quoted or
      padded with spaces, come off again, and only they do. */
  lemma UnquoteQuoted(x: string)
    ensures Unquote("\"" + x + "\"") == x
  {
    var s := "\"" + x + "\"";
    assert s[0] == '"' && s[|s| - 1] == '"';
    assert Strip(s) == s by {
      assert PrefixLen(s, IsSpace) == 0;
      assert SuffixLen(s, IsSpace) == 0;
      assert TrimStart(s, IsSpace) == s;
    }
    assert s[1..|s| - 1] == x;
  }

  /** A stripped answer without an enclosing pair is stored as it is. */
  lemma UnquotePlain(s: string)
    requires Strip(s) == s && !Quoted(s)
    ensures Unquote(s) == s
  {
  }

  // ---------------------------------------------------------------------
  // One section

  lemma TakeNext<T>(s: seq<T>, j: nat)
    requires j < |s|
    ensures s[..j + 1] == s[..j] + [s[j]]
  {
  }

  lemma SliceNext<T>(s: seq<T>, m: nat, j: nat)
    requires m <= j < |s|
    ensures s[m..j + 1] == s[m..j] + [s[j]]
  {
  }

  /** How a label's command becomes its query; `None` skips the label. */
  type Deriver = (string, string) -> Option<string>

  /** The read-back's own derivation. */
  const DERIVE: Deriver := (scpi, name) => DeriveQuery(scpi, name, SKIP_LABELS)

  /** The queries sent for the first `k` labels of a section, in order. */
  function SectionQueries(mapping: Dict<string>, derive: Deriver, k: nat): (qs: seq<string>)
    requires k <= |mapping.keys| == |mapping.vals|
    ensures |qs| <= k
  {
    if k == 0 then []
    else
      match derive(mapping.vals[k - 1], mapping.keys[k - 1])
      case None => SectionQueries(mapping, derive, k - 1)
      case Some(q) => SectionQueries(mapping, derive, k - 1) + [q]
  }

  /** The answer stored for label `i` of a section whose first query is the
      `n`-th: `None` when the label is skipped or its query raises. */
  function Response(mapping: Dict<string>, derive: Deriver, i: nat, n: nat, answer: (nat, string) -> Option<string>): Option<string>
    requires i < |mapping.keys| == |mapping.vals|
  {
    match derive(mapping.vals[i], mapping.keys[i])
    case None => None
    case Some(q) =>
      match answer(n + |SectionQueries(mapping, derive, i)|, q)
      case None => None
      case Some(resp) => Some(Unquote(resp))
  }

  /** `d`, with `k` set to the answer when there is one. */
  function Store(d: Dict<string>, k: string, r: Option<string>): (d': Dict<string>)
    requires d.Valid()
    ensures d'.Valid() && d'.Get(k) == (if r.Some? then r else d.Get(k))
    ensures forall k' :: k' != k ==> d'.Get(k') == d.Get(k')
  {
    if r.Some? then d.Put(k, r.value) else d
  }

  /** `section_out` after the first `k` labels. */
  function SectionOut(mapping: Dict<string>, derive: Deriver, k: nat, n: nat, answer: (nat, string) -> Option<string>): (out: Dict<string>)
    requires k <= |mapping.keys| == |mapping.vals|
    ensures out.Valid()
  {
    if k == 0 then Empty()
    else Store(SectionOut(mapping, derive, k - 1, n, answer), mapping.keys[k - 1], Response(mapping, derive, k - 1, n, answer))
  }

  /** A label not among the first `k` is not in `section_out`. */
  lemma {:induction false} SectionOutAbsent(mapping: Dict<string>, derive: Deriver, k: nat, n: nat, answer: (nat, string) -> Option<string>, l: string)
    requires k <= |mapping.keys| == |mapping.vals| && l !in mapping.keys[..k]
    ensures SectionOut(mapping, derive, k, n, answer).Get(l).None?
  {
    if k > 0 {
      TakeNext(mapping.keys, k - 1);
      SectionOutAbsent(mapping, derive, k - 1, n, answer, l);
    }
  }

  /** Every label whose query was answered holds its answer, and a label
      that was skipped or whose query raised is the only one missing. */
  lemma SectionOutGet(mapping: Dict<string>, derive: Deriver, k: nat, n: nat, answer: (nat, string) -> Option<string>, i: nat)
    requires mapping.Valid() && i < k <= |mapping.keys|
    ensures SectionOut(mapping, derive, k, n, answer).Get(mapping.keys[i]) == Response(mapping, derive, i, n, answer)
  {
    var l := mapping.keys[i];
    assert l !in mapping.keys[..i];
    assert l !in mapping.keys[i + 1..k];
    SectionOutAbsent(mapping, derive, i, n, answer, l);
    SectionOutLast(mapping, derive, i, n, answer);
    SectionOutRange(mapping, derive, i + 1, k, n, answer, l);
  }

  /** The labels after `m` leave every other label as it was. */
  lemma {:induction false} SectionOutRange(mapping: Dict<string>, derive: Deriver, m: nat, k: nat, n: nat,
                                           answer: (nat, string) -> Option<string>, l: string)
    requires m <= k <= |mapping.keys| == |mapping.vals| && l !in mapping.keys[m..k]
    ensures SectionOut(mapping, derive, k, n, answer).Get(l) == SectionOut(mapping, derive, m, n, answer).Get(l)
  {
    if m < k {
      SliceNext(mapping.keys, m, k - 1);
      SectionOutRange(mapping, derive, m, k - 1, n, answer, l);
      SectionOutKeep(mapping, derive, k, n, answer, l);
    }
  }

  lemma SectionOutKeep(mapping: Dict<string>, derive: Deriver, k: nat, n: nat, answer: (nat, string) -> Option<string>, l: string)
    requires 0 < k <= |mapping.keys| == |mapping.vals| && l != mapping.keys[k - 1]
    ensures SectionOut(mapping, derive, k, n, answer).Get(l) == SectionOut(mapping, derive, k - 1, n, answer).Get(l)
  {
  }

  lemma SectionOutLast(mapping: Dict<string>, derive: Deriver, i: nat, n: nat, answer: (nat, string) -> Option<string>)
    requires i < |mapping.keys| == |mapping.vals| && SectionOut(mapping, derive, i, n, answer).Get(mapping.keys[i]).None?
    ensures SectionOut(mapping, derive, i + 1, n, answer).Get(mapping.keys[i]) == Response(mapping, derive, i, n, answer)
  {
  }

  /** A label outside the section is never in `section_out`. */
  lemma SectionOutKeys(mapping: Dict<string>, derive: Deriver, n: nat, answer: (nat, string) -> Option<string>, l: string)
    requires |mapping.keys| == |mapping.vals| && l !in mapping.keys
    ensures SectionOut(mapping, derive, |mapping.keys|, n, answer).Get(l).None?
  {
    assert mapping.keys[..|mapping.keys|] == mapping.keys;
    SectionOutAbsent(mapping, derive, |mapping.keys|, n, answer, l);
  }

  // ---------------------------------------------------------------------
  // The snapshot

  /** A table with one value per key, at both levels. */
  predicate Tabular(t: Dict<Dict<string>>) {
    t.Shaped() && forall j :: 0 <= j < |t.vals| ==> t.vals[j].Shaped()
  }

  /** A command table: sections and labels are Python dictionaries. */
  ghost predicate Table(t: Dict<Dict<string>>) {
    Tabular(t) && Distinct(t.keys) && forall j :: 0 <= j < |t.vals| ==> Distinct(t.vals[j].keys)
  }

  /** The queries sent for the first `j` sections of the table. */
  function TableQueries(t: Dict<Dict<string>>, derive: Deriver, j: nat): seq<string>
    requires Tabular(t) && j <= |t.keys|
  {
    if j == 0 then []
    else TableQueries(t, derive, j - 1) + SectionQueries(t.vals[j - 1], derive, |t.vals[j - 1].keys|)
  }

  /** The `section_out` of each of the first `j` sections, the first query
      of the table being the `n`-th the link has seen. */
  function SectionOuts(t: Dict<Dict<string>>, derive: Deriver, j: nat, n: nat, answer: (nat, string) -> Option<string>)
    : (outs: seq<Dict<string>>)
    requires Tabular(t) && j <= |t.keys|
    ensures |outs| == j
  {
    if j == 0 then []
    else
      var mapping := t.vals[j - 1];
      SectionOuts(t, derive, j - 1, n, answer) + [SectionOut(mapping, derive, |mapping.keys|, n + |TableQueries(t, derive, j - 1)|, answer)]
  }

  /** `snapshot`: every section of the table, each with its `section_out`. */
  function Snapshot(t: Dict<Dict<string>>, derive: Deriver, n: nat, answer: (nat, string) -> Option<string>)
    : (s: Dict<Dict<string>>)
    requires Tabular(t)
    ensures s.Shaped() && s.keys == t.keys
  {
    Dict(t.keys, SectionOuts(t, derive, |t.keys|, n, answer))
  }

  /** One more section: its queries follow those of the sections before it. */
  lemma TableQueriesNext(t: Dict<Dict<string>>, derive: Deriver, j: nat, q0: seq<string>)
    requires Tabular(t) && j < |t.keys|
    ensures q0 + TableQueries(t, derive, j + 1) == (q0 + TableQueries(t, derive, j)) + SectionQueries(t.vals[j], derive, |t.vals[j].keys|)
  {
    var a, b := TableQueries(t, derive, j), SectionQueries(t.vals[j], derive, |t.vals[j].keys|);
    assert TableQueries(t, derive, j + 1) == a + b;
    assert q0 + (a + b) == (q0 + a) + b;
  }

  /** One more section: its `section_out` follows those before it. */
  lemma SectionOutsNext(t: Dict<Dict<string>>, derive: Deriver, j: nat, n: nat, answer: (nat, string) -> Option<string>)
    requires Tabular(t) && j < |t.keys|
    ensures SectionOuts(t, derive, j + 1, n, answer) ==
      SectionOuts(t, derive, j, n, answer) + [SectionOut(t.vals[j], derive, |t.vals[j].keys|, n + |TableQueries(t, derive, j)|, answer)]
  {
    var k := j + 1;
    var mapping := t.vals[k - 1];
    assert SectionOuts(t, derive, k, n, answer) ==
      SectionOuts(t, derive, k - 1, n, answer) + [SectionOut(mapping, derive, |mapping.keys|, n + |TableQueries(t, derive, k - 1)|, answer)];
  }

  /** Later sections leave the `section_out` of section `i` as it was. */
  lemma {:induction false} SectionOutsStable(t: Dict<Dict<string>>, derive: Deriver, j: nat, n: nat,
                                             answer: (nat, string) -> Option<string>, i: nat)
    requires Tabular(t) && i < j <= |t.keys|
    ensures SectionOuts(t, derive, j, n, answer)[i] == SectionOuts(t, derive, i + 1, n, answer)[i]
  {
    if i < j - 1 {
      SectionOutsStable(t, derive, j - 1, n, answer, i);
    }
  }

  /** Entry `i` of `SectionOuts` is section `i`'s `section_out`. */
  lemma SectionOutsAt(t: Dict<Dict<string>>, derive: Deriver, j: nat, n: nat, answer: (nat, string) -> Option<string>, i: nat)
    requires Tabular(t) && i < j <= |t.keys|
    ensures SectionOuts(t, derive, j, n, answer)[i] ==
      SectionOut(t.vals[i], derive, |t.vals[i].keys|, n + |TableQueries(t, derive, i)|, answer)
  {
    SectionOutsStable(t, derive, j, n, answer, i);
    SectionOutsNext(t, derive, i, n, answer);
  }

  /** In a dictionary without repeated keys, key `i` holds value `i`. */
  lemma GetAt<V>(d: Dict<V>, i: nat)
    requires d.Valid() && i < |d.keys|
    ensures d.Get(d.keys[i]) == Some(d.vals[i])
  {
    assert IndexOf(d.keys, d.keys[i]).Some?;
  }

  /** Section `i` of the snapshot is that section's `section_out`, read
      after the queries of the sections before it. */
  lemma SnapshotGet(t: Dict<Dict<string>>, derive: Deriver, n: nat, answer: (nat, string) -> Option<string>, i: nat)
    requires Table(t) && i < |t.keys|
    ensures Snapshot(t, derive, n, answer).Get(t.keys[i]) ==
      Some(SectionOut(t.vals[i], derive, |t.vals[i].keys|, n + |TableQueries(t, derive, i)|, answer))
  {
    GetAt(Snapshot(t, derive, n, answer), i);
    SectionOutsAt(t, derive, |t.keys|, n, answer, i);
  }

  // ---------------------------------------------------------------------
  // `read_current_settings`

  /** One more label: its query, if any, follows those before it, and its
      answer, if any, is stored. */
  lemma LabelNext(mapping: Dict<string>, derive: Deriver, i: nat, q0: seq<string>, answer: (nat, string) -> Option<string>)
    requires i < |mapping.keys| == |mapping.vals|
    ensures q0 + SectionQueries(mapping, derive, i + 1) ==
      (q0 + SectionQueries(mapping, derive, i)) + (match derive(mapping.vals[i], mapping.keys[i]) case None => [] case Some(q) => [q])
    ensures SectionOut(mapping, derive, i + 1, |q0|, answer) ==
      Store(SectionOut(mapping, derive, i, |q0|, answer), mapping.keys[i], Response(mapping, derive, i, |q0|, answer))
  {
    var k := i + 1;
    var a := SectionQueries(mapping, derive, k - 1);
    assert SectionOut(mapping, derive, k, |q0|, answer) ==
      Store(SectionOut(mapping, derive, k - 1, |q0|, answer), mapping.keys[k - 1], Response(mapping, derive, k - 1, |q0|, answer));
    match derive(mapping.vals[k - 1], mapping.keys[k - 1])
    case None =>
      assert SectionQueries(mapping, derive, k) == a;
    case Some(q) =>
      assert SectionQueries(mapping, derive, k) == a + [q];
      assert q0 + (a + [q]) == (q0 + a) + [q];
  }

  /** The loop over one section's labels. */
  method ReadSection(upv: Instrument, mapping: Dict<string>, derive: Deriver) returns (out: Dict<string>)
    requires mapping.Valid()
    modifies upv
    ensures upv.written == old(upv.written)
    ensures upv.queried == old(upv.queried) + SectionQueries(mapping, derive, |mapping.keys|)
    ensures out == SectionOut(mapping, derive, |mapping.keys|, |old(upv.queried)|, upv.answer)
  {
    ghost var q0 := upv.queried;
    out := Empty();
    var i := 0;
    while i < |mapping.keys|
      invariant 0 <= i <= |mapping.keys|
      invariant upv.written == old(upv.written)
      invariant upv.queried == q0 + SectionQueries(mapping, derive, i)
      invariant out == SectionOut(mapping, derive, i, |q0|, upv.answer)
    {
      out := ReadLabel(upv, mapping, derive, i, q0, out);
      i := i + 1;
    }
  }

  /** One label: its query, and its answer stored unless the query raised. */
  method ReadLabel(upv: Instrument, mapping: Dict<string>, derive: Deriver, i: nat, ghost q0: seq<string>, out: Dict<string>)
    returns (out': Dict<string>)
    requires i < |mapping.keys| == |mapping.vals|
    requires upv.queried == q0 + SectionQueries(mapping, derive, i)
    requires out == SectionOut(mapping, derive, i, |q0|, upv.answer)
    modifies upv
    ensures upv.written == old(upv.written)
    ensures upv.queried == q0 + SectionQueries(mapping, derive, i + 1)
    ensures out' == SectionOut(mapping, derive, i + 1, |q0|, upv.answer)
  {
    LabelNext(mapping, derive, i, q0, upv.answer);
    out' := out;
    var q := derive(mapping.vals[i], mapping.keys[i]);
    if q.Some? {
      var resp := upv.Query(q.value);
      assert |old(upv.queried)| == |q0| + |SectionQueries(mapping, derive, i)|;
      if resp.Some? {
        out' := out.Put(mapping.keys[i], Unquote(resp.value));
      }
    }
  }

  /** The loop over the table's sections. */
  method ReadTable(upv: Instrument, t: Dict<Dict<string>>, derive: Deriver) returns (snapshot: Dict<Dict<string>>)
    requires Table(t)
    modifies upv
    ensures upv.written == old(upv.written)
    ensures upv.queried == old(upv.queried) + TableQueries(t, derive, |t.keys|)
    ensures snapshot == Snapshot(t, derive, |old(upv.queried)|, upv.answer)
  {
    ghost var q0 := upv.queried;
    snapshot := Empty();
    var j := 0;
    while j < |t.keys|
      invariant 0 <= j <= |t.keys|
      invariant upv.written == old(upv.written)
      invariant upv.queried == q0 + TableQueries(t, derive, j)
      invariant snapshot.keys == t.keys[..j] && snapshot.vals == SectionOuts(t, derive, j, |q0|, upv.answer)
    {
      snapshot := ReadNextSection(upv, t, derive, j, q0, snapshot);
      j := j + 1;
    }
    assert t.keys[..j] == t.keys;
  }

  /** One section of the table. */
  method ReadNextSection(upv: Instrument, t: Dict<Dict<string>>, derive: Deriver, j: nat, ghost q0: seq<string>,
                         snapshot: Dict<Dict<string>>) returns (snapshot': Dict<Dict<string>>)
    requires Table(t) && j < |t.keys|
    requires upv.queried == q0 + TableQueries(t, derive, j)
    requires snapshot.keys == t.keys[..j] && snapshot.vals == SectionOuts(t, derive, j, |q0|, upv.answer)
    modifies upv
    ensures upv.written == old(upv.written)
    ensures upv.queried == q0 + TableQueries(t, derive, j + 1)
    ensures snapshot'.keys == t.keys[..j + 1]
    ensures snapshot'.vals == SectionOuts(t, derive, j + 1, |q0|, upv.answer)
  {
    var out := ReadSection(upv, t.vals[j], derive);
    TableQueriesNext(t, derive, j, q0);
    assert |old(upv.queried)| == |q0| + |TableQueries(t, derive, j)|;
    SnapshotNext(t, derive, j, |q0|, upv.answer, snapshot, out);
    snapshot' := snapshot.Put(t.keys[j], out);
  }

  /** Storing section `j`'s `section_out` extends the snapshot by it. */
  lemma SnapshotNext(t: Dict<Dict<string>>, derive: Deriver, j: nat, n: nat, answer: (nat, string) -> Option<string>,
                     snapshot: Dict<Dict<string>>, out: Dict<string>)
    requires Table(t) && j < |t.keys|
    requires snapshot.keys == t.keys[..j] && snapshot.vals == SectionOuts(t, derive, j, n, answer)
    requires out == SectionOut(t.vals[j], derive, |t.vals[j].keys|, n + |TableQueries(t, derive, j)|, answer)
    ensures snapshot.Valid()
    ensures snapshot.Put(t.keys[j], out).keys == t.keys[..j + 1]
    ensures snapshot.Put(t.keys[j], out).vals == SectionOuts(t, derive, j + 1, n, answer)
  {
    SectionOutsNext(t, derive, j, n, answer);
    TakeNext(t.keys, j);
    assert t.keys[j] !in t.keys[..j];
  }

  /** `read_current_settings(upv)`: the loop over `command_groups`. */
  method ReadCurrentSettings(upv: Instrument) returns (snapshot: Dict<Dict<string>>)
    modifies upv
    ensures Table(CommandGroups.COMMAND_GROUPS)
    ensures upv.written == old(upv.written)
    ensures upv.queried == old(upv.queried) + TableQueries(CommandGroups.COMMAND_GROUPS, DERIVE, |CommandGroups.COMMAND_GROUPS.keys|)
    ensures snapshot == Snapshot(CommandGroups.COMMAND_GROUPS, DERIVE, |old(upv.queried)|, upv.answer)
  {
    CommandGroups.TableWellFormed();
    snapshot := ReadTable(upv, CommandGroups.COMMAND_GROUPS, DERIVE);
  }
}
