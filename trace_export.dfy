/** The export half of `fetch_and_plot_trace`: the two sweep arrays are
    validated, the dataset's working title and the curve's data name are
    derived from the preset name and the export path and escaped for an XML
    attribute, and the magnitude unit is resolved from the settings file. */
module TraceExport {
  import opened Wrappers
  import opened Text
  import opened Dicts
  import opened Document
  import opened Link

  // ---------------------------------------------------------------------
  // `_xml_escape`

  /** The entity `_xml_escape` writes for one character, or the character
      itself. */
  function EscapeChar(c: char): string {
    if c == '&' then "&amp;"
    else if c == '"' then "&quot;"
    else if c == '\'' then "&apos;"
    else if c == '<' then "&lt;"
    else if c == '>' then "&gt;"
    else [c]
  }

  /** The characters that may not appear raw in a double- or single-quoted
      attribute value. */
  predicate Markup(c: char) {
    c == '"' || c == '\'' || c == '<' || c == '>'
  }

  /** Escaping one character at a time: the reference for `_xml_escape`. */
  function EscapeEach(s: string): (r: string)
    ensures forall i :: 0 <= i < |r| ==> !Markup(r[i])
    ensures (forall i :: 0 <= i < |s| ==> !Markup(s[i]) && s[i] != '&') ==> r == s
  {
    if s == [] then []
    else
      var r := EscapeChar(s[0]) + EscapeEach(s[1..]);
      assert forall i :: 0 <= i < |EscapeChar(s[0])| ==> !Markup(r[i]);
      r
  }

  /** `_xml_escape` as written: five whole-string replacements, `&` first. */
  function XmlEscape(s: string): (r: string)
    ensures (forall i :: 0 <= i < |s| ==> !Markup(s[i]) && s[i] != '&') ==> r == s
  {
    ReplaceChar(ReplaceChar(ReplaceChar(ReplaceChar(ReplaceChar(s, '&', "&amp;"), '"', "&quot;"), '\'', "&apos;"), '<', "&lt;"), '>', "&gt;")
  }

  /** Reading the five entities back; any other text, and an `&` that
      starts none of them, stays as it is. */
  function Unescape(t: string): string
    decreases |t|
  {
    if t == [] then []
    else if StartsWith(t, "&amp;") then "&" + Unescape(t[5..])
    else if StartsWith(t, "&quot;") then "\"" + Unescape(t[6..])
    else if StartsWith(t, "&apos;") then "'" + Unescape(t[6..])
    else if StartsWith(t, "&lt;") then "<" + Unescape(t[4..])
    else if StartsWith(t, "&gt;") then ">" + Unescape(t[4..])
    else [t[0]] + Unescape(t[1..])
  }

  /** Each replacement works piece by piece, so the chain does too. */
  lemma XmlEscapeConcat(a: string, b: string)
    ensures XmlEscape(a + b) == XmlEscape(a) + XmlEscape(b)
  {
    ReplaceConcat(a, b, '&', "&amp;");
    var a1, b1 := ReplaceChar(a, '&', "&amp;"), ReplaceChar(b, '&', "&amp;");
    ReplaceConcat(a1, b1, '"', "&quot;");
    var a2, b2 := ReplaceChar(a1, '"', "&quot;"), ReplaceChar(b1, '"', "&quot;");
    ReplaceConcat(a2, b2, '\'', "&apos;");
    var a3, b3 := ReplaceChar(a2, '\'', "&apos;"), ReplaceChar(b2, '\'', "&apos;");
    ReplaceConcat(a3, b3, '<', "&lt;");
    var a4, b4 := ReplaceChar(a3, '<', "&lt;"), ReplaceChar(b3, '<', "&lt;");
    ReplaceConcat(a4, b4, '>', "&gt;");
  }

  /** On one character the chain writes that character's entity: no later
      replacement touches what an earlier one wrote. */
  lemma XmlEscapeChar(c: char)
    ensures XmlEscape([c]) == EscapeChar(c)
  {
    ReplaceSingle(c, '&', "&amp;");
    if c == '&' {
      assert '"' !in "&amp;" && '\'' !in "&amp;" && '<' !in "&amp;" && '>' !in "&amp;";
      return;
    }
    ReplaceSingle(c, '"', "&quot;");
    if c == '"' {
      assert '\'' !in "&quot;" && '<' !in "&quot;" && '>' !in "&quot;";
      return;
    }
    ReplaceSingle(c, '\'', "&apos;");
    if c == '\'' {
      assert '<' !in "&apos;" && '>' !in "&apos;";
      return;
    }
    ReplaceSingle(c, '<', "&lt;");
    if c == '<' {
      assert '>' !in "&lt;";
      return;
    }
    ReplaceSingle(c, '>', "&gt;");
  }

  lemma ReplaceSingle(c: char, x: char, rep: string)
    ensures ReplaceChar([c], x, rep) == if c == x then rep else [c]
  {
    assert [c][1..] == [];
  }

  /** Because `&` is replaced first, `_xml_escape` is the one-character-at-a-
      time escape: no entity it writes is escaped again. */
  lemma {:induction false} XmlEscapeIsEach(s: string)
    ensures XmlEscape(s) == EscapeEach(s)
  {
    if s != [] {
      assert s == [s[0]] + s[1..];
      XmlEscapeConcat([s[0]], s[1..]);
      XmlEscapeChar(s[0]);
      XmlEscapeIsEach(s[1..]);
    }
  }

  /** An escaped attribute value holds no raw quote, apostrophe or angle
      bracket, and text without special characters is left unchanged. */
  lemma XmlEscapeSafe(s: string)
    ensures forall i :: 0 <= i < |XmlEscape(s)| ==> !Markup(XmlEscape(s)[i])
    ensures (forall i :: 0 <= i < |s| ==> !Markup(s[i]) && s[i] != '&') ==> XmlEscape(s) == s
  {
    XmlEscapeIsEach(s);
  }

  lemma UnescapeChar(c: char, rest: string)
    ensures Unescape(EscapeChar(c) + rest) == [c] + Unescape(rest)
  {
    if c == '&' {
      UnescapeAmp(rest);
    } else if c == '"' {
      UnescapeQuot(rest);
    } else if c == '\'' {
      UnescapeApos(rest);
    } else if c == '<' {
      UnescapeLt(rest);
    } else if c == '>' {
      UnescapeGt(rest);
    } else {
      UnescapePlain(c, rest);
    }
  }

  lemma UnescapePlain(c: char, rest: string)
    requires c != '&'
    ensures Unescape([c] + rest) == [c] + Unescape(rest)
  {
    var t := [c] + rest;
    Differs(t, "&amp;", 0);
    Differs(t, "&quot;", 0);
    Differs(t, "&apos;", 0);
    Differs(t, "&lt;", 0);
    Differs(t, "&gt;", 0);
    assert t[1..] == rest;
  }

  /** Text that differs from `p` at position `i` does not start with `p`. */
  lemma Differs(t: string, p: string, i: nat)
    requires i < |p| && i < |t| && t[i] != p[i]
    ensures !StartsWith(t, p)
  {
    if |p| <= |t| {
      assert t[..|p|][i] == t[i];
    }
  }

  lemma UnescapeAmp(rest: string)
    ensures Unescape("&amp;" + rest) == "&" + Unescape(rest)
  {
    var t := "&amp;" + rest;
    assert t[..5] == "&amp;" && t[5..] == rest;
  }

  lemma UnescapeQuot(rest: string)
    ensures Unescape("&quot;" + rest) == "\"" + Unescape(rest)
  {
    var t := "&quot;" + rest;
    Differs(t, "&amp;", 1);
    assert t[..6] == "&quot;" && t[6..] == rest;
  }

  lemma UnescapeApos(rest: string)
    ensures Unescape("&apos;" + rest) == "'" + Unescape(rest)
  {
    var t := "&apos;" + rest;
    Differs(t, "&amp;", 2);
    Differs(t, "&quot;", 1);
    assert t[..6] == "&apos;" && t[6..] == rest;
  }

  lemma UnescapeLt(rest: string)
    ensures Unescape("&lt;" + rest) == "<" + Unescape(rest)
  {
    var t := "&lt;" + rest;
    Differs(t, "&amp;", 1);
    Differs(t, "&quot;", 1);
    Differs(t, "&apos;", 1);
    assert t[..4] == "&lt;" && t[4..] == rest;
  }

  lemma UnescapeGt(rest: string)
    ensures Unescape("&gt;" + rest) == ">" + Unescape(rest)
  {
    var t := "&gt;" + rest;
    Differs(t, "&amp;", 1);
    Differs(t, "&quot;", 1);
    Differs(t, "&apos;", 1);
    Differs(t, "&lt;", 1);
    assert t[..4] == "&gt;" && t[4..] == rest;
  }

  /** Unescaping gives back exactly the text that was escaped. */
  lemma {:induction false} UnescapeEscape(s: string)
    ensures Unescape(XmlEscape(s)) == s
  {
    XmlEscapeIsEach(s);
    UnescapeEach(s);
  }

  lemma {:induction false} UnescapeEach(s: string)
    ensures Unescape(EscapeEach(s)) == s
  {
    if s != [] {
      UnescapeChar(s[0], EscapeEach(s[1..]));
      UnescapeEach(s[1..]);
      assert s == [s[0]] + s[1..];
    }
  }

  // ---------------------------------------------------------------------
  // The working title and the curve's data name

  predicate IsSlash(c: char) { c == '/' }

  predicate NotSlash(c: char) { c != '/' }

  /** `Path(p).name`: the last component of the path, where empty and `.`
      components do not count; empty when there is none. */
  function PathName(p: string): (r: string)
    ensures forall i :: 0 <= i < |r| ==> r[i] != '/'
    ensures r != "."
    decreases |p|
  {
    var q := TrimEnd(p, IsSlash);
    var k := SuffixLen(q, NotSlash);
    var last := q[|q| - k..];
    if last == "." then PathName(q[..|q| - k]) else last
  }

  /** Trailing slashes do not change the name. */
  lemma PathNameSlash(q: string)
    ensures PathName(q + "/") == PathName(q)
  {
    var s := q + "/";
    assert s[..|s| - 1] == q;
    assert TrimEnd(s, IsSlash) == TrimEnd(q, IsSlash);
  }

  /** A trailing `.` component does not count. */
  lemma PathNameDot(q: string)
    ensures PathName(q + "/.") == PathName(q)
  {
    var s := q + "/.";
    var body := q + "/";
    assert s == body + ".";
    assert TrimEnd(s, IsSlash) == s by {
      assert !IsSlash(s[|s| - 1]);
      assert s[..|s|] == s;
    }
    assert SuffixLen(s, NotSlash) == 1 by {
      assert s[..|s| - 1] == body;
      assert !NotSlash(body[|body| - 1]);
    }
    assert s[|s| - 1..] == "." && s[..|s| - 1] == body;
    assert PathName(s) == PathName(body);
    PathNameSlash(q);
  }

  /** An empty path and a lone `.` name nothing. */
  lemma PathNameLoneDot()
    ensures PathName("") == ""
    ensures PathName(".") == ""
  {
    assert TrimEnd(".", IsSlash) == ".";
    assert "."[..0] == "";
    assert SuffixLen(".", NotSlash) == 1;
    assert PathName("") == "";
  }

  /** A final component other than `.`, at the start of the path or after
      a `/`, is the name. */
  lemma PathNameTail(a: string, c: string)
    requires c != "" && c != "." && '/' !in c
    requires a == [] || a[|a| - 1] == '/'
    ensures PathName(a + c) == c
  {
    var s := a + c;
    assert s[|s| - 1] == c[|c| - 1];
    assert SuffixLen(s, IsSlash) == 0;
    assert TrimEnd(s, IsSlash) == s by { assert s[..|s|] == s; }
    assert forall i :: 0 <= i < |c| ==> NotSlash(c[i]);
    SuffixLenAppend(a, c, NotSlash);
    assert SuffixLen(a, NotSlash) == 0;
    assert s[|s| - |c|..] == c;
  }

  /** A last component other than `.` is the name, whatever precedes it. */
  lemma PathNameLast(q: string, c: string)
    requires c != "" && c != "." && '/' !in c
    ensures PathName(c) == c
    ensures PathName(q + "/" + c) == c
  {
    PathNameTail([], c);
    assert [] + c == c;
    PathNameTail(q + "/", c);
  }

  /** `Path(p).stem`: the name without its last suffix, a suffix being a
      final `.` part that is neither the whole name nor empty. */
  function PathStem(p: string): (r: string)
    ensures |r| <= |PathName(p)| && r == PathName(p)[..|r|]
    ensures r != PathName(p) ==>
      0 < |r| < |PathName(p)| - 1 && PathName(p)[|r|] == '.' && '.' !in PathName(p)[|r| + 1..]
    ensures forall i :: 0 < i < |PathName(p)| - 1 && PathName(p)[i] == '.' && '.' !in PathName(p)[i + 1..] ==>
      r == PathName(p)[..i]
  {
    var name := PathName(p);
    match LastIndexOf(name, '.')
    case Some(i) => if 0 < i < |name| - 1 then name[..i] else name
    case None => name
  }

  const DEFAULT_TITLE := "Mic Sensitivity"
  const DEFAULT_CURVE_NAME := "sweep_trace.hxml"

  /** The dataset's `WorkingTitle` before escaping: the stripped preset name
      when one is given and not blank, else the export file's stem, else
      `Mic Sensitivity`. */
  function WorkingTitle(workingTitle: Option<string>, exportPath: string): (r: string)
    ensures r != ""
    ensures r == DEFAULT_TITLE || r == PathStem(exportPath) || (workingTitle.Some? && r == Strip(workingTitle.value))
  {
    if workingTitle.Some? && Strip(workingTitle.value) != "" then Strip(workingTitle.value)
    else if exportPath == "" || PathStem(exportPath) == "" then DEFAULT_TITLE
    else PathStem(exportPath)
  }

  /** The curve's `CurveDataName` before escaping: the export file's name
      with its extension, else `sweep_trace.hxml`. */
  function CurveDataName(exportPath: string): (r: string)
    ensures r != ""
    ensures r == DEFAULT_CURVE_NAME || r == PathName(exportPath)
  {
    if exportPath == "" || PathName(exportPath) == "" then DEFAULT_CURVE_NAME
    else PathName(exportPath)
  }

  /** The title follows the preset whenever one is named, whatever the
      file, then the file's stem, then `Mic Sensitivity`; the curve name is
      the file's name, else `sweep_trace.hxml`. */
  lemma TitlePriority(workingTitle: Option<string>, exportPath: string, otherPath: string)
    ensures workingTitle.Some? && Strip(workingTitle.value) != "" ==>
      WorkingTitle(workingTitle, exportPath) == WorkingTitle(workingTitle, otherPath) == Strip(workingTitle.value)
    ensures (workingTitle.None? || Strip(workingTitle.value) == "") && PathStem(exportPath) != "" ==>
      WorkingTitle(workingTitle, exportPath) == PathStem(exportPath)
    ensures (workingTitle.None? || Strip(workingTitle.value) == "") && PathStem(exportPath) == "" ==>
      WorkingTitle(workingTitle, exportPath) == DEFAULT_TITLE
    ensures PathName(exportPath) != "" ==> CurveDataName(exportPath) == PathName(exportPath)
    ensures PathName(exportPath) == "" ==> CurveDataName(exportPath) == DEFAULT_CURVE_NAME
  {
    if PathStem(exportPath) != "" {
      assert exportPath != "";
    }
    if PathName(exportPath) != "" {
      assert exportPath != "";
    }
  }

  // ---------------------------------------------------------------------
  // The magnitude unit

  /** `unit_map.get(code)`: upper-cased `SENS:UNIT` spellings to the unit
      shown. */
  function UnitMapGet(code: string): (r: Option<string>)
    ensures r.Some? ==> r.value != ""
    ensures code == "" ==> r.None?
  {
    if code == "DBR" then Some("dBr")
    else if code == "DBV" then Some("dBV")
    else if code == "DBU" then Some("dBu")
    else if code == "DBM" then Some("dBm")
    else if code == "V" then Some("V")
    else if code == "MV" then Some("mV")
    else if code in {"UV", "UVR", "UV RMS", "UVRMS"} then Some("μV")
    else if code in {"PCT", "%"} then Some("%")
    else None
  }

  const DEFAULT_UNIT := "dBV"

  /** `SPL` for any spelling of `spl`, the token itself otherwise. */
  function SplToken(t: string): (r: string)
    ensures Lower(t) == "spl" ==> r == "SPL"
    ensures Lower(t) != "spl" ==> r == t
    ensures Word(t) ==> Word(r)
  {
    if Lower(t) == "spl" then
      assert Upper(t) == "SPL" by { assert Lower(t)[0] == 's' && Lower(t)[1] == 'p' && Lower(t)[2] == 'l'; }
      Upper(t)
    else t
  }

  function SplTokens(ts: seq<string>): (rs: seq<string>)
    ensures |rs| == |ts|
    ensures forall i :: 0 <= i < |ts| ==> rs[i] == SplToken(ts[i])
  {
    seq(|ts|, i requires 0 <= i < |ts| => SplToken(ts[i]))
  }

  /** The user unit with surrounding whitespace, then double quotes, then
      single quotes removed. */
  function Unquoted(s: string): string {
    Trim(Trim(Strip(s), IsQuote), IsApostrophe)
  }

  /** The `db…` branch: `dB`, then the words after the first two characters
      one space apart, `spl` upper-cased. */
  function DbUnit(rest: string): (r: string)
    ensures |r| >= 2 && r[..2] == "dB" && (|r| == 2 || r[2] == ' ')
    ensures Split(r[2..]) == SplTokens(Split(rest))
  {
    var tokens := SplTokens(Split(rest));
    assert forall i :: 0 <= i < |tokens| ==> Word(tokens[i]);
    SplitJoin(tokens);
    if tokens != [] then
      var r := "dB" + ([' '] + Join(" ", tokens));
      assert r[..2] == "dB" && r[2..] == [' '] + Join(" ", tokens);
      SplitSpace(' ', Join(" ", tokens));
      r
    else "dB"
  }

  /** `_sanitize_user_unit`: a unit spelled `db…` in any case becomes `dB`
      and its words; any other unit is kept unquoted. */
  function SanitizeUserUnit(s: string): (r: string)
    ensures r == "" <==> Unquoted(s) == ""
    ensures !StartsWith(Lower(Unquoted(s)), "db") ==> r == Unquoted(s)
    ensures StartsWith(Lower(Unquoted(s)), "db") ==> r == DbUnit(LStrip(Unquoted(s)[2..]))
  {
    var s2 := Unquoted(s);
    if StartsWith(Lower(s2), "db") then DbUnit(LStrip(s2[2..])) else s2
  }

  /** A standard unit: its canonical spelling when the table knows it
      upper-cased, else the stripped text. */
  function StandardUnit(raw: string): (r: string)
    ensures UnitMapGet(Upper(Strip(raw))).Some? ==> r == UnitMapGet(Upper(Strip(raw))).value
    ensures UnitMapGet(Upper(Strip(raw))).None? ==> r == Strip(raw)
    ensures r == "" <==> Strip(raw) == ""
  {
    match UnitMapGet(Upper(Strip(raw))) case Some(u) => u case None => Strip(raw)
  }

  /** Python truth of a decoded value: a non-empty string or object. */
  predicate Truthy(v: Option<Value>) {
    match v
    case None => false
    case Some(Leaf(t)) => t != ""
    case Some(Group(f)) => |f.keys| > 0
  }

  /** `settings_data.get('SENS:UNIT') or settings_data.get('SENS1:UNIT')`. */
  function StandardRaw(d: Doc): (r: Option<Value>)
    requires d.Shaped()
    ensures Truthy(d.Get("SENS:UNIT")) ==> r == d.Get("SENS:UNIT")
    ensures !Truthy(d.Get("SENS:UNIT")) ==> r == d.Get("SENS1:UNIT")
  {
    if Truthy(d.Get("SENS:UNIT")) then d.Get("SENS:UNIT") else d.Get("SENS1:UNIT")
  }

  /** The user unit that takes priority: a string that is not blank and
      survives sanitising. */
  function UserUnit(user: Option<Value>): (r: Option<string>)
    ensures r.Some? <==> user.Some? && user.value.Leaf? && Unquoted(user.value.text) != ""
    ensures r.Some? ==> r.value == SanitizeUserUnit(user.value.text) != ""
  {
    match user
    case Some(Leaf(u)) =>
      if Strip(u) != "" && SanitizeUserUnit(u) != "" then Some(SanitizeUserUnit(u)) else None
    case _ => None
  }

  /** `y_unit_display` as written: from the settings file (`None` when it is
      missing or cannot be read), the user unit, else a standard unit given
      as a string, however blank, else `dBV`. */
  function YUnitAsWritten(settings: Option<Doc>): string
    requires settings.Some? ==> settings.value.Shaped()
  {
    match settings
    case None => DEFAULT_UNIT
    case Some(d) =>
      match UserUnit(d.Get("SENS:USER"))
      case Some(u) => u
      case None =>
        match StandardRaw(d) case Some(Leaf(t)) => StandardUnit(t) case _ => DEFAULT_UNIT
  }

  /** A settings file whose standard unit is a single space. */
  function BlankUnitFile(): (d: Doc)
    ensures d.Shaped() && Truthy(d.Get("SENS:UNIT")) && d.Get("SENS:USER").None?
  {
    Dict(["SENS:UNIT"], [Leaf(" ")])
  }

  /** As written, a blank standard unit is shown and exported as an empty
      unit instead of falling back to `dBV`. */
  lemma BlankUnitAsWritten()
    ensures YUnitAsWritten(Some(BlankUnitFile())) == ""
  {
    var d := BlankUnitFile();
    assert StandardRaw(d) == Some(Leaf(" "));
    assert Strip(" ") == "" by { assert IsSpace(' '); }
  }

  /** `y_unit_display` with a blank standard unit treated as absent, so
      that the `dBV` fallback covers it. */
  function YUnit(settings: Option<Doc>): (r: string)
    requires settings.Some? ==> settings.value.Shaped()
    ensures r != ""
  {
    match settings
    case None => DEFAULT_UNIT
    case Some(d) =>
      match UserUnit(d.Get("SENS:USER"))
      case Some(u) => u
      case None =>
        match StandardRaw(d)
        case Some(Leaf(t)) => if Strip(t) != "" then StandardUnit(t) else DEFAULT_UNIT
        case _ => DEFAULT_UNIT
  }

  /** The correction changes nothing but the empty unit. */
  lemma YUnitCorrects(settings: Option<Doc>)
    requires settings.Some? ==> settings.value.Shaped()
    ensures YUnitAsWritten(settings) != "" ==> YUnit(settings) == YUnitAsWritten(settings)
    ensures YUnitAsWritten(settings) == "" ==> YUnit(settings) == DEFAULT_UNIT
  {
  }

  /** A user unit that survives sanitising wins over any standard unit. */
  lemma UserUnitWins(d: Doc, std: Value)
    requires d.Valid() && UserUnit(d.Get("SENS:USER")).Some?
    ensures YUnit(Some(d)) == SanitizeUserUnit(d.Get("SENS:USER").value.text)
    ensures YUnit(Some(d.Put("SENS:UNIT", std))) == YUnit(Some(d))
  {
    assert d.Put("SENS:UNIT", std).Get("SENS:USER") == d.Get("SENS:USER");
  }

  /** Without a user unit, a non-blank standard unit is shown in its
      canonical spelling, `SENS:UNIT` before `SENS1:UNIT`. */
  lemma StandardUnitNext(d: Doc)
    requires d.Shaped() && UserUnit(d.Get("SENS:USER")).None?
    requires StandardRaw(d).Some? && StandardRaw(d).value.Leaf? && Strip(StandardRaw(d).value.text) != ""
    ensures YUnit(Some(d)) == StandardUnit(StandardRaw(d).value.text)
  {
  }

  /** A file with neither unit falls back to `dBV`. */
  lemma DefaultUnitLast(d: Doc)
    requires d.Shaped() && UserUnit(d.Get("SENS:USER")).None?
    requires StandardRaw(d).Some? && StandardRaw(d).value.Leaf? ==> Strip(StandardRaw(d).value.text) == ""
    ensures YUnit(Some(d)) == DEFAULT_UNIT
  {
  }

  /** No user unit reads as the fallback: sanitising never gives `dBV`. */
  lemma UserUnitNotDefault(s: string)
    ensures SanitizeUserUnit(s) != DEFAULT_UNIT
  {
    var s2 := Unquoted(s);
    if StartsWith(Lower(s2), "db") {
      var d := DbUnit(LStrip(s2[2..]));
      assert d != DEFAULT_UNIT by {
        if |d| == 3 {
          assert d[2] == ' ';
        }
      }
    } else {
      DefaultIsDb();
    }
  }

  lemma DefaultIsDb()
    ensures StartsWith(Lower(DEFAULT_UNIT), "db")
  {
    assert Lower(DEFAULT_UNIT)[0] == 'd' && Lower(DEFAULT_UNIT)[1] == 'b';
  }

  /** The `unit` attribute of the magnitude curve: the unit without spaces. */
  function HxmlUnit(unit: string): (r: string)
    ensures forall i :: 0 <= i < |r| ==> r[i] != ' '
    ensures ' ' !in unit ==> r == unit
  {
    ReplaceChar(unit, ' ', "")
  }

  // ---------------------------------------------------------------------
  // The exported file

  /** The parts of the `.hxml` file that vary: the escaped attributes, the
      measurement date and the two curves. */
  datatype Hxml = Hxml(workingTitle: string, curveDataName: string, measurementDate: string,
                       magnitudeUnit: string, frequency: seq<real>, magnitude: seq<real>)

  /** Everything `fetch_and_plot_trace` writes for arrays `x` and `y`, or
      `None` for the `ValueError` raised before the file is opened. */
  function Export(x: seq<real>, y: seq<real>, exportPath: string, workingTitle: Option<string>,
                  settings: Option<Doc>, now: string): (r: Option<Hxml>)
    requires settings.Some? ==> settings.value.Shaped()
    ensures r.None? <==> |x| != |y| || |x| == 0
    ensures r.Some? ==> r.value.frequency == x && r.value.magnitude == y && |x| > 0
    ensures r.Some? ==> Unescape(r.value.workingTitle) == WorkingTitle(workingTitle, exportPath)
    ensures r.Some? ==> Unescape(r.value.curveDataName) == CurveDataName(exportPath)
    ensures r.Some? ==> forall i :: 0 <= i < |r.value.workingTitle| ==> !Markup(r.value.workingTitle[i])
    ensures r.Some? ==> forall i :: 0 <= i < |r.value.curveDataName| ==> !Markup(r.value.curveDataName[i])
    ensures r.Some? ==> r.value.magnitudeUnit == HxmlUnit(YUnitAsWritten(settings))
    ensures r.Some? ==> r.value.workingTitle == EscapeEach(WorkingTitle(workingTitle, exportPath))
    ensures r.Some? ==> r.value.curveDataName == EscapeEach(CurveDataName(exportPath))
    ensures r.Some? ==> r.value.measurementDate == now
  {
    if |x| != |y| || |x| == 0 then None
    else
      XmlEscapeIsEach(WorkingTitle(workingTitle, exportPath));
      XmlEscapeIsEach(CurveDataName(exportPath));
      UnescapeEscape(WorkingTitle(workingTitle, exportPath));
      UnescapeEscape(CurveDataName(exportPath));
      XmlEscapeSafe(WorkingTitle(workingTitle, exportPath));
      XmlEscapeSafe(CurveDataName(exportPath));
      Some(Hxml(XmlEscape(WorkingTitle(workingTitle, exportPath)), XmlEscape(CurveDataName(exportPath)), now,
                HxmlUnit(YUnitAsWritten(settings)), x, y))
  }

  /** As written, the export of a file whose standard unit is one space
      carries an empty `unit` attribute on its magnitude curve. */
  lemma BlankUnitExported(x: seq<real>, y: seq<real>, exportPath: string, workingTitle: Option<string>, now: string)
    requires |x| == |y| && |x| > 0
    ensures Export(x, y, exportPath, workingTitle, Some(BlankUnitFile()), now).Some?
    ensures Export(x, y, exportPath, workingTitle, Some(BlankUnitFile()), now).value.magnitudeUnit == ""
  {
    BlankUnitAsWritten();
  }

  const X_QUERY := "TRAC:SWE1:LOAD:AX?"
  const Y_QUERY := "TRAC:SWE1:LOAD:AY?"

  /** `fetch_and_plot_trace(upv, export_path, working_title)`: the two
      trace queries, parsed by `parse` (`np.fromstring`), then the export.
      `None` is the failure it prints: a query that raised or invalid
      arrays. The clock reading is `now`. */
  method FetchTrace(upv: Instrument, parse: string -> seq<real>, exportPath: string,
                    workingTitle: Option<string>, settings: Option<Doc>, now: string) returns (file: Option<Hxml>)
    requires settings.Some? ==> settings.value.Shaped()
    modifies upv
    ensures upv.written == old(upv.written)
    ensures var ax := upv.answer(|old(upv.queried)|, X_QUERY);
      upv.queried == old(upv.queried) + (if ax.Some? then [X_QUERY, Y_QUERY] else [X_QUERY])
    ensures var ax, ay := upv.answer(|old(upv.queried)|, X_QUERY), upv.answer(|old(upv.queried)| + 1, Y_QUERY);
      file == (if ax.Some? && ay.Some? then Export(parse(ax.value), parse(ay.value), exportPath, workingTitle, settings, now) else None)
  {
    file := None;
    var xRaw := upv.Query(X_QUERY);
    if xRaw.Some? {
      var yRaw := upv.Query(Y_QUERY);
      if yRaw.Some? {
        file := Export(parse(xRaw.value), parse(yRaw.value), exportPath, workingTitle, settings, now);
      }
    }
  }
}
