/**
 * export_letterhead/utils.py: parameter lookup, settings retrieval, render
 * context building, and splitting the rendered letterhead template into rows.
 */
module Utils {
  import opened Wrappers
  import opened Text
  import opened PyValue
  import opened Fonts

  // ---------------------------------------------------------------------
  // _safe_get_value

  /**
   * `_safe_get_value(source, *keys)`: `None` for a falsy source, otherwise
   * the stripped value of the first key whose stripped value is neither
   * `None` nor `""`, and `None` when no key qualifies.
   */
  function SafeGetValue(source: Source, keys: seq<string>): (r: Value)
    ensures SourceFalsy(source) ==> r == VNone
    ensures r == VNone || Present(r)
    ensures r.VStr? ==> Trimmed(r.s) && r.s != ""
  {
    if SourceFalsy(source) then VNone
    else FirstPresent(source.value, keys).GetOr(VNone)
  }

  /** `_safe_get_value` yields `None` exactly when the source is falsy or no key qualifies. */
  lemma SafeGetValueNone(source: Source, keys: seq<string>)
    ensures SafeGetValue(source, keys) == VNone <==>
            SourceFalsy(source) ||
            forall i :: 0 <= i < |keys| ==> !Present(StrippedAt(source.value, keys[i]))
  {
    if !SourceFalsy(source) {
      FirstPresentNone(source.value, keys);
    }
  }

  /** Otherwise it yields the stripped value of the first key that qualifies. */
  lemma SafeGetValueFirst(source: Source, keys: seq<string>) returns (k: nat)
    requires SafeGetValue(source, keys) != VNone
    ensures !SourceFalsy(source) && k < |keys|
    ensures SafeGetValue(source, keys) == StrippedAt(source.value, keys[k])
    ensures forall j :: 0 <= j < k ==> !Present(StrippedAt(source.value, keys[j]))
  {
    k := FirstPresentFirst(source.value, keys);
  }

  // ---------------------------------------------------------------------
  // _get_settings

  /** The stored "Export Letterhead Settings" record, as read from its fields. */
  datatype RawSettings = RawSettings(
    enabled: bool,
    letterheadTemplate: string,
    fontName: string,
    fontSize: Value,
    addPrintedBy: bool)

  /** The dictionary `_get_settings` returns. */
  datatype Settings = Settings(
    enabled: bool,
    letterheadTemplate: string,
    fontName: string,
    fontSize: int,
    addPrintedBy: bool)

  /**
   * `_get_settings()`: `record` is the result of fetching the single
   * settings document, `None` when the fetch raises.
   */
  function GetSettings(record: Option<RawSettings>): (s: Option<Settings>)
    ensures s.None? <==> record.None?
    ensures s.Some? ==>
              && s.value.enabled == record.value.enabled
              && s.value.letterheadTemplate == record.value.letterheadTemplate
              && s.value.addPrintedBy == record.value.addPrintedBy
              && ValidFontName(s.value.fontName)
              && (Strip(KeepFontChars(record.value.fontName)) != "" ==>
                    s.value.fontName == Strip(KeepFontChars(record.value.fontName)))
              && (Strip(KeepFontChars(record.value.fontName)) == "" ==> s.value.fontName == DefaultFontName)
              && s.value.fontName == SanitizeFontName(record.value.fontName)
              && s.value.fontSize == CoerceFontSize(record.value.fontSize)
  {
    match record
    case None => None
    case Some(raw) =>
      SanitizeFontNameChar(raw.fontName);
      Some(Settings(
        raw.enabled,
        raw.letterheadTemplate,
        SanitizeFontName(raw.fontName),
        CoerceFontSize(raw.fontSize),
        raw.addPrintedBy))
  }

  /** `settings and settings.get("enabled")`. */
  predicate Enabled(settings: Option<Settings>) {
    settings.Some? && settings.value.enabled
  }

  // ---------------------------------------------------------------------
  // _build_context

  /** The logged-in user as the session reports it; an empty full name stands for `None`. */
  datatype Session = Session(user: string, userFullname: string)

  /** One reading of `now_datetime()`, with its date and time parts as text. */
  datatype Clock = Clock(now: string, date: string, time: string)

  /**
   * The host services the context is built from. `companyDefault` is the
   * result of `frappe.defaults.get_user_default("company")`: `None` when the
   * lookup raises, `Some("")` when it returns nothing.
   */
  datatype Env = Env(
    session: Session,
    clock: Clock,
    companyDefault: Option<string>,
    formDict: Source)

  /** The template context dictionary (the `frappe` module handle is left out). */
  type Context = map<string, Value>

  const DoctypeKeys: seq<string> := ["doctype", "ref_doctype", "data_doctype"]
  const ReportNameKeys: seq<string> := ["report_name", "report", "title"]
  const ContextKeys: set<string> :=
    {"user_fullname", "doctype", "report_name", "company", "now", "date", "time"}

  /** `frappe.session.user_fullname or frappe.session.user`. */
  function SessionName(session: Session): (name: string)
    ensures session.userFullname != "" ==> name == session.userFullname
    ensures session.userFullname == "" ==> name == session.user
  {
    if session.userFullname != "" then session.userFullname else session.user
  }

  /** `get_user_default("company") or ""`, with `""` when the lookup raises. */
  function CompanyOrBlank(env: Env): (company: string)
    ensures env.companyDefault.None? ==> company == ""
    ensures env.companyDefault.Some? ==> company == env.companyDefault.value
  {
    match env.companyDefault
    case Some(c) => c
    case None => ""
  }

  function FormDoctype(env: Env): Value {
    SafeGetValue(env.formDict, DoctypeKeys)
  }

  function FormReportName(env: Env): Value {
    SafeGetValue(env.formDict, ReportNameKeys)
  }

  /**
   * `_build_context(args, {"doctype": doctype, "report_name": reportName})`.
   * The explicit values win when truthy, then the request's form values;
   * a context that knows only one of the two names copies it into the other.
   */
  function BuildContext(doctype: Value, reportName: Value, env: Env): (ctx: Context)
    ensures ctx.Keys == ContextKeys
    ensures ctx["user_fullname"] == VStr(SessionName(env.session))
    ensures ctx["company"] == VStr(CompanyOrBlank(env))
    ensures ctx["now"] == VStr(env.clock.now)
    ensures ctx["date"] == VStr(env.clock.date) && ctx["time"] == VStr(env.clock.time)
  {
    var c0: Context := map["user_fullname" := VStr(SessionName(env.session))];
    var c1 := if Truthy(doctype) then c0["doctype" := doctype] else c0;
    var c2 := if Truthy(reportName) then c1["report_name" := reportName] else c1;
    var c3 := if !Truthy(Get(c2, "doctype")) then c2["doctype" := FormDoctype(env)] else c2;
    var c4 := if !Truthy(Get(c3, "report_name")) then c3["report_name" := FormReportName(env)] else c3;
    var c5 :=
      if Truthy(c4["report_name"]) && !Truthy(c4["doctype"]) then c4["doctype" := c4["report_name"]]
      else if Truthy(c4["doctype"]) && !Truthy(c4["report_name"]) then c4["report_name" := c4["doctype"]]
      else c4;
    c5["company" := VStr(CompanyOrBlank(env))]
      ["now" := VStr(env.clock.now)]["date" := VStr(env.clock.date)]["time" := VStr(env.clock.time)]
  }

  /**
   * The two names of a built context: the explicit value when truthy, then
   * the request's form value, then the other name's explicit and form values.
   */
  lemma BuildContextNames(doctype: Value, reportName: Value, env: Env)
    ensures var ctx := BuildContext(doctype, reportName, env);
            && ctx["doctype"] ==
               FirstTruthy([doctype, FormDoctype(env), reportName, FormReportName(env)], FormDoctype(env))
            && ctx["report_name"] ==
               FirstTruthy([reportName, FormReportName(env), doctype, FormDoctype(env)], FormReportName(env))
  {
    FirstTruthyOfFour(doctype, FormDoctype(env), reportName, FormReportName(env), FormDoctype(env));
    FirstTruthyOfFour(reportName, FormReportName(env), doctype, FormDoctype(env), FormReportName(env));
  }

  lemma FirstTruthyOfFour(a: Value, b: Value, c: Value, d: Value, fallback: Value)
    ensures FirstTruthy([a, b, c, d], fallback) ==
            if Truthy(a) then a else if Truthy(b) then b else if Truthy(c) then c
            else if Truthy(d) then d else fallback
  {
    assert [a, b, c, d][1..] == [b, c, d];
    assert [b, c, d][1..] == [c, d];
    assert [c, d][1..] == [d];
    assert [d][1..] == [];
    assert FirstTruthy([d], fallback) == if Truthy(d) then d else FirstTruthy([], fallback);
    assert FirstTruthy([c, d], fallback) == if Truthy(c) then c else FirstTruthy([d], fallback);
    assert FirstTruthy([b, c, d], fallback) == if Truthy(b) then b else FirstTruthy([c, d], fallback);
  }

  /** After building, either both names are known or neither is. */
  lemma BuildContextNamesTogether(doctype: Value, reportName: Value, env: Env)
    ensures var ctx := BuildContext(doctype, reportName, env);
            Truthy(ctx["doctype"]) <==> Truthy(ctx["report_name"])
  {
    BuildContextNames(doctype, reportName, env);
    var fd, fr := FormDoctype(env), FormReportName(env);
    FirstTruthyOfFour(doctype, fd, reportName, fr, fd);
    FirstTruthyOfFour(reportName, fr, doctype, fd, fr);
  }

  /** Given only `report_name = "Sales Report"` and no form values, the doctype becomes "Sales Report". */
  lemma BuildContextCrossFillExample(env: Env, report: string)
    requires env.formDict.None? && report == "Sales Report"
    ensures BuildContext(VNone, VStr(report), env)["doctype"] == VStr(report)
  {
  }

  // ---------------------------------------------------------------------
  // _generate_letterhead_rows

  type Row = seq<string>
  type Rows = seq<Row>

  /** `_render_template`: the template engine, which never raises. */
  type Renderer = (string, Context) -> string

  /** Python's `str(v)` as used inside an f-string. */
  function PyStr(v: Value): string {
    match v
    case VNone => "None"
    case VStr(s) => s
    case VInt(i) => IntToString(i)
    case VBool(b) => if b then "True" else "False"
  }

  /**
   * The context update of `_generate_letterhead_rows`: a missing report name
   * falls back to the doctype, then the user, clock and company entries are
   * always overwritten. The company lookup is not guarded here, so its
   * failure propagates.
   */
  function RefreshContext(ctx: Context, env: Env): (r: Result<Context>)
    ensures r.Err? <==> env.companyDefault.None?
  {
    var c1 :=
      if !Truthy(Get(ctx, "report_name")) && Truthy(Get(ctx, "doctype")) then ctx["report_name" := ctx["doctype"]]
      else ctx;
    match env.companyDefault
    case None => Err("company default lookup failed")
    case Some(company) =>
      Ok(c1["user_fullname" := VStr(SessionName(env.session))]
        ["now" := VStr(env.clock.now)]["date" := VStr(env.clock.date)]["time" := VStr(env.clock.time)]
        ["company" := VStr(company)])
  }

  /** The entries `_generate_letterhead_rows` always overwrites. */
  const RefreshedKeys: set<string> := {"user_fullname", "now", "date", "time", "company"}

  /**
   * After the update the context holds the user, the clock and the company;
   * a truthy report name is kept, a missing one is filled from a truthy
   * doctype, and every other entry is left as it was.
   */
  lemma RefreshContextFacts(ctx: Context, env: Env)
    requires env.companyDefault.Some?
    ensures var r := RefreshContext(ctx, env).value;
            && r.Keys == ctx.Keys + RefreshedKeys +
                         (if !Truthy(Get(ctx, "report_name")) && Truthy(Get(ctx, "doctype")) then {"report_name"} else {})
            && r["user_fullname"] == VStr(SessionName(env.session))
            && r["company"] == VStr(env.companyDefault.value)
            && r["now"] == VStr(env.clock.now)
            && r["date"] == VStr(env.clock.date)
            && r["time"] == VStr(env.clock.time)
            && (Truthy(Get(ctx, "report_name")) ==> r["report_name"] == ctx["report_name"])
            && (!Truthy(Get(ctx, "report_name")) && Truthy(Get(ctx, "doctype")) ==> r["report_name"] == ctx["doctype"])
            && (Truthy(Get(r, "report_name")) <==> Truthy(Get(ctx, "report_name")) || Truthy(Get(ctx, "doctype")))
            && (forall k :: k in ctx && k !in RefreshedKeys && k != "report_name" ==> r[k] == ctx[k])
  {
  }

  /** `not line.strip()`: the line is only whitespace. */
  predicate Blank(line: string) {
    Strip(line) == ""
  }

  /** A separator absent from a string is absent from its stripped form. */
  lemma StripWithout(s: string, d: char)
    requires d !in s
    ensures d !in Strip(s)
  {
    var a, c := StripDecompose(s);
    assert forall i :: 0 <= i < |Strip(s)| ==> Strip(s)[i] == s[|a| + i];
  }

  /**
   * The cells of one template line: split on tab when the line has a tab,
   * else on pipe with every cell stripped, else the whole line.
   */
  function ParseLine(line: string): (cells: Row)
    ensures |cells| >= 1
  {
    if '\t' in line then Split(line, '\t')
    else if '|' in line then
      var parts := Split(line, '|');
      seq(|parts|, i requires 0 <= i < |parts| => Strip(parts[i]))
    else [line]
  }

  /**
   * Tab takes precedence and keeps the cells as they are; a pipe line gives
   * one cell per pipe-separated piece, holding that piece stripped; a line
   * without either separator is a single cell. `pieces` are the pieces the
   * line was split into.
   */
  lemma ParseLineCells(line: string) returns (pieces: seq<string>)
    ensures var cells := ParseLine(line);
            && ('\t' in line ==>
                  && cells == pieces && Join(pieces, '\t') == line
                  && forall i :: 0 <= i < |pieces| ==> '\t' !in pieces[i])
            && ('\t' !in line && '|' in line ==>
                  && Join(pieces, '|') == line
                  && (forall i :: 0 <= i < |pieces| ==> '|' !in pieces[i])
                  && |cells| == |pieces| == Count(line, '|') + 1
                  && forall i :: 0 <= i < |cells| ==> cells[i] == Strip(pieces[i]) && '|' !in cells[i])
            && ('\t' !in line && '|' !in line ==> cells == [line])
  {
    if '\t' in line {
      pieces := Split(line, '\t');
      SplitJoin(line, '\t');
      SplitPiecesFree(line, '\t');
    } else if '|' in line {
      pieces := Split(line, '|');
      SplitJoin(line, '|');
      SplitPiecesFree(line, '|');
      forall i | 0 <= i < |pieces| ensures '|' !in Strip(pieces[i]) {
        StripWithout(pieces[i], '|');
      }
    } else {
      pieces := [line];
    }
  }

  /** The row of one line: none for a blank line, else its cells. */
  function LineRows(line: string): (rows: Rows)
    ensures rows == [] <==> Blank(line)
    ensures |rows| <= 1 && forall r :: 0 <= r < |rows| ==> |rows[r]| >= 1
  {
    if Blank(line) then [] else [ParseLine(line)]
  }

  /** The rows `rowsOf` gives for each line, concatenated in order. */
  function RowsOfEach(rowsOf: string -> Rows, lines: seq<string>): Rows
    decreases |lines|
  {
    if lines == [] then [] else rowsOf(lines[0]) + RowsOfEach(rowsOf, lines[1..])
  }

  lemma {:induction false} RowsOfEachAppend(rowsOf: string -> Rows, lines: seq<string>, line: string)
    ensures RowsOfEach(rowsOf, lines + [line]) == RowsOfEach(rowsOf, lines) + rowsOf(line)
    decreases |lines|
  {
    if lines == [] {
      assert [] + [line] == [line];
      assert RowsOfEach(rowsOf, [line]) == rowsOf(line) + RowsOfEach(rowsOf, []);
    } else {
      assert (lines + [line])[1..] == lines[1..] + [line];
      RowsOfEachAppend(rowsOf, lines[1..], line);
    }
  }

  /** The rows of the non-blank lines, in order. */
  function ParseLines(lines: seq<string>): Rows {
    RowsOfEach(LineRows, lines)
  }

  /** There is at most one row per line, and no row is empty. */
  lemma {:induction false} ParseLinesShape(lines: seq<string>)
    ensures |ParseLines(lines)| <= |lines|
    ensures forall r :: 0 <= r < |ParseLines(lines)| ==> |ParseLines(lines)[r]| >= 1
    decreases |lines|
  {
    if lines != [] {
      ParseLinesShape(lines[1..]);
    }
  }

  /** One more line extends the rows of a prefix by that line's row, if any. */
  lemma ParseLinesPrefix(lines: seq<string>, i: nat)
    requires i < |lines|
    ensures ParseLines(lines[..i + 1]) == ParseLines(lines[..i]) + LineRows(lines[i])
  {
    assert lines[..i + 1] == lines[..i] + [lines[i]];
    RowsOfEachAppend(LineRows, lines[..i], lines[i]);
  }

  /** The split of the rendered template into rows, before the trailing rows are added. */
  function TemplateRows(rendered: string): (rows: Rows)
    ensures |rows| <= Count(rendered, '\n') + 1
    ensures forall r :: 0 <= r < |rows| ==> |rows[r]| >= 1
  {
    ParseLinesShape(Split(rendered, '\n'));
    ParseLines(Split(rendered, '\n'))
  }

  /** `["Printed by: …", "Date: …", "Time: …"]`, formatted from the context. */
  function PrintedByRow(ctx: Context): (row: Row)
    ensures |row| == 3
    ensures |row[0]| >= 12 && row[0][..12] == "Printed by: "
    ensures |row[1]| >= 6 && row[1][..6] == "Date: "
    ensures |row[2]| >= 6 && row[2][..6] == "Time: "
  {
    ["Printed by: " + PyStr(Get(ctx, "user_fullname")),
     "Date: " + PyStr(Get(ctx, "date")),
     "Time: " + PyStr(Get(ctx, "time"))]
  }

  /** The template rows, the optional "Printed by" row, and a `[""]` separator when anything precedes it. */
  function WithTrailer(base: Rows, printed: Option<Row>): (rows: Rows)
    ensures |rows| == |base| + (if printed.Some? then 1 else 0)
                      + (if |base| + (if printed.Some? then 1 else 0) > 0 then 1 else 0)
    ensures rows[..|base|] == base
    ensures printed.Some? ==> rows[|base|] == printed.value
    ensures rows != [] ==> rows[|rows| - 1] == [""]
  {
    var withPrinted := if printed.Some? then base + [printed.value] else base;
    if withPrinted != [] then withPrinted + [[""]] else withPrinted
  }

  /**
   * What `_generate_letterhead_rows(settings, ctx)` returns: no rows when the
   * settings are missing or disabled or the template is empty; otherwise the
   * rows of the template rendered against the refreshed context.
   */
  function LetterheadRows(settings: Option<Settings>, ctx: Context, env: Env, render: Renderer): (r: Result<Rows>)
    ensures !Enabled(settings) || settings.value.letterheadTemplate == "" ==> r == Ok([])
    ensures r.Err? ==> env.companyDefault.None?
    ensures r.Ok? && r.value != [] ==> r.value[|r.value| - 1] == [""]
  {
    if !Enabled(settings) || settings.value.letterheadTemplate == "" then Ok([])
    else
      match RefreshContext(ctx, env)
      case Err(e) => Err(e)
      case Ok(c) =>
        var base := TemplateRows(render(settings.value.letterheadTemplate, c));
        Ok(WithTrailer(base, if settings.value.addPrintedBy then Some(PrintedByRow(c)) else None))
  }

  /** The row count of an enabled letterhead: template rows, the "Printed by" row, the separator. */
  lemma LetterheadRowsCount(settings: Settings, ctx: Context, env: Env, render: Renderer)
    requires settings.enabled && settings.letterheadTemplate != "" && env.companyDefault.Some?
    ensures var c := RefreshContext(ctx, env).value;
            var base := |TemplateRows(render(settings.letterheadTemplate, c))|;
            var p := if settings.addPrintedBy then 1 else 0;
            var r := LetterheadRows(Some(settings), ctx, env, render);
            r.Ok? && |r.value| == base + p + (if base + p > 0 then 1 else 0)
  {
  }

  /** The "Printed by" row for the session user and the clock reading. */
  function PrintedRow(env: Env): Row {
    ["Printed by: " + SessionName(env.session), "Date: " + env.clock.date, "Time: " + env.clock.time]
  }

  /**
   * With "Printed by" on, the rows are the template rows, then the row
   * naming the session user, the date and the time, then the separator.
   */
  lemma LetterheadPrintedBy(settings: Settings, ctx: Context, env: Env, render: Renderer)
    requires settings.enabled && settings.letterheadTemplate != "" && env.companyDefault.Some?
    requires settings.addPrintedBy
    ensures var c := RefreshContext(ctx, env).value;
            var base := TemplateRows(render(settings.letterheadTemplate, c));
            LetterheadRows(Some(settings), ctx, env, render) == Ok(base + [PrintedRow(env)] + [[""]])
  {
    var c := RefreshContext(ctx, env).value;
    RefreshContextFacts(ctx, env);
    assert PrintedByRow(c) == PrintedRow(env);
  }

  /**
   * With "Printed by" off, the rows are the template rows and then the
   * separator, or nothing at all when the template gives no rows.
   */
  lemma LetterheadNoPrintedBy(settings: Settings, ctx: Context, env: Env, render: Renderer)
    requires settings.enabled && settings.letterheadTemplate != "" && env.companyDefault.Some?
    requires !settings.addPrintedBy
    ensures var c := RefreshContext(ctx, env).value;
            var base := TemplateRows(render(settings.letterheadTemplate, c));
            LetterheadRows(Some(settings), ctx, env, render) == Ok(if base == [] then [] else base + [[""]])
  {
  }

  // A worked splitting example, with its strings pinned by `requires`
  // so that the verifier does not evaluate the string functions on literals.

  lemma LinesOfExample(rendered: string, l1: string, l2: string, l3: string)
    requires rendered == "A\tB\nC|D\nE" && l1 == "A\tB" && l2 == "C|D" && l3 == "E"
    ensures Split(rendered, '\n') == [l1, l2, l3]
  {
    var parts := [l1, l2, l3];
    assert parts[1..] == [l2, l3];
    assert [l2, l3][1..] == [l3];
    assert Join([l3], '\n') == l3;
    assert Join([l2, l3], '\n') == l2 + ['\n'] + l3;
    assert Join(parts, '\n') == l1 + ['\n'] + (l2 + ['\n'] + l3);
    assert Join(parts, '\n') == rendered;
    JoinSplit(parts, '\n');
  }

  lemma TabLineExample(line: string, a: string, b: string)
    requires line == "A\tB" && a == "A" && b == "B"
    ensures !Blank(line) && ParseLine(line) == [a, b]
  {
    assert line[0] == 'A';
    assert Join([a, b], '\t') == line;
    JoinSplit([a, b], '\t');
  }

  lemma PipeLineExample(line: string, c: string, d: string)
    requires line == "C|D" && c == "C" && d == "D"
    ensures !Blank(line) && ParseLine(line) == [c, d]
  {
    assert line[0] == 'C';
    assert '\t' !in line;
    assert Join([c, d], '|') == line;
    JoinSplit([c, d], '|');
    StripTrimmed(c);
    StripTrimmed(d);
  }

  lemma PlainLineExample(line: string)
    requires line == "E"
    ensures !Blank(line) && ParseLine(line) == [line]
  {
    assert line[0] == 'E';
  }

  lemma RowsOfEachThree(rowsOf: string -> Rows, x: string, y: string, z: string)
    ensures RowsOfEach(rowsOf, [x, y, z]) == rowsOf(x) + rowsOf(y) + rowsOf(z)
  {
    assert [x, y, z][1..] == [y, z];
    assert [y, z][1..] == [z];
    assert [z][1..] == [];
    assert RowsOfEach(rowsOf, [z]) == rowsOf(z) + RowsOfEach(rowsOf, []);
    assert RowsOfEach(rowsOf, [y, z]) == rowsOf(y) + RowsOfEach(rowsOf, [z]);
    assert RowsOfEach(rowsOf, [x, y, z]) == rowsOf(x) + RowsOfEach(rowsOf, [y, z]);
  }

  lemma ParseThreeLines(x: string, y: string, z: string)
    requires !Blank(x) && !Blank(y) && !Blank(z)
    ensures ParseLines([x, y, z]) == [ParseLine(x), ParseLine(y), ParseLine(z)]
  {
    RowsOfEachThree(LineRows, x, y, z);
  }

  lemma ParseLinesExample(l1: string, l2: string, l3: string, a: string, b: string, c: string, d: string)
    requires l1 == "A\tB" && l2 == "C|D" && l3 == "E"
    requires a == "A" && b == "B" && c == "C" && d == "D"
    ensures ParseLines([l1, l2, l3]) == [[a, b], [c, d], [l3]]
  {
    TabLineExample(l1, a, b);
    PipeLineExample(l2, c, d);
    PlainLineExample(l3);
    ParseThreeLines(l1, l2, l3);
  }

  lemma TemplateRowsExample(rendered: string)
    requires rendered == "A\tB\nC|D\nE"
    ensures TemplateRows(rendered) == [["A", "B"], ["C", "D"], ["E"]]
  {
    var l1, l2, l3 := "A\tB", "C|D", "E";
    LinesOfExample(rendered, l1, l2, l3);
    ParseLinesExample(l1, l2, l3, "A", "B", "C", "D");
  }
  /** The loop of `_generate_letterhead_rows` that turns each non-blank line into a row. */
  method RowsOfLines(lines: seq<string>) returns (rows: Rows)
    ensures rows == ParseLines(lines)
  {
    rows := [];
    for i := 0 to |lines|
      invariant rows == ParseLines(lines[..i])
    {
      ParseLinesPrefix(lines, i);
      var line := lines[i];
      if !Blank(line) {
        rows := rows + [ParseLine(line)];
      }
    }
    assert lines[..|lines|] == lines;
  }

  /**
   * `_generate_letterhead_rows(settings, context)`: refreshes the context,
   * renders the template, and builds the rows line by line.
   */
  method GenerateLetterheadRows(settings: Option<Settings>, context: Context, env: Env, render: Renderer)
    returns (r: Result<Rows>)
    ensures r == LetterheadRows(settings, context, env, render)
  {
    if !Enabled(settings) || settings.value.letterheadTemplate == "" {
      return Ok([]);
    }
    var s := settings.value;
    var refreshed := RefreshContext(context, env);
    if refreshed.Err? {
      return Err(refreshed.reason);
    }
    var ctx := refreshed.value;
    var rendered := render(s.letterheadTemplate, ctx);
    var rows := RowsOfLines(Split(rendered, '\n'));
    if s.addPrintedBy {
      rows := rows + [PrintedByRow(ctx)];
    }
    if rows != [] {
      rows := rows + [[""]];
    }
    return Ok(rows);
  }
}
