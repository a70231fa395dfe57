/**
 * The active worksheet of a generated spreadsheet, reduced to what
 * `_apply_font_to_all_rows` touches: a font on each row dimension and a
 * value and a font on each cell.
 */
module Sheet {
  import opened Wrappers
  import opened PyValue
  import opened Fonts
  import opened Utils

  /** A cell; `None` for the font means the workbook default. */
  datatype Cell = Cell(value: string, font: Option<Font>)

  /** A row: its row-dimension font and its cells. */
  datatype SheetRow = SheetRow(font: Option<Font>, cells: seq<Cell>)

  /** Rows 1..max_row of the active sheet, in order (row `r` at index `r - 1`). */
  datatype Grid = Grid(rows: seq<SheetRow>)

  /**
   * A spreadsheet file object: its content when it can be loaded (`None` for
   * an unreadable or corrupt file) and its read position.
   */
  datatype XlsxFile = XlsxFile(sheet: Option<Grid>, position: nat)

  /** Every font of the row, row-level and cell-level, is `f`. */
  predicate RowStyled(row: SheetRow, f: Font) {
    row.font == Some(f) && forall c :: 0 <= c < |row.cells| ==> row.cells[c].font == Some(f)
  }

  /** The two rows hold the same cell values in the same places. */
  predicate SameValues(a: SheetRow, b: SheetRow) {
    |a.cells| == |b.cells| && forall c :: 0 <= c < |a.cells| ==> a.cells[c].value == b.cells[c].value
  }

  /** `row` with `f` set on its row dimension and on every cell. */
  function StyleRow(row: SheetRow, f: Font): (r: SheetRow)
    ensures RowStyled(r, f) && SameValues(r, row)
  {
    SheetRow(Some(f), seq(|row.cells|, c requires 0 <= c < |row.cells| => row.cells[c].(font := Some(f))))
  }

  /**
   * The sheet after the restyle loop: every row whose number is not in
   * `failing` carries `f` on the row and on all its cells; a row whose
   * update raised is left as it was.
   */
  function Restyled(g: Grid, f: Font, failing: set<int>): (r: Grid)
    ensures |r.rows| == |g.rows|
    ensures forall i :: 0 <= i < |g.rows| ==> SameValues(r.rows[i], g.rows[i])
    ensures forall i :: 0 <= i < |g.rows| && i + 1 !in failing ==> RowStyled(r.rows[i], f)
    ensures forall i :: 0 <= i < |g.rows| && i + 1 in failing ==> r.rows[i] == g.rows[i]
  {
    Grid(seq(|g.rows|, i requires 0 <= i < |g.rows| =>
      if i + 1 in failing then g.rows[i] else StyleRow(g.rows[i], f)))
  }

  /** With no failing row, every row and every cell carries the font. */
  lemma RestyledAll(g: Grid, f: Font)
    ensures forall i :: 0 <= i < |g.rows| ==> RowStyled(Restyled(g, f, {}).rows[i], f)
  {
  }

  /** Restyling an already restyled sheet with the same font changes nothing. */
  lemma RestyledIdempotent(g: Grid, f: Font, failing: set<int>)
    ensures Restyled(Restyled(g, f, failing), f, failing) == Restyled(g, f, failing)
  {
    var once := Restyled(g, f, failing);
    var twice := Restyled(once, f, failing);
    forall i | 0 <= i < |g.rows| ensures twice.rows[i] == once.rows[i] {
      if i + 1 !in failing {
        assert StyleRow(once.rows[i], f).cells == once.rows[i].cells;
      }
    }
  }

  /**
   * `ws.max_column`: the widest row's cell count, and 1 for a sheet whose
   * rows hold no cell at all.
   */
  function MaxColumn(rows: seq<SheetRow>): (w: nat)
    ensures 1 <= w
    ensures forall i :: 0 <= i < |rows| ==> |rows[i].cells| <= w
    ensures w == 1 || exists i :: 0 <= i < |rows| && |rows[i].cells| == w
  {
    if rows == [] then 1
    else
      var rest := MaxColumn(rows[1..]);
      assert forall i :: 1 <= i < |rows| ==> rows[i] == rows[1..][i - 1];
      if |rows[0].cells| > rest then |rows[0].cells| else rest
  }

  /**
   * The cells `ws[r]` yields for a row with `w` columns: the row's own
   * cells, then the blank, unstyled cells openpyxl creates up to column `w`.
   */
  function PadRow(row: SheetRow, w: nat): (r: SheetRow)
    requires |row.cells| <= w
    ensures |r.cells| == w && r.font == row.font
    ensures r.cells[..|row.cells|] == row.cells
    ensures forall k :: |row.cells| <= k < w ==> r.cells[k] == Cell("", None)
  {
    SheetRow(row.font, row.cells + seq(w - |row.cells|, _ => Cell("", None)))
  }

  /** The sheet as the restyle loop sees it: every row widened to `ws.max_column`. */
  function Padded(g: Grid): (r: Grid)
    ensures |r.rows| == |g.rows|
    ensures forall i :: 0 <= i < |g.rows| ==>
              |r.rows[i].cells| == MaxColumn(g.rows) && r.rows[i].font == g.rows[i].font &&
              r.rows[i].cells[..|g.rows[i].cells|] == g.rows[i].cells
    ensures forall i, k :: 0 <= i < |g.rows| && |g.rows[i].cells| <= k < |r.rows[i].cells| ==>
              r.rows[i].cells[k] == Cell("", None)
  {
    var w := MaxColumn(g.rows);
    Grid(seq(|g.rows|, i requires 0 <= i < |g.rows| => PadRow(g.rows[i], w)))
  }

  /** A sheet whose rows are already as wide as `ws.max_column` is not widened again. */
  lemma PaddedIdempotent(g: Grid)
    ensures Padded(Padded(g)) == Padded(g)
  {
    var p := Padded(g);
    if g.rows != [] {
      var w := MaxColumn(g.rows);
      assert MaxColumn(p.rows) >= |p.rows[0].cells| == w;
      assert MaxColumn(p.rows) == w;
      forall i | 0 <= i < |p.rows| ensures Padded(p).rows[i] == p.rows[i] {
        assert Padded(p).rows[i].cells == Padded(p).rows[i].cells[..|p.rows[i].cells|];
      }
    }
  }

  /** The loaded, editable worksheet (`wb.active`). */
  class Worksheet {
    var rows: array<SheetRow>

    /**
     * `load_workbook(file)`, viewed through `ws[r]`: each row holds the
     * cells `ws[r]` yields, columns 1..`max_column`, so a row shorter than
     * the widest ends in the blank cells openpyxl creates for it.
     */
    constructor Load(g: Grid)
      ensures rows[..] == Padded(g).rows && fresh(rows)
    {
      var p := Padded(g);
      rows := new SheetRow[|p.rows|](i requires 0 <= i < |p.rows| => p.rows[i]);
    }

    /** `wb.save(...)`: the sheet as it stands. */
    function Save(): (g: Grid)
      reads this, rows
      ensures g.rows == rows[..]
    {
      Grid(rows[..])
    }

    /**
     * The loop of patches.py:253-268 for rows 1..max_row: set the
     * row-dimension font, then the font of each cell of the row. A row in
     * `failing` raises before anything of it changes and is skipped.
     */
    method ApplyFont(f: Font, failing: set<int>)
      modifies rows
      ensures rows[..] == Restyled(Grid(old(rows[..])), f, failing).rows
    {
      ghost var before := rows[..];
      var maxRow := rows.Length;
      for r := 1 to maxRow + 1
        invariant forall i :: 0 <= i < r - 1 ==>
                    rows[i] == if i + 1 in failing then before[i] else StyleRow(before[i], f)
        invariant forall i :: r - 1 <= i < maxRow ==> rows[i] == before[i]
      {
        if r in failing {
          continue;
        }
        var i := r - 1;
        ghost var mid := rows[..];
        rows[i] := rows[i].(font := Some(f));
        var n := |rows[i].cells|;
        for c := 0 to n
          invariant |rows[i].cells| == n && rows[i].font == Some(f)
          invariant forall k :: 0 <= k < c ==> rows[i].cells[k] == before[i].cells[k].(font := Some(f))
          invariant forall k :: c <= k < n ==> rows[i].cells[k] == before[i].cells[k]
          invariant forall j :: 0 <= j < maxRow && j != i ==> rows[j] == mid[j]
        {
          rows[i] := rows[i].(cells := rows[i].cells[c := rows[i].cells[c].(font := Some(f))]);
        }
        assert rows[i] == StyleRow(before[i], f);
      }
    }
  }

  /**
   * `_apply_font_to_all_rows(xlsx_file, settings, …)`: a readable file is
   * loaded, every row not in `failing` is set to the font normalised from
   * the settings, and the sheet is saved to a new file positioned at 0; an
   * unreadable one is returned as it was, rewound to 0.
   */
  method ApplyFontToAllRows(file: XlsxFile, settings: Settings, failing: set<int>) returns (out: XlsxFile)
    ensures out == RestyledFile(file, SettingsFont(settings), failing)
    ensures out.position == 0
    ensures file.sheet.None? ==> out == file.(position := 0)
    ensures file.sheet.Some? ==> out.sheet.Some? && |out.sheet.value.rows| == |file.sheet.value.rows|
  {
    if file.sheet.None? {
      return file.(position := 0);
    }
    var f := SettingsFont(settings);
    var ws := new Worksheet.Load(file.sheet.value);
    ws.ApplyFont(f, failing);
    out := XlsxFile(Some(ws.Save()), 0);
  }

  /**
   * The font of patches.py:220-246, read from the settings `_get_settings`
   * produced: the name sanitised again, the size coerced and bounded.
   */
  function SettingsFont(settings: Settings): (f: Font)
    ensures ValidFontName(f.name) && 1 <= f.size <= MaxFontSize
    ensures ValidFontName(settings.fontName) ==> f.name == settings.fontName
    ensures 1 <= settings.fontSize <= MaxFontSize ==> f.size == settings.fontSize
  {
    var f := NormalizeFont(settings.fontName, VInt(settings.fontSize));
    if ValidFontName(settings.fontName) then SanitizeValidName(settings.fontName); f else f
  }

  /**
   * Normalising the settings `_get_settings` produced gives the same font as
   * normalising the stored record directly: the second sanitisation in
   * patches.py changes nothing and only the size bound is new.
   */
  lemma SettingsFontOfRecord(raw: RawSettings)
    ensures SettingsFont(GetSettings(Some(raw)).value) == NormalizeFont(raw.fontName, raw.fontSize)
  {
    var s := GetSettings(Some(raw)).value;
    SanitizeValidName(s.fontName);
    SanitizeFontNameChar(raw.fontName);
    NormalizeCoercedSize(raw.fontSize);
  }

  /** The file `_apply_font_to_all_rows` returns. */
  function RestyledFile(file: XlsxFile, f: Font, failing: set<int>): (r: XlsxFile)
    ensures r.position == 0 && (r.sheet.None? <==> file.sheet.None?)
    ensures file.sheet.Some? ==> |r.sheet.value.rows| == |file.sheet.value.rows|
    ensures file.sheet.Some? ==> forall i :: 0 <= i < |file.sheet.value.rows| ==>
              |file.sheet.value.rows[i].cells| <= |r.sheet.value.rows[i].cells| == MaxColumn(file.sheet.value.rows)
    ensures file.sheet.Some? ==> forall i, k :: 0 <= i < |file.sheet.value.rows| && 0 <= k < |file.sheet.value.rows[i].cells| ==>
              r.sheet.value.rows[i].cells[k].value == file.sheet.value.rows[i].cells[k].value
  {
    match file.sheet
    case None => file.(position := 0)
    case Some(g) =>
      var p := Padded(g);
      assert forall i, k :: 0 <= i < |g.rows| && 0 <= k < |g.rows[i].cells| ==>
               p.rows[i].cells[k] == p.rows[i].cells[..|g.rows[i].cells|][k];
      XlsxFile(Some(Restyled(p, f, failing)), 0)
  }
}
