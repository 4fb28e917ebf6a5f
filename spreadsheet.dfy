/** The spreadsheet gateway of tools/spreadsheet.py: the cell addressing, colour
    requests, sheet-id lookup and shareable URL it builds, and the state of one
    spreadsheet (its Test Cases and Test Plan Overview grids, cell colours and the
    log of single-cell writes) that the service calls read and change. */
module Spreadsheet {
  import opened Wrappers
  import opened Lists
  import opened Text

  const TestCasesTab := "Test Cases"
  const OverviewTab := "Test Plan Overview"
  const ExecutionTab := "Test Execution"

  /** `get_test_case_data` reads the range 'Test Cases!A:J': ten columns. */
  const ReadColumns := 10

  const UrlPrefix := "https://docs.google.com/spreadsheets/d/"
  const UrlSuffix := "/edit"

  /** A colour with components in hundredths (0.7 is 70). */
  datatype Color = Color(red: nat, green: nat, blue: nat)

  /** A cell of the grid as the batchUpdate API addresses it: sheet id, 0-based row and column. */
  datatype GridCell = GridCell(sheetId: int, row: int, col: int)

  /** The `range` of a `repeatCell` request: rows [startRow, endRow), columns [startCol, endCol). */
  datatype GridRange = GridRange(sheetId: int, startRow: int, endRow: int, startCol: int, endCol: int)

  datatype ColorRequest = RepeatCell(range: GridRange, color: Color, fields: string)

  datatype SheetProps = SheetProps(title: string, sheetId: int)

  /** One single-cell write: the A1 range sent and the value written. */
  datatype CellWrite = CellWrite(range: string, value: string)

  /** Everything the core can observe of one spreadsheet. `grid` is the Test Cases
      sheet, row 0 being sheet row 1. */
  datatype SheetState = SheetState(
    grid: seq<seq<string>>,
    overview: seq<seq<string>>,
    colors: map<GridCell, Color>,
    log: seq<CellWrite>,
    tabs: seq<SheetProps>)

  /** `get_url`: the shareable link of a spreadsheet, from which its id can be read back. */
  function GetUrl(spreadsheetId: string): (url: string)
    ensures |url| == |UrlPrefix| + |spreadsheetId| + |UrlSuffix|
    ensures url[..|UrlPrefix|] == UrlPrefix && url[|url| - |UrlSuffix|..] == UrlSuffix
    ensures url[|UrlPrefix|..|url| - |UrlSuffix|] == spreadsheetId
  {
    UrlPrefix + spreadsheetId + UrlSuffix
  }

  /** `chr(65 + col)`: the column letter of a 0-based column. */
  function ColumnLetter(col: nat): (c: char)
    requires col < 26
    ensures 'A' <= c <= 'Z' && c as int - 'A' as int == col
  {
    (65 + col) as char
  }

  /** The range `f'{tab}!{chr(65 + col)}{row}'` naming one cell (row 1-based). */
  function A1(tab: string, col: nat, row: nat): string
    requires col < 26
  {
    tab + "!" + [ColumnLetter(col)] + Decimal(row)
  }

  /** Distinct cells of one sheet get distinct A1 ranges, so the log names each cell written. */
  lemma A1Injective(tab: string, col1: nat, row1: nat, col2: nat, row2: nat)
    requires col1 < 26 && col2 < 26
    requires A1(tab, col1, row1) == A1(tab, col2, row2)
    ensures col1 == col2 && row1 == row2
  {
    var a, b := A1(tab, col1, row1), A1(tab, col2, row2);
    assert a[|tab| + 1] == ColumnLetter(col1);
    assert b[|tab| + 1] == ColumnLetter(col2);
    assert a[|tab| + 2..] == Decimal(row1);
    assert b[|tab| + 2..] == Decimal(row2);
    DecimalInjective(row1, row2);
  }

  predicate Covers(g: GridRange, row: int, col: int) {
    g.startRow <= row < g.endRow && g.startCol <= col < g.endCol
  }

  /** The request `update_cell_color` sends: it covers exactly one cell, 0-based row
      `row - 1` (the argument is 1-based) and 0-based column `col`. */
  function CellColorRequest(sheetId: int, row: int, col: int, color: Color): (req: ColorRequest)
    ensures req.range.sheetId == sheetId && req.color == color
    ensures forall r, c :: Covers(req.range, r, c) <==> r == row - 1 && c == col
  {
    RepeatCell(GridRange(sheetId, row - 1, row, col, col + 1), color, "userEnteredFormat.backgroundColor")
  }

  /** `get_sheet_ids`: title to sheet id, built by a dict comprehension, so a later
      sheet with the same title replaces an earlier one. */
  function SheetIds(tabs: seq<SheetProps>): (ids: map<string, int>)
    ensures ids.Keys == set t | t in tabs :: t.title
    ensures forall k :: 0 <= k < |tabs| && (forall j :: k < j < |tabs| ==> tabs[j].title != tabs[k].title) ==>
      ids[tabs[k].title] == tabs[k].sheetId
  {
    if tabs == [] then map[]
    else
      var last := tabs[|tabs| - 1];
      var front := tabs[..|tabs| - 1];
      assert tabs == front + [last];
      var ids := SheetIds(front)[last.title := last.sheetId];
      assert forall k :: 0 <= k < |front| ==> front[k] == tabs[k];
      ids
  }

  /** The text of a cell, empty when it lies beyond the stored row. */
  function CellAt(grid: seq<seq<string>>, r: nat, c: nat): string {
    if r < |grid| && c < |grid[r]| then grid[r][c] else ""
  }

  /** A row after one cell is set, padding with empty cells as needed. */
  function SetInRow(row: seq<string>, c: nat, v: string): (t: seq<string>)
    ensures |t| == if c < |row| then |row| else c + 1
    ensures forall j :: 0 <= j < |t| ==> t[j] == if j == c then v else if j < |row| then row[j] else ""
    decreases c + 1 - |row|
  {
    if c < |row| then row[c := v] else SetInRow(row + [""], c, v)
  }

  /** The grid after one cell is set, padding with empty rows and cells as needed. */
  function SetCell(grid: seq<seq<string>>, r: nat, c: nat, v: string): (g: seq<seq<string>>)
    ensures forall i: nat, j: nat :: CellAt(g, i, j) == if i == r && j == c then v else CellAt(grid, i, j)
    ensures |g| == if r < |grid| then |grid| else r + 1
    decreases r + 1 - |grid|
  {
    if r < |grid| then grid[r := SetInRow(grid[r], c, v)] else SetCell(grid + [[]], r, c, v)
  }

  /** The grid after `values().update` writes `block` at A1: each written cell, empty
      strings included, replaces what was there; other cells stay. */
  function Overlay(grid: seq<seq<string>>, block: seq<seq<string>>): (g: seq<seq<string>>)
    ensures forall i: nat, j: nat ::
              CellAt(g, i, j) == if i < |block| && j < |block[i]| then block[i][j] else CellAt(grid, i, j)
    ensures |g| == if |grid| < |block| then |block| else |grid|
  {
    var n := if |grid| < |block| then |block| else |grid|;
    seq(n, i requires 0 <= i < n =>
      var old_ := if i < |grid| then grid[i] else [];
      if i < |block| then
        (if |block[i]| < |old_| then block[i] + old_[|block[i]|..] else block[i])
      else old_)
  }

  function Clip(row: seq<string>): (t: seq<string>)
    ensures |t| == if |row| < ReadColumns then |row| else ReadColumns
    ensures forall c :: 0 <= c < |t| ==> t[c] == row[c]
  {
    if |row| <= ReadColumns then row else row[..ReadColumns]
  }

  /** The read view of one stored row: its first ten cells without trailing empty ones. */
  function VisibleRow(row: seq<string>): (t: seq<string>)
    ensures |t| <= ReadColumns && |t| <= |row| && forall c :: 0 <= c < |t| ==> t[c] == row[c]
    ensures forall c :: |t| <= c < |row| && c < ReadColumns ==> row[c] == ""
    ensures |t| > 0 ==> t[|t| - 1] != ""
  {
    DropTrailing(Clip(row), "")
  }

  /** What `get_test_case_data` returns for a grid: the range A:J, with trailing empty
      cells of each row and trailing empty rows left out, as the values API does.
      Row and column positions are the grid's own. */
  function Visible(grid: seq<seq<string>>): (v: seq<seq<string>>)
    ensures |v| <= |grid|
    ensures forall r :: 0 <= r < |v| ==> |v[r]| <= ReadColumns
  {
    DropTrailing(VisibleRows(grid), [])
  }

  /** The read view of every stored row. */
  function VisibleRows(grid: seq<seq<string>>): (rows: seq<seq<string>>)
    ensures |rows| == |grid|
    ensures forall r :: 0 <= r < |grid| ==> rows[r] == VisibleRow(grid[r])
  {
    seq(|grid|, r requires 0 <= r < |grid| => VisibleRow(grid[r]))
  }

  /** Each row read is the read view of the stored row at the same position. */
  lemma VisibleRowsAre(grid: seq<seq<string>>)
    ensures forall r :: 0 <= r < |Visible(grid)| ==> Visible(grid)[r] == VisibleRow(grid[r])
  {
  }

  /** The cells of the read view are the grid's, and every nonempty cell among the ten
      columns read shows up. */
  lemma VisibleCells(grid: seq<seq<string>>)
    ensures forall r, c :: 0 <= r < |Visible(grid)| && 0 <= c < |Visible(grid)[r]| ==>
              Visible(grid)[r][c] == CellAt(grid, r, c)
    ensures forall r: nat, c: nat :: c < ReadColumns && CellAt(grid, r, c) != "" ==>
              r < |Visible(grid)| && c < |Visible(grid)[r]|
  {
    VisibleRowsAre(grid);
    forall r, c | 0 <= r < |Visible(grid)| && 0 <= c < |Visible(grid)[r]|
      ensures Visible(grid)[r][c] == CellAt(grid, r, c)
    {
      assert Visible(grid)[r] == VisibleRow(grid[r]);
    }
    forall r: nat, c: nat | c < ReadColumns && CellAt(grid, r, c) != ""
      ensures r < |Visible(grid)| && c < |Visible(grid)[r]|
    {
      assert c < |VisibleRow(grid[r])|;
      VisibleAt(grid, r);
    }
  }

  /** A nonempty cell within the ten columns read shows up, at its own position. */
  lemma VisibleCell(grid: seq<seq<string>>, r: nat, c: nat)
    requires c < ReadColumns && CellAt(grid, r, c) != ""
    ensures r < |Visible(grid)| && c < |Visible(grid)[r]| && Visible(grid)[r][c] == CellAt(grid, r, c)
  {
    VisibleCells(grid);
  }

  /** The cell of a row at a column, empty past its end. */
  function RowCell(row: seq<string>, c: nat): string {
    if c < |row| then row[c] else ""
  }

  /** The read view of a row depends only on its first ten cells. */
  lemma VisibleRowAgree(a: seq<string>, b: seq<string>)
    requires forall c: nat :: c < ReadColumns ==> RowCell(a, c) == RowCell(b, c)
    ensures VisibleRow(a) == VisibleRow(b)
  {
    var ta, tb := VisibleRow(a), VisibleRow(b);
    if |ta| > 0 {
      assert RowCell(b, |ta| - 1) == RowCell(a, |ta| - 1) == ta[|ta| - 1] != "";
    }
    if |tb| > 0 {
      assert RowCell(a, |tb| - 1) == RowCell(b, |tb| - 1) == tb[|tb| - 1] != "";
    }
    forall c | 0 <= c < |ta|
      ensures ta[c] == tb[c]
    {
      assert ta[c] == RowCell(a, c) && tb[c] == RowCell(b, c);
    }
  }

  /** The header row read back depends only on the first ten cells of sheet row 1. */
  lemma SameHeaderRow(g: seq<seq<string>>, g': seq<seq<string>>)
    requires forall c: nat :: c < ReadColumns ==> CellAt(g, 0, c) == CellAt(g', 0, c)
    requires |Visible(g)| > 0 && |Visible(g)[0]| > 0
    ensures |Visible(g')| > 0 && Visible(g')[0] == Visible(g)[0]
  {
    var a := g[0];
    var b := if |g'| > 0 then g'[0] else [];
    forall c: nat | c < ReadColumns
      ensures RowCell(a, c) == RowCell(b, c)
    {
      assert RowCell(a, c) == CellAt(g, 0, c);
      assert RowCell(b, c) == CellAt(g', 0, c);
    }
    VisibleRowAgree(a, b);
    assert Visible(g)[0] == VisibleRows(g)[0] == VisibleRow(a);
    VisibleAt(g', 0);
  }

  /** A row whose read view is nonempty is among the rows read. */
  lemma VisibleAt(g: seq<seq<string>>, r: nat)
    requires r < |g| && VisibleRow(g[r]) != []
    ensures r < |Visible(g)| && Visible(g)[r] == VisibleRow(g[r])
  {
    var rows := VisibleRows(g);
    assert rows[r] != [];
  }

  /** Writing one cell through `update_cell`: the grid changes at that cell and the
      write is logged under its A1 range. */
  function WriteCell(s: SheetState, col: nat, row: nat, value: string): (t: SheetState)
    requires col < 26 && row >= 1
  {
    s.(grid := SetCell(s.grid, row - 1, col, value),
       log := s.log + [CellWrite(A1(TestCasesTab, col, row), value)])
  }

  /** Applying a one-cell colour request. */
  function Paint(s: SheetState, req: ColorRequest): SheetState {
    s.(colors := s.colors[GridCell(req.range.sheetId, req.range.startRow, req.range.startCol) := req.color])
  }

  /** The spreadsheet service bound to one spreadsheet; its methods are the API calls. */
  class SheetService {
    var grid: seq<seq<string>>
    var overview: seq<seq<string>>
    var colors: map<GridCell, Color>
    var log: seq<CellWrite>
    const tabs: seq<SheetProps>

    function State(): SheetState
      reads this
    {
      SheetState(grid, overview, colors, log, tabs)
    }

    constructor (s: SheetState)
      ensures State() == s
    {
      grid, overview, colors, log, tabs := s.grid, s.overview, s.colors, s.log, s.tabs;
    }

    /** `get_test_case_data` with its default range. */
    method GetTestCaseData() returns (values: seq<seq<string>>)
      ensures values == Visible(grid)
    {
      values := Visible(grid);
    }

    /** `update_cell` on 'Test Cases!{letter}{row}'. */
    method UpdateCell(col: nat, row: nat, value: string)
      requires col < 26 && row >= 1
      modifies this
      ensures State() == WriteCell(old(State()), col, row, value)
    {
      grid := SetCell(grid, row - 1, col, value);
      log := log + [CellWrite(A1(TestCasesTab, col, row), value)];
    }

    /** `update_cell_color`. */
    method UpdateCellColor(sheetId: int, row: int, col: int, color: Color)
      modifies this
      ensures State() == Paint(old(State()), CellColorRequest(sheetId, row, col, color))
    {
      var req := CellColorRequest(sheetId, row, col, color);
      colors := colors[GridCell(req.range.sheetId, req.range.startRow, req.range.startCol) := req.color];
    }

    method GetSheetIds() returns (ids: map<string, int>)
      ensures ids == SheetIds(tabs)
    {
      ids := SheetIds(tabs);
    }

    /** `values().update` with range '{tab}!A1' for the two sheets the core populates. */
    method UpdateValues(toOverview: bool, block: seq<seq<string>>)
      modifies this
      ensures State() == if toOverview then old(State()).(overview := Overlay(old(overview), block))
                         else old(State()).(grid := Overlay(old(grid), block))
    {
      if toOverview {
        overview := Overlay(overview, block);
      } else {
        grid := Overlay(grid, block);
      }
    }
  }
}
